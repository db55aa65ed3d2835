/** Double-entry legs: sides, signed units, inversion and balance per asset. */
module Journal {
  import opened Ids
  import opened Sums

  type AssetCode = string

  datatype AccountType = AssetAccount | Liability | Equity | Income | Expense | Fund | System

  datatype Side = Debit | Credit

  function Opposite(s: Side): Side { if s == Debit then Credit else Debit }

  /** One posting: its place in the transaction, account, asset, side and positive units. */
  datatype Leg = Leg(position: nat, account: Id, asset: AssetCode, side: Side, units: int)

  function Signed(l: Leg): int { if l.side == Debit then l.units else -l.units }

  /** Debit-positive weight of a leg in one asset, and on one account. */
  function InAsset(asset: AssetCode): Leg -> int { (l: Leg) => if l.asset == asset then Signed(l) else 0 }

  function OnAccount(account: Id): Leg -> int { (l: Leg) => if l.account == account then Signed(l) else 0 }

  function Net(legs: seq<Leg>, asset: AssetCode): int { Sum(InAsset(asset), legs) }

  function AccountNet(legs: seq<Leg>, account: Id): int { Sum(OnAccount(account), legs) }

  ghost predicate Balanced(legs: seq<Leg>) { forall asset :: Net(legs, asset) == 0 }

  function Touches(legs: seq<Leg>, account: Id): bool { exists i :: 0 <= i < |legs| && legs[i].account == account }

  /** The same legs on the other side: what a reversal posts. */
  function Inverse(legs: seq<Leg>): (r: seq<Leg>)
    ensures |r| == |legs|
    ensures forall i :: 0 <= i < |legs| ==> r[i] == legs[i].(side := Opposite(legs[i].side))
  {
    if legs == [] then [] else
      Inverse(legs[..|legs| - 1]) + [legs[|legs| - 1].(side := Opposite(legs[|legs| - 1].side))]
  }

  lemma {:induction false} InverseNegates(legs: seq<Leg>, account: Id, asset: AssetCode)
    ensures AccountNet(Inverse(legs), account) == -AccountNet(legs, account)
    ensures Net(Inverse(legs), asset) == -Net(legs, asset)
  {
    if legs != [] {
      InverseNegates(legs[..|legs| - 1], account, asset);
      assert Inverse(legs)[..|legs| - 1] == Inverse(legs[..|legs| - 1]);
    }
  }

  lemma UntouchedIsZero(legs: seq<Leg>, account: Id)
    requires !Touches(legs, account)
    ensures AccountNet(legs, account) == 0
  {
    SumOfZeros(OnAccount(account), legs);
  }
}
