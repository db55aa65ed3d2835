/** Identities of rows and entities, as abstract numbers. */
module Ids {
  type Id = nat
}
