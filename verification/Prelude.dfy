/** Stock datatypes shared by every module. */
module Prelude {
  /** A nullable column or an optional argument. */
  datatype Option<+T> = None | Some(value: T)

  /** Milliseconds since the epoch, as a JavaScript `Date` counts them. */
  type Time = int

  /** Rows and credentials are named by random values; a credential is looked up by
      its hash, which is injective, so one name stands for the token and its hash. */
  type Id = nat

  type Scope = string
}
