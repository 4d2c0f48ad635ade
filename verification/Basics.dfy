/** Idioms shared by every component. */
module Basics {

  datatype Option<+T> = None | Some(value: T)

  /** Saturating subtraction, as every maintained gauge uses it. */
  function Saturating(a: nat, b: nat): nat { if a < b then 0 else a - b }
}
