/** The optional value used wherever the program returns "absent" or an error whose text does not matter. */
module Wrappers {
  datatype Option<+T> = None | Some(value: T)

  // A truth value counted.
  function Bit(b: bool): nat {
    if b then 1 else 0
  }
}
