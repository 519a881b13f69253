/** The option and result types shared by the whole model. */
module Wrappers {
  datatype Option<+T> = None | Some(value: T) {
    function GetOr(default: T): T {
      match this
      case Some(v) => v
      case None => default
    }
  }

  function Max(a: nat, b: nat): nat {
    if a <= b then b else a
  }

  function Min(a: nat, b: nat): nat {
    if a <= b then a else b
  }
}
