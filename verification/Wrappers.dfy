/**
  Small helpers that several modules share.
*/
module Wrappers {

  datatype Option<+T> = None | Some(value: T)

  // A sequence without the element at one position.
  function Without<T>(s: seq<T>, at: nat): seq<T>
    requires at < |s|
  {
    s[..at] + s[at + 1..]
  }
}
