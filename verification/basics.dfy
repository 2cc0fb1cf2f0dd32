/** Small things every part uses. */
module Basics {

  newtype byte = b: int | 0 <= b < 256

  datatype Option<T> = None | Some(value: T)

  datatype Result<T, E> = Ok(value: T) | Err(error: E)

  /** Node identifiers are strings; the empty string stands for "no node". */
  type NodeId = string
  const NO_NODE: NodeId := ""

  function Max(a: nat, b: nat): nat {
    if a < b then b else a
  }

  function Min(a: nat, b: nat): nat {
    if a < b then a else b
  }
}
