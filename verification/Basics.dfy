/** Shared vocabulary: the two nodes of the cluster and the usual wrappers. */
module Basics {
  datatype Option<+T> = None | Some(value: T)

  datatype Result<+T> = Ok(value: T) | Err(error: string)

  /** The two virtual machines. */
  datatype Node = NodeA | NodeB
  {
    function Peer(): Node {
      if this == NodeA then NodeB else NodeA
    }
  }

  function Max(x: int, y: int): int {
    if x > y then x else y
  }

  function Min(x: int, y: int): int {
    if x < y then x else y
  }
}
