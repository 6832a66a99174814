/** An optional value: a `GroupSingle` slot or a `None`-able reference of the game. */
module Wrappers {

  datatype Option<+T> = None | Some(value: T)
}
