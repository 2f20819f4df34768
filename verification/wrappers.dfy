/** The optional value used for ids that may be absent (`activeId?: string` in the player store). */
module Wrappers {

  datatype Option<+T> = None | Some(value: T)
}
