/** A value that may be missing: an absent fruit, an unset wander target,
    or "no movement command" when a slime has no physics body. */
module Wrappers {

  datatype Option<+T> = None | Some(value: T)
}
