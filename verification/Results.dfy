/** Optional values. */
module Options {

  datatype Option<+T> = None | Some(value: T)
}

/** What a call that may raise gives back. A refusal stands for any of its exceptions. */
module Outcomes {

  datatype Outcome<+T> = Done(value: T) | Refused
}
