/**
 * The one piece of the reactive-streams library the services use: a
 * subject that holds the last value published through it.
 */
module Rx {

  class Subject<T> {
    var value: T

    constructor (initial: T)
      ensures value == initial
    {
      value := initial;
    }

    /** `next(v)`: publishes `v`, which becomes the held value. */
    method Next(v: T)
      modifies this
      ensures value == v
    {
      value := v;
    }
  }
}
