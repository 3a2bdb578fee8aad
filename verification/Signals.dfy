/** The wakeup channels shared by the park registry and the event bus. */
module Signals {

  /** A channel of capacity one that carries no value. */
  class Signal {
    var full: bool

    constructor ()
      ensures !full
    {
      full := false;
    }

    /** A send that never blocks: a full slot already holds the wakeup. */
    method Send()
      modifies this
      ensures full
    {
      full := true;
    }
  }
}
