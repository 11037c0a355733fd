/**
  `threading.Event` as the assistant uses it: a flag that listeners set and
  loops poll, and that nothing ever clears.
 */
module Signals {
  class Signal {
    var isSet: bool

    constructor ()
      ensures !isSet
    {
      isSet := false;
    }

    /** `set()`: from now on the flag reads true. */
    method Set()
      modifies this
      ensures isSet
    {
      isSet := true;
    }
  }
}
