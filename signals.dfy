/**
 * The signal numbers the handler knows about by name, and the list of
 * signals that set-up registers when its caller gives none.
 */
module Signals {
  import opened Options

  /** Hang-up (`kill -HUP`). The values are the POSIX ones. */
  const SIGHUP: int := 1
  /** Interrupt (ctrl-c). */
  const SIGINT: int := 2
  /** Termination request (plain `kill`). */
  const SIGTERM: int := 15

  /** The signals set-up registers when it is called without a list. */
  const DEFAULT_EXIT_SIGNALS: seq<int> := [SIGHUP, SIGTERM, SIGINT]

  /** The signals that default list registers. */
  const DEFAULT_EXIT_SET: set<int> := {SIGHUP, SIGTERM, SIGINT}

  /** The set of values in a list of signal numbers. */
  function Elements(signals: seq<int>): set<int>
  {
    set s | s in signals
  }

  /**
   * The list set-up iterates over: the caller's list when one is given,
   * otherwise hang-up, terminate and interrupt, in that order: three
   * distinct signals.
   */
  function ExitSignals(exitSignals: Option<seq<int>>): (signals: seq<int>)
    ensures exitSignals.Some? ==> signals == exitSignals.value
    ensures exitSignals.None? ==> Elements(signals) == DEFAULT_EXIT_SET
    ensures exitSignals.None? ==> |signals| == 3
    ensures exitSignals.None? ==> forall i, j :: 0 <= i < j < |signals| ==> signals[i] != signals[j]
  {
    assert Elements(DEFAULT_EXIT_SIGNALS) == DEFAULT_EXIT_SET;
    match exitSignals
    case None => DEFAULT_EXIT_SIGNALS
    case Some(list) => list
  }
}
