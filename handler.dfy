/**
 * The signal handler object: a latch that the signal callback sets and
 * that set-up clears, with the polling reads a daemon loop uses.
 */
module SignalHandler {
  import opened Options
  import opened Signals
  import opened Messages
  import opened Delivery

  /**
   * The logging collaborator. Only what it is told matters here: `Messages`
   * records, in order, every debug message it received.
   */
  class Logger {
    ghost var Messages: seq<string>

    constructor ()
      ensures Messages == []
    {
      Messages := [];
    }

    method Debug(message: string)
      modifies this
      ensures Messages == old(Messages) + [message]
    {
      Messages := Messages + [message];
    }
  }

  class Handler {
    /** Whether a registered signal has been handled since the last set-up. */
    var signalReceived: bool
    /** The number of the last signal handled, `None` until one is. */
    var signalNum: Option<int>
    /** Whether set-up found signal handling available. */
    var enabled: bool
    /** The attached logger, or `null`. */
    var logger: Logger?
    /**
     * The signals for which the runtime has this object's callback
     * registered: the process-wide table that registration writes to,
     * restricted to the entries that point at this handler.
     */
    var registered: set<int>

    /**
     * The object invariant: the latch holds a number exactly when it is
     * set, and no signal is registered before set-up has succeeded.
     */
    ghost predicate Valid()
      reads this
    {
      (signalNum.Some? <==> signalReceived)
      && (registered != {} ==> enabled)
    }

    constructor ()
      ensures Valid()
      ensures !signalReceived && signalNum == None && !enabled && logger == null
      ensures registered == {}
    {
      signalReceived := false;
      signalNum := None;
      enabled := false;
      logger := null;
      registered := {};
    }

    /**
     * The signal callback: sets the latch and records `signo`, whatever
     * the latch held before, after reporting `signo` to the logger.
     */
    method PcntlSignalHandler(signo: int)
      requires Valid()
      modifies this, logger
      ensures Valid()
      ensures signalReceived && signalNum == Some(signo)
      ensures enabled == old(enabled) && logger == old(logger) && registered == old(registered)
      ensures logger != null ==> logger.Messages == old(logger.Messages) + [HandlerMessage(signo)]
    {
      if logger != null {
        logger.Debug(HandlerMessage(signo));
      }
      signalReceived := true;
      signalNum := Some(signo);
    }

    /**
     * Set-up. When the runtime supports signals (`supported`), registers the
     * callback for every signal of `exitSignals` (hang-up, terminate and
     * interrupt when it is `None`), enables dispatching and clears the latch.
     * Otherwise it only reports that signal handling is missing.
     */
    method PcntlSignalSetup(supported: bool, exitSignals: Option<seq<int>>)
      requires Valid()
      modifies this, logger
      ensures Valid()
      ensures logger == old(logger)
      ensures supported ==> enabled && !signalReceived && signalNum == None
      ensures supported && exitSignals.None? ==> registered == old(registered) + DEFAULT_EXIT_SET
      ensures supported && exitSignals.Some? ==> registered == old(registered) + Elements(exitSignals.value)
      ensures !supported ==> signalReceived == old(signalReceived) && signalNum == old(signalNum)
                             && enabled == old(enabled) && registered == old(registered)
      ensures logger != null ==> logger.Messages == old(logger.Messages)
                                 + [if supported then ENABLED_MESSAGE else UNSUPPORTED_MESSAGE]
    {
      if supported {
        var signals := ExitSignals(exitSignals);
        for i := 0 to |signals|
          invariant registered == old(registered) + Elements(signals[..i])
          invariant logger == old(logger)
          invariant logger != null ==> logger.Messages == old(logger.Messages)
        {
          assert signals[..i + 1] == signals[..i] + [signals[i]];
          registered := registered + {signals[i]};
        }
        assert signals[..|signals|] == signals;
        enabled := true;
        signalReceived := false;
        signalNum := None;
        if logger != null {
          logger.Debug(ENABLED_MESSAGE);
        }
      } else {
        if logger != null {
          logger.Debug(UNSUPPORTED_MESSAGE);
        }
      }
    }

    /**
     * Dispatch. When enabled, the runtime passes each signal of `pending`
     * that has this callback registered to the callback, in order; when
     * not enabled nothing happens. Since nothing is registered before a
     * successful set-up, in both cases the callback sees exactly the
     * registered pending signals.
     */
    method PcntlSignalDispatch(pending: seq<int>)
      requires Valid()
      modifies this, logger
      ensures Valid()
      ensures enabled == old(enabled) && logger == old(logger) && registered == old(registered)
      ensures !old(enabled) ==> signalReceived == old(signalReceived) && signalNum == old(signalNum)
                                && (logger != null ==> logger.Messages == old(logger.Messages))
      ensures var delivered := Deliverable(pending, old(registered));
        && (delivered == [] ==> signalReceived == old(signalReceived) && signalNum == old(signalNum))
        && (delivered != [] ==> signalReceived && signalNum == Some(delivered[|delivered| - 1]))
        && (logger != null ==> logger.Messages == old(logger.Messages) + HandlerMessages(delivered))
    {
      if enabled {
        for i := 0 to |pending|
          invariant Valid()
          invariant enabled && logger == old(logger) && registered == old(registered)
          invariant var delivered := Deliverable(pending[..i], registered);
            && (delivered == [] ==> signalReceived == old(signalReceived) && signalNum == old(signalNum))
            && (delivered != [] ==> signalReceived && signalNum == Some(delivered[|delivered| - 1]))
            && (logger != null ==> logger.Messages == old(logger.Messages) + HandlerMessages(delivered))
        {
          var before := Deliverable(pending[..i], registered);
          assert pending[..i + 1] == pending[..i] + [pending[i]];
          DeliverableSnoc(pending[..i], pending[i], registered);
          if pending[i] in registered {
            HandlerMessagesSnoc(before, pending[i]);
            PcntlSignalHandler(pending[i]);
          } else {
            assert before + [] == before;
          }
        }
        assert pending[..|pending|] == pending;
      } else {
        // Nothing is registered before a successful set-up, so nothing is deliverable.
        NothingRegistered(pending);
        assert HandlerMessages([]) == [];
      }
    }

    /** Whether a signal was received; with the invariant, whether a number is recorded. */
    method PcntlSignalReceived() returns (r: bool)
      ensures r == signalReceived
      ensures Valid() ==> (r <==> signalNum.Some?)
    {
      r := signalReceived;
    }

    /** The number of the last signal received, `None` when none was. */
    method GetSignalReceived() returns (r: Option<int>)
      ensures r == signalNum
      ensures Valid() ==> (r.Some? <==> signalReceived)
    {
      r := signalNum;
    }

    /** Attaches `newLogger` (or detaches with `null`), replacing the previous one. */
    method SetLogger(newLogger: Logger?)
      requires Valid()
      modifies this
      ensures Valid()
      ensures logger == newLogger
      ensures signalReceived == old(signalReceived) && signalNum == old(signalNum)
      ensures enabled == old(enabled) && registered == old(registered)
    {
      logger := newLogger;
    }
  }
}
