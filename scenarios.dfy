/**
 * Clients of the handler, written as a daemon would use it: each method
 * builds a fresh handler, drives it and reports what the polling reads
 * return. What they promise follows from the handler's contracts alone.
 */
module Scenarios {
  import opened Options
  import opened Signals
  import opened Messages
  import opened Delivery
  import opened SignalHandler

  /** After a successful set-up, a registered signal is seen at the next dispatch. */
  method SignalAfterSetup(exitSignals: Option<seq<int>>, signo: int) returns (received: bool, last: Option<int>)
    requires signo in ExitSignals(exitSignals)
    ensures received && last == Some(signo)
  {
    var h := new Handler();
    h.PcntlSignalSetup(true, exitSignals);
    h.PcntlSignalDispatch([signo]);
    received := h.PcntlSignalReceived();
    last := h.GetSignalReceived();
  }

  /** When several registered signals are pending, the last of them is the one recorded. */
  method LastPendingWins(exitSignals: Option<seq<int>>, pending: seq<int>) returns (received: bool, last: Option<int>)
    requires pending != []
    requires forall k :: 0 <= k < |pending| ==> pending[k] in ExitSignals(exitSignals)
    ensures received && last == Some(pending[|pending| - 1])
  {
    var h := new Handler();
    h.PcntlSignalSetup(true, exitSignals);
    LastDelivered(pending, h.registered, |pending| - 1);
    h.PcntlSignalDispatch(pending);
    received := h.PcntlSignalReceived();
    last := h.GetSignalReceived();
  }

  /**
   * A second supported set-up clears a latched signal, whatever list either
   * set-up uses. (A set-up without support would leave the latch as it is.)
   */
  method SetupAgainClears(first: Option<seq<int>>, second: Option<seq<int>>, signo: int)
    returns (received: bool, last: Option<int>)
    ensures !received && last == None
  {
    var h := new Handler();
    h.PcntlSignalSetup(true, first);
    h.PcntlSignalHandler(signo);
    h.PcntlSignalSetup(true, second);
    received := h.PcntlSignalReceived();
    last := h.GetSignalReceived();
  }

  /** On a fresh handler, dispatching before any set-up delivers nothing, whatever is pending. */
  method DispatchBeforeSetup(pending: seq<int>) returns (received: bool, last: Option<int>)
    ensures !received && last == None
  {
    var h := new Handler();
    h.PcntlSignalDispatch(pending);
    received := h.PcntlSignalReceived();
    last := h.GetSignalReceived();
  }

  /** On a fresh handler whose only set-up found no signal support, dispatching never sets the latch. */
  method UnsupportedNeverLatches(exitSignals: Option<seq<int>>, pending: seq<int>) returns (received: bool, last: Option<int>)
    ensures !received && last == None
  {
    var h := new Handler();
    h.PcntlSignalSetup(false, exitSignals);
    h.PcntlSignalDispatch(pending);
    received := h.PcntlSignalReceived();
    last := h.GetSignalReceived();
  }

  /**
   * On a fresh handler set up with a custom list that leaves out terminate,
   * a pending terminate signal has no effect on the latch.
   */
  method UnregisteredSignalIgnored(list: seq<int>) returns (received: bool, last: Option<int>)
    requires SIGTERM !in list
    ensures !received && last == None
  {
    var h := new Handler();
    h.PcntlSignalSetup(true, Some(list));
    h.PcntlSignalDispatch([SIGTERM]);
    received := h.PcntlSignalReceived();
    last := h.GetSignalReceived();
  }

  /**
   * With a logger attached, set-up and one interrupt leave exactly two
   * debug messages, the second naming the interrupt's number.
   */
  method LoggedInterrupt() returns (received: bool, last: Option<int>, ghost log: seq<string>)
    ensures received && last == Some(SIGINT)
    ensures log == [ENABLED_MESSAGE, HandlerMessage(SIGINT)]
    ensures SignalOfMessage(log[1]) == Some(SIGINT)
  {
    var h := new Handler();
    var logger := new Logger();
    h.SetLogger(logger);
    h.PcntlSignalSetup(true, None);
    h.PcntlSignalDispatch([SIGINT]);
    received := h.PcntlSignalReceived();
    last := h.GetSignalReceived();
    log := logger.Messages;
  }
}
