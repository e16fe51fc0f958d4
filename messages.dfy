/**
 * The three debug messages the handler writes to its logger, and a reader
 * that recovers the signal number from a handler message.
 */
module Messages {
  import opened Options
  import opened Decimal

  const HANDLER_PREFIX: string := "Web2All_Signal_handler->pcntlSignalHandler: signal "
  const HANDLER_SUFFIX: string := " received"

  /** Written by set-up when signal handling is available. */
  const ENABLED_MESSAGE: string := "Web2All_Signal_handler->pcntlSignalSetup: signal handling enabled"
  /** Written by set-up when signal handling is missing from the runtime. */
  const UNSUPPORTED_MESSAGE: string := "Web2All_Signal_handler->pcntlSignalSetup: signal handling NOT SUPPORTED"

  /**
   * Written by the signal callback for signal `signo`: the fixed prefix,
   * the signal's decimal text, then " received". The message names its
   * signal: reading it back gives `signo`.
   */
  function HandlerMessage(signo: int): (m: string)
    ensures SignalOfMessage(m) == Some(signo)
  {
    var m := HANDLER_PREFIX + IntToString(signo) + HANDLER_SUFFIX;
    assert m[..|HANDLER_PREFIX|] == HANDLER_PREFIX;
    assert m[|m| - |HANDLER_SUFFIX|..] == HANDLER_SUFFIX;
    assert m[|HANDLER_PREFIX|..|m| - |HANDLER_SUFFIX|] == IntToString(signo);
    IntToStringRoundTrip(signo);
    m
  }

  /** The messages the callback writes when it handles `signals` in that order. */
  function HandlerMessages(signals: seq<int>): seq<string>
  {
    seq(|signals|, k requires 0 <= k < |signals| => HandlerMessage(signals[k]))
  }

  /** The signal a handler message reports; `None` for any other text. */
  function SignalOfMessage(m: string): Option<int>
  {
    if |m| >= |HANDLER_PREFIX| + |HANDLER_SUFFIX|
       && m[..|HANDLER_PREFIX|] == HANDLER_PREFIX
       && m[|m| - |HANDLER_SUFFIX|..] == HANDLER_SUFFIX
    then ParseInt(m[|HANDLER_PREFIX|..|m| - |HANDLER_SUFFIX|])
    else None
  }

  /** Two handler messages are equal only when they report the same signal. */
  lemma HandlerMessageInjective(a: int, b: int)
    requires HandlerMessage(a) == HandlerMessage(b)
    ensures a == b
  {
    // Both messages read back to their signals (the contract of HandlerMessage).
  }

  /** The sequence of handler messages determines the handled signals and their order. */
  lemma HandlerMessagesInjective(a: seq<int>, b: seq<int>)
    requires HandlerMessages(a) == HandlerMessages(b)
    ensures a == b
  {
    assert |a| == |HandlerMessages(a)|;
    forall k | 0 <= k < |a|
      ensures a[k] == b[k]
    {
      assert HandlerMessages(a)[k] == HandlerMessage(a[k]);
      assert HandlerMessages(b)[k] == HandlerMessage(b[k]);
      HandlerMessageInjective(a[k], b[k]);
    }
  }

  /** Handling one more signal adds exactly its message at the end. */
  lemma HandlerMessagesSnoc(signals: seq<int>, signo: int)
    ensures HandlerMessages(signals + [signo]) == HandlerMessages(signals) + [HandlerMessage(signo)]
  {
    var lhs, rhs := HandlerMessages(signals + [signo]), HandlerMessages(signals) + [HandlerMessage(signo)];
    assert |lhs| == |rhs|;
    forall k | 0 <= k < |lhs|
      ensures lhs[k] == rhs[k]
    {
      if k < |signals| {
        assert rhs[k] == HandlerMessages(signals)[k];
      }
    }
  }

  /** Neither set-up message can be mistaken for a signal report, and the two differ. */
  lemma SetupMessagesAreNotSignalReports()
    ensures SignalOfMessage(ENABLED_MESSAGE) == None
    ensures SignalOfMessage(UNSUPPORTED_MESSAGE) == None
    ensures ENABLED_MESSAGE != UNSUPPORTED_MESSAGE
  {
    // All three messages start "Web2All_Signal_handler->pcntlSignal"; the next
    // letter is 'H' (Handler) in a signal report and 'S' (Setup) in the others.
    var at := |"Web2All_Signal_handler->pcntlSignal"|;
    assert HANDLER_PREFIX[at] == 'H';
    assert ENABLED_MESSAGE[at] == 'S';
    assert UNSUPPORTED_MESSAGE[at] == 'S';
    assert ENABLED_MESSAGE[..|HANDLER_PREFIX|][at] == ENABLED_MESSAGE[at];
    assert UNSUPPORTED_MESSAGE[..|HANDLER_PREFIX|][at] == UNSUPPORTED_MESSAGE[at];
  }
}
