# Web2All signal handler, modelled in Dafny

`Web2All_Signal_Handler` lets a PHP daemon loop stop cleanly on hang-up,
terminate or interrupt. It is a latch around PHP's `pcntl` functions.
Set-up registers the object's callback for a list of signals and clears
the latch. The callback sets the latch and records the signal number.
Dispatch asks the runtime to run the callbacks for pending signals, but
only once set-up has succeeded. Two getters let the loop poll the latch.

The model is one class, `SignalHandler.Handler`. Its fields are those of
the PHP class:

- `signalReceived` models `pcntl_signal_received`.
- `signalNum` models `pcntl_signal_num`, with `None` for PHP's `null`.
- `enabled` models `pcntl_enabled`.
- `logger` models `logger`, with `null` for no logger.

One more field, `registered`, stands for the runtime's registration table,
restricted to the entries that point at this object's callback.

The two calls into the runtime are abstract:

- `function_exists('pcntl_signal')` is the `supported` argument of
  `PcntlSignalSetup`.
- `pcntl_signal($sig, …)` adds `$sig` to `registered`, once per element of
  the list, in the same `for` loop as the source's `foreach`.
- `pcntl_signal_dispatch()` is modelled by `PcntlSignalDispatch(pending)`.
  `pending` is the signals the runtime has queued, in order. Each one that
  is in `registered` is passed to `PcntlSignalHandler`, in turn.

The logger is a `Logger` object. It keeps a ghost record, `Messages`, of
every debug message it was given. The three messages are the source's own
strings. In the callback's message, the signal number is written the way
PHP writes an integer into a string (`Decimal.IntToString`). A parser reads
the number back from such a message (`Messages.SignalOfMessage`).

`Handler.Valid()` is the object invariant. It has two parts:

- a number is recorded exactly when the latch is set;
- nothing is registered before a set-up has succeeded.

The constructor establishes it, and every state-changing method both needs
it and keeps it.

`SIGHUP`, `SIGINT` and `SIGTERM` are module constants with their POSIX
values (1, 2 and 15).

Two consequences of the code:

- A set-up without signal support leaves `enabled` as it was. If an
  earlier set-up succeeded, dispatching stays enabled and the latch can
  still be set.
- Set-up takes a list. Duplicates are allowed, and registration only adds
  entries: signals registered by an earlier set-up stay registered.

## Model

| member | source | states |
|---|---|---|
| SignalHandler.Handler.constructor | src/Web2All/Signal/Handler.class.php:30-51 | A new handler is not latched, has no number, is not enabled, has no logger and nothing registered; the invariant holds |
| SignalHandler.Handler.PcntlSignalHandler | src/Web2All/Signal/Handler.class.php:59-66 | Whatever the prior latch, it ends set with the given number. `enabled`, the logger and the registrations are untouched. A logger gets exactly one message, the one naming the signal; without a logger no object but the handler changes |
| SignalHandler.Handler.PcntlSignalSetup | src/Web2All/Signal/Handler.class.php:76-97 | With support: enabled, latch cleared and no number, even after a signal. Registers hang-up, terminate and interrupt when no list is given, otherwise every element of the list, and keeps older registrations. Without support: latch, number, `enabled` and registrations unchanged. The logger gets the "enabled" or "NOT SUPPORTED" message accordingly |
| SignalHandler.Handler.PcntlSignalDispatch | src/Web2All/Signal/Handler.class.php:104-109 | When not enabled, nothing changes and nothing is logged. In either case the callback handles exactly the registered pending signals, in order (none when not enabled, since nothing is registered before a successful set-up). If there were none the latch is unchanged; otherwise it is set to the last of them. The logger gets one message per handled signal, in order |
| SignalHandler.Handler.PcntlSignalReceived | src/Web2All/Signal/Handler.class.php:116-119 | Returns the latch and changes nothing; under the invariant the latch is set exactly when a number is recorded |
| SignalHandler.Handler.GetSignalReceived | src/Web2All/Signal/Handler.class.php:126-129 | Returns the recorded number and changes nothing; under the invariant it is present exactly when the latch is set |
| SignalHandler.Handler.SetLogger | src/Web2All/Signal/Handler.class.php:138-141 | Replaces the logger with the given one (or none); latch, number, `enabled` and registrations unchanged; the invariant is kept |
| Signals.ExitSignals | src/Web2All/Signal/Handler.class.php:79-82 | The list set-up registers is the caller's list when given. Otherwise it is three distinct signals, hang-up, terminate and interrupt, with no repeats |
| Decimal.NatToString | src/Web2All/Signal/Handler.class.php:62 | A natural number's text is a non-empty string of digits with no leading zero |
| Decimal.IntToString | src/Web2All/Signal/Handler.class.php:62 | An integer's text is non-empty, starts with '-' exactly when the integer is negative, and is digits otherwise |
| Decimal.ParseNatToString | src/Web2All/Signal/Handler.class.php:62 | The value of a natural number's digit string is that number |
| Decimal.IntToStringRoundTrip | src/Web2All/Signal/Handler.class.php:62 | Parsing an integer's text gives back that integer |
| Decimal.IntToStringInjective | src/Web2All/Signal/Handler.class.php:62 | Different integers have different texts |
| Messages.HandlerMessage | src/Web2All/Signal/Handler.class.php:62 | The callback's debug text (the fixed prefix, the signal's decimal form, then " received") contains the signal number: reading it back gives that number |
| Messages.HandlerMessageInjective | src/Web2All/Signal/Handler.class.php:62 | Two callback messages are equal only for the same signal |
| Messages.HandlerMessagesInjective | src/Web2All/Signal/Handler.class.php:62 | The callback messages in a log determine which signals were handled and in what order |
| Messages.HandlerMessagesSnoc | src/Web2All/Signal/Handler.class.php:61-63 | Handling one more signal adds exactly its message at the end of the log |
| Messages.SetupMessagesAreNotSignalReports | src/Web2All/Signal/Handler.class.php:89-95 | Neither set-up message reads as a signal report, and the "enabled" and "NOT SUPPORTED" messages differ |
| Delivery.Deliverable | src/Web2All/Signal/Handler.class.php:104-109 | The signals handed to the callback are at most the pending ones. A signal is handed over exactly when it is pending and registered |
| Delivery.NothingRegistered | src/Web2All/Signal/Handler.class.php:104-109 | With no signal registered, no pending signal reaches the callback |
| Delivery.DeliverableSnoc | src/Web2All/Signal/Handler.class.php:104-109 | One more pending signal is handed over, after the earlier ones, exactly when it is registered |
| Delivery.LastDelivered | src/Web2All/Signal/Handler.class.php:104-109 | The last signal handed over is the last pending signal that is registered |
| Scenarios.SignalAfterSetup | src/Web2All/Signal/Handler.class.php:9-17 | In the documented loop, a signal from the set-up list (the default triad when none is given) shows up at the next dispatch: latch set, number equal to the signal |
| Scenarios.LastPendingWins | src/Web2All/Signal/Handler.class.php:59-109 | If several registered signals are pending at one dispatch, the number recorded is the last one's |
| Scenarios.SetupAgainClears | src/Web2All/Signal/Handler.class.php:76-97 | A second supported set-up after a signal clears the latch and the number, whatever list either set-up used |
| Scenarios.DispatchBeforeSetup | src/Web2All/Signal/Handler.class.php:104-109 | On a fresh handler, dispatching before any set-up leaves the latch clear, whatever is pending |
| Scenarios.UnsupportedNeverLatches | src/Web2All/Signal/Handler.class.php:92-109 | On a fresh handler whose only set-up lacked support, dispatching never sets the latch |
| Scenarios.UnregisteredSignalIgnored | src/Web2All/Signal/Handler.class.php:83-85 | On a fresh handler set up with any custom list that leaves out terminate, a pending terminate signal leaves the latch clear |
| Scenarios.LoggedInterrupt | src/Web2All/Signal/Handler.class.php:59-91 | With a logger, default set-up and one interrupt: latch set to the interrupt. The log is exactly the "enabled" message, then a message from which the interrupt's number reads back |

## Left out

- The runtime's real registration table is process-wide. The last registration for a signal wins, replacing any other handler's. The model keeps only this object's entries and assumes no other code registers signals.
- Which pending signals the runtime delivers, and whether it merges repeats, is the runtime's business. The caller of `PcntlSignalDispatch` supplies the pending sequence.
- A pending signal that is not registered has its default effect in a real process (terminate signals end it). The model only says it never reaches the callback.
- `pcntl_signal` returns false for a signal number it rejects. The source ignores that result; the model registers every number it is given.
- `PcntlSignalSetup` always completes. On PHP 8, `pcntl_signal` throws a ValueError for an out-of-range number. Set-up then stops with only the earlier signals registered, before `enabled` and the latch are reset (Handler.class.php:84-88). The model does not capture that exit.
- The model changes the latch only in `PcntlSignalDispatch` or a direct `PcntlSignalHandler` call. With `pcntl_async_signals(true)` or `declare(ticks=1)`, the runtime can run the callback between any two statements of the host program. The model does not capture that interleaving.
- The logger's own behaviour is not modelled. The `LoggerInterface` implementation is not part of this model; only what the logger was told is recorded.
- The `$signinfo` argument of `pcntlSignalHandler` is not modelled: the source never reads it.
- PHP's integers are 64-bit; the model's signal numbers are unbounded integers. Only the decimal text of a number matters to the model.
