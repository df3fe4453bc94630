# go-pylog in Dafny

A model of go-pylog's two core pieces:

- **`logging`**: Python-style leveled logging over Go's `log` package.
  The active levels are a bit mask. `SetMinimalLevel` turns a minimal
  severity into a mask, and `SetMinimalLevelByName` does the same from a
  case-insensitive, space-padded name. `Debug`, `Info`, `Warning`, `Error`
  and `Critical` (and the `…f` variants that also return an error) pass a
  record to `writeMessage` only when their bit is set. `writeMessage`
  evaluates lazy (thunk) arguments in place, then hands the record to the
  current handler. If a custom handler fails, it falls back to the
  standard log.
- **`logging/scribe`**: a handler that ships records to a Scribe server.
  `Emit` formats a record and tries a non-blocking send into a bounded
  channel. A send loop drains that channel in order. When it holds no
  client it reconnects, with at most three dials. A failed send drops
  the client.

Files:

- `wrappers.dfy`: `Option` and `Present` (the values of the `Some`
  entries).
- `logging.dfy` (module `Logging`): the level constants, `levels_ascending`
  and the name table; the mask computation and its lemmas; name
  normalisation; symbolic messages; and the package globals as class
  `Logger`.
- `scribe.dfy` (module `Scribe`): the retry loop, the class
  `ScribeLogger` with its channel, and one send-loop iteration
  (`SendStep`) plus a driver that runs it (`SendLoop`).

Modelling choices:

- **Integers.** Go's `int` is a 64-bit word (`bv64`). `level >= l` in
  `SetMinimalLevel` is a signed comparison: `AtLeast` compares the words
  with the sign bit flipped.
- **Formatting.** `fmt.Sprintf` is left uninterpreted. A message is a
  `Text`: a literal, or a `Sprintf` of a format and its arguments.
  Arguments are strings, numbers, opaque values, slices, or thunks that
  carry the value they return.
- **Globals.** The package globals (`level`, `formatString`,
  `currentHandler`) are the fields of `Logging.Logger`. What the `log`
  package prints goes to `output`, and what a custom handler receives goes
  to `handled`.
- **Parameters for what cannot be seen.** `runtime.Caller` becomes a
  `Site` parameter, and a custom handler's returned error becomes the
  `handlerErr` parameter.
- **Network oracles.** Each `net.Dial` answer is an entry of the `dials`
  sequence. The answer of `client.Log` is `sendOk`.
- **The channel.** It is the sequence `queue`, its `capacity` and a
  `closed` flag. Ghost fields record:
  - every accepted entry (`accepted`);
  - how many entries the loop has taken (`received`);
  - what reached `client.Log` (`sent`);
  - where each sent entry came from (`origin`).

  `ScribeLogger.Valid` ties them together:
  - the queue never exceeds the capacity;
  - the queue is the untaken suffix of `accepted`;
  - `sent` is an order-preserving, at-most-once subsequence of the taken
    entries.

Where the code does something its comments or the obvious design do not
say, the model follows the code:

- A disabled `Emit` returns nil; nothing reports "closed".
- `connect` sets `enabled` back to true on success. A reconnect during the
  drain after `Stop` therefore re-enables `Emit`, and the next `Emit` sends
  on the closed channel, which panics in Go (`SendOnClosedChannel`).
  `StopThenReconnectScenario` walks through this, and
  `StopThenDrainScenario` shows `SendLoop` re-enabling the logger.
- Calling `Stop` twice closes the channel twice, which panics.
- `Warningf`, `Errorf` and `Criticalf` call `fmt.Errorf(msg, args)` with
  the argument slice NOT spread, so the error is formatted with one slice
  argument (`Logger.ErrorOf`).
- `Critical` writes a stack dump after the record whatever the handler
  does.
- `SetMinimalLevel` compares the composite masks of the name table like
  any other number. `SetMinimalLevelByName("ALL")`, `"NORMAL"` and
  `"QUIET"` therefore store mask 0, which silences every level, and
  `"NOTHING"` stores 31, which enables them all (`NamedMinimalMasks`).
  The doc comment names only DEBUG to CRITICAL.

## Model

| member | source | states |
|---|---|---|
| Logging.AccumulateAtLeast | logging/logging.go:84-96 | the loop's mask is the OR of the levels in the order that are at least `l` (signed comparison) |
| Logging.MinimalMaskClosedForm | logging/logging.go:48 | over `levels_ascending` the mask is the OR of the five gated severities |
| Logging.MinimalMaskGates | logging/logging.go:86-94 | severity j is in `SetMinimalLevel(l)`'s mask iff it is at least l |
| Logging.MinimalMaskOfSeverity | logging/logging.go:81-96 | for l the k-th severity, the mask holds exactly the severities from k on: l and every more severe level, nothing less severe |
| Logging.MinimalMaskBounds | logging/logging.go:42-48 | the mask is always a subset of DEBUG\|INFO\|WARNING\|ERROR\|CRITICAL, so at most 31 |
| Logging.AtLeastTransitive | logging/logging.go:88 | the signed order `level >= l` on 64-bit words is transitive |
| Logging.GateAntitone | logging/logging.go:86-94 | a severity enabled by a higher minimal level is enabled by every lower one |
| Logging.MinimalMaskAntitone | logging/logging.go:86-94 | a larger minimal level gives a sub-mask |
| Logging.MinimalMaskEdges | logging/logging.go:42-48 | QUIET, NORMAL and ALL (all above CRITICAL) give 0; NOTHING, or anything at most DEBUG, gives 31; anything above CRITICAL gives 0 |
| Logging.NamedMinimalMasks | logging/logging.go:50-61 | looked up by name, ALL, NORMAL and QUIET give the minimal mask 0 and NOTHING gives 31 |
| Logging.EnabledAlgebra | logging/logging.go:66-79 | the gate `level&X != 0` of a severity X is open under `a \| b` iff it is open under a or under b, and under `a &^ b` iff it is open under a and not under b |
| Logging.LeadingSpaces | logging/logging.go:102 | the count covers only spaces and stops at the first non-space |
| Logging.TrailingSpaces | logging/logging.go:102 | the count covers only spaces and stops at the last non-space |
| Logging.TrimLeft | logging/logging.go:102 | the result is a suffix of the input, only spaces were cut, and it does not start with a space |
| Logging.TrimRight | logging/logging.go:102 | the result is a prefix of the input, only spaces were cut, and it does not end with a space |
| Logging.Trim | logging/logging.go:102 | the result is an infix that neither starts nor ends with a space, with only spaces on either side |
| Logging.ToUpper | logging/logging.go:102 | the length is kept and every character is upper-cased on its own |
| Logging.TrimLeftPadded | logging/logging.go:102 | trimming spaces in front of a word that does not start with a space gives the word |
| Logging.TrimRightPadded | logging/logging.go:102 | trimming spaces after a word that does not end with a space gives the word |
| Logging.UpperCharSpace | logging/logging.go:102 | upper-casing makes a space only out of a space |
| Logging.TrimUnpadded | logging/logging.go:102 | a string with no space at either end is its own trim |
| Logging.ToUpperIdempotent | logging/logging.go:102 | upper-casing twice is upper-casing once |
| Logging.NormalizeLevelName | logging/logging.go:102 | the lookup key is no longer than the input and has no space at either end |
| Logging.NormalizeLevelNameIdempotent | logging/logging.go:102-103 | a normalised name normalises to itself |
| Logging.LevelNameShape | logging/logging.go:50-61 | every level name is non-empty and has no space at either end |
| Logging.NormalizePaddedVariant | logging/logging.go:98-110 | any space-padded, differently-cased spelling of a level name normalises to that name |
| Logging.Evaluated | logging/logging.go:176-183 | the evaluated arguments keep length and order; each thunk becomes its result, every other argument stays |
| Logging.EvaluatedWithoutThunks | logging/logging.go:176-183 | arguments without thunks come back unchanged |
| Logging.EvaluatedLeavesNoThunk | logging/logging.go:176-183 | when no thunk returns a thunk, no thunk is left |
| Logging.StandardDelivery | logging/logging.go:141-144 | the standard handler prints exactly one line and calls no custom handler |
| Logging.Deliver | logging/logging.go:184-188 | a custom handler receives exactly one emission with the record's fields; the standard handler, or a failed custom one, makes the log print the formatted record; a successful custom handler makes the log print nothing |
| Logging.OpenCountAppend | logging/logging_test.go:31-38 | the number of open gates over two runs of logging calls is the sum of the two counts |
| Logging.OpenCountTested | logging/logging_test.go:31-38 | the open-gate count over DEBUG, INFO, WARNING and ERROR is the sum of their single gates |
| Logging.TestedLevelCounts | logging/logging_test.go:46-73 | mask 0 opens no gate, ALL opens the four tested ones, and each single tested level opens exactly one |
| Logging.Logger.constructor | logging/logging.go:63-64 | the initial mask is ALL, the format is `%[1]s @ %[2]s:%[3]d: %[4]s`, the handler is the standard one, nothing is logged yet |
| Logging.Logger.SetLevel | logging/logging.go:77-79 | the mask is stored exactly; nothing else changes |
| Logging.Logger.SetMinimalLevel | logging/logging.go:84-96 | the mask becomes the minimal-level mask of l; nothing else changes |
| Logging.Logger.SetMinimalLevelByName | logging/logging.go:101-111 | a name that normalises to a known one sets that name's minimal-level mask and logs nothing; an unknown one leaves the mask alone, logs the "not found" message through the ERROR gate, and returns "Invalid level" with the normalised name |
| Logging.Logger.SetFormatString | logging/logging.go:130-136 | `GetFormatString` afterwards returns the format given; nothing else changes |
| Logging.Logger.SetHandler | logging/logging.go:149-151 | the handler is replaced; nothing else changes |
| Logging.Logger.WriteMessage | logging/logging.go:170-190 | the argument array is replaced by its evaluation in place; the output and handler history grow by exactly the delivery of the record; the configuration is kept |
| Logging.Logger.Debug | logging/logging.go:163-167 | the record reaches `writeMessage` iff the DEBUG bit is set; otherwise nothing changes |
| Logging.Logger.Info | logging/logging.go:193-200 | the record reaches `writeMessage` iff the INFO bit is set; otherwise nothing changes |
| Logging.Logger.Warning | logging/logging.go:203-207 | the record reaches `writeMessage` iff the WARN bit is set; otherwise nothing changes |
| Logging.Logger.Error | logging/logging.go:220-224 | the record reaches `writeMessage` iff the ERROR bit is set; otherwise nothing changes |
| Logging.Logger.Critical | logging/logging.go:236-241 | iff the CRITICAL bit is set, the record is delivered and a stack dump follows it |
| Logging.Logger.Warningf | logging/logging.go:210-217 | always returns the formatted error; iff the WARN bit is set its text is logged at WARNING level |
| Logging.Logger.Errorf | logging/logging.go:227-233 | always returns the formatted error; iff the ERROR bit is set its text is logged at ERROR level |
| Logging.Logger.ErrorOf | logging/logging.go:211 | the error is `msg` formatted with exactly one argument, the slice of all the caller's arguments; as a term it is never the spread formatting `Sprintf(msg, args)`, whatever the number of arguments (with one argument `x`, Go prints `[x]`, not `x`) |
| Logging.Logger.Criticalf | logging/logging.go:244-252 | always returns the formatted error; iff the CRITICAL bit is set its text is logged and a stack dump follows |
| Logging.Logger.LogAllLevels | logging/logging_test.go:31-38 | with the standard handler, logging at the four tested levels writes exactly as many lines as the mask opens gates among them |
| Scribe.CategoryOf | logging/scribe/scribe.go:128 | the category is the prefix, a dot, then the level |
| Scribe.CategoryOfInjective | logging/scribe/scribe.go:128 | under one prefix, different levels give different categories |
| Scribe.DialWithRetries | logging/scribe/scribe.go:31-43 | at most 3 dials, stopping at the first success; every earlier dial failed; it fails only after 3 failed dials; it succeeds iff one of the first 3 dials does |
| Scribe.ScribeLogger.constructor | logging/scribe/scribe.go:59-67 | disconnected, enabled, open, empty queue of capacity `bufferSize` |
| Scribe.ScribeLogger.Connect | logging/scribe/scribe.go:23-50 | with a client, returns nil without dialing; otherwise it succeeds iff a dial among the first 3 does, and then holds a fresh client and is enabled; on failure it has no client and `enabled` is unchanged; the channel is untouched |
| Scribe.ScribeLogger.Stop | logging/scribe/scribe.go:117-120 | disabled and closed afterwards; second call panics; the queue and client are untouched |
| Scribe.ScribeLogger.Emit | logging/scribe/scribe.go:123-146 | disabled: nil and nothing changes; enabled with room: nil and exactly one entry `category.level` with the formatted record is appended; full: the buffer-full error and nothing changes; closed: panic; the queue bound is kept |
| Scribe.ScribeLogger.SendStep | logging/scribe/scribe.go:88-110 | a closed, empty channel ends the loop and an open empty one waits; otherwise the front entry is taken exactly once; nil is skipped; no client and a failed connect drops the entry and stays disconnected; otherwise the entry is handed to the client, a failed send drops the client and a successful one keeps it |
| Scribe.ScribeLogger.SendLoop | logging/scribe/scribe.go:88-113 | the loop takes entries only from the front, one per iteration, and stops by itself only on an empty channel, ending iff it is closed; given more iterations than buffered entries it always drains the channel; with the server reachable every buffered entry is delivered in order, and a delivery that had to connect first sets `enabled` again, as the reconnect does; with it unreachable and no client every entry is dropped, nothing is delivered, and `enabled` is unchanged; a set `enabled` stays set |

## Left out

- Goroutines are not modelled: `go ret.sendLoop()` and the `recover`
  restart wrapper (logging/scribe/scribe.go:69, 79-86) are concurrency
  and panic machinery. `SendStep` is one loop iteration and `SendLoop`
  runs iterations in sequence, so interleavings of `Emit` with the loop
  are not covered.
- The channel's blocking behaviour is not modelled. A blocked loop is the
  `Waiting` outcome, and the non-blocking `select` is a length check. The
  constructor requires `bufferSize > 0`: an unbuffered channel (size 0,
  where every non-blocking send fails unless the loop is waiting) and
  the panic on a negative size are out of scope.
- The `l.channel == nil` branch of `Emit` (logging/scribe/scribe.go:140-141)
  cannot be taken, because the constructor always makes a channel and
  nothing resets it. The model has no such state.
- `net.Dial`, the thrift client construction and the `client.Log` RPC are
  foreign network calls. They become the `dials` and `sendOk` oracles,
  and a client is an opaque `ScribeClient` object.
- `time.Sleep` is timing only, and all `log.Printf`/`log.Println` logging
  inside the Scribe handler is I/O; neither is modelled.
- `fmt.Sprintf`/`fmt.Errorf` formatting, `%[n]` indexing and the text of
  errors are left symbolic (`Text`). So is the stack dump's content
  (`StackTrace`).
- `Text` is a free term: records that Go would format to the same string
  stay distinct in the model. For example, under the default format the
  level "A @ x" with file "y" and the level "A" with file "x @ y" print
  the same line.
- `fmt.Println(level, newLevel)` inside `SetMinimalLevel`'s loop is
  debugging output to stdout and is not modelled.
- `runtime.Caller`/`path.Base` in `getContext` are runtime
  introspection. They become the `Site` parameter.
- A custom handler's behaviour is opaque: its error is the `handlerErr`
  parameter. The Scribe handler is not plugged into `Logger`.
- Scribe.ScribeLogger.Emit: the format string is a parameter standing for
  `logging.GetFormatString()`; nothing ties it to `Logger.formatString`,
  because the two modules share no state here.
- `SetOutput` and `Panic` are I/O and panics.
- Running a thunk has no side effects here: a thunk carries the value it
  returns.
- Logging.ToUpper: only ASCII letters and the two non-ASCII characters
  that Go upper-cases to ASCII (U+0131 to `I`, U+017F to `S`) are mapped.
  Those are all the characters that can decide a table lookup. Other
  characters are kept, so the name shown in the "Invalid level" error can
  differ from Go's for non-ASCII input.
- Go's `int` is taken as 64 bits (`Word`); 32-bit platforms are not
  modelled.
- The test types `TestWriter`/`TestHandler` are not modelled. The counts
  from `Test_Logging` are `TestedLevelCounts`, `LogAllLevels` and
  `LevelScenario`.
