/**
  The Scribe logging handler: `Emit` formats a record and tries to put it into a
  bounded channel without blocking; a send loop takes entries out in order,
  connects to the Scribe server when it holds no client (at most `MaxRetries`
  dials) and hands each entry to the client once.

  The channel is `queue` (its buffered entries, front first), `capacity` and
  `closed`. The network is an oracle: each dial's success is an entry of a
  `dials` sequence, each `Log` call's success a `sendOk` flag. One iteration of
  the send loop is `SendStep`; `SendLoop` runs iterations until the loop would
  block or end. The ghost history (`accepted`, `received`, `sent`, `origin`)
  records what entered the channel, how much the loop took out, and which
  entries reached `client.Log`.
*/
module Scribe {
  import opened Wrappers
  import Logging

  /** How many dials `connect` makes before it gives up. */
  const MaxRetries: nat := 3

  /** What goes over the wire: a category and the formatted message. */
  datatype LogEntry = LogEntry(category: string, message: Logging.Text)

  /**
    What `Emit` does to its caller: return nil, return the "Scribe buffer full"
    error, or panic because the channel was already closed.
  */
  datatype EmitOutcome = NoError | BufferFull | SendOnClosedChannel

  /** How one iteration of the send loop ends. */
  datatype StepOutcome =
    | Exited         // the channel is closed and drained: the `for range` ends
    | Waiting        // the channel is open and empty: the loop blocks
    | SkippedNil     // a nil entry was taken and ignored
    | Sent           // the entry was handed to the client, which succeeded
    | SendFailed     // the entry was handed to the client, which failed: the client is dropped
    | ConnectFailed  // no client and every dial failed: the entry is dropped

  /** The network's answers during one iteration: the dials' successes and the send's. */
  datatype Network = Network(dials: seq<bool>, sendOk: bool)

  /** `fmt.Sprintf("%s.%s", prefix, level)`. */
  function CategoryOf(prefix: string, level: string): (c: string)
    ensures |c| == |prefix| + 1 + |level|
    ensures c[..|prefix|] == prefix && c[|prefix|] == '.' && c[|prefix| + 1..] == level
  {
    prefix + "." + level
  }

  /** Under one prefix, the category determines the level. */
  lemma CategoryOfInjective(prefix: string, a: string, b: string)
    requires CategoryOf(prefix, a) == CategoryOf(prefix, b)
    ensures a == b
  {
  }

  /** Some dial among the first `MaxRetries` succeeds. */
  ghost predicate DialSucceeds(dials: seq<bool>)
  {
    exists i :: 0 <= i < MaxRetries && i < |dials| && dials[i]
  }

  /**
    The retry loop of `connect`: dials until one succeeds, at most `MaxRetries`
    times; `attempts` is how many dials were made.
  */
  method DialWithRetries(dials: seq<bool>) returns (ok: bool, attempts: nat)
    requires |dials| >= MaxRetries
    ensures 1 <= attempts <= MaxRetries
    ensures forall i :: 0 <= i < attempts - 1 ==> !dials[i]
    ensures ok == dials[attempts - 1]
    ensures !ok ==> attempts == MaxRetries
    ensures ok <==> DialSucceeds(dials)
  {
    ok, attempts := false, MaxRetries;
    var reconns := 0;
    while reconns < MaxRetries
      invariant 0 <= reconns <= MaxRetries
      invariant forall i :: 0 <= i < reconns ==> !dials[i]
    {
      if !dials[reconns] {
        if reconns >= MaxRetries - 1 {
          return false, reconns + 1;
        }
        // the source sleeps 100 ms here before dialling again
      } else {
        ok, attempts := true, reconns + 1;
        break;
      }
      reconns := reconns + 1;
    }
  }

  /** A live connection to the Scribe server. */
  class ScribeClient {
    constructor ()
    {
    }
  }

  /** Extending a prefix by one entry extends its present values by that entry's. */
  lemma PresentStep<T>(q: seq<Option<T>>, n: nat)
    requires n < |q|
    ensures Present(q[..n + 1]) == Present(q[..n]) + (if q[n].Some? then [q[n].value] else [])
  {
    assert q[..n + 1][..n] == q[..n];
  }

  /** Every iteration finds the server: the first dial and the send succeed. */
  ghost predicate Reachable(net: seq<Network>)
  {
    forall k :: 0 <= k < |net| ==> |net[k].dials| > 0 && net[k].dials[0] && net[k].sendOk
  }

  /** No iteration can connect. */
  ghost predicate Unreachable(net: seq<Network>)
  {
    forall k :: 0 <= k < |net| ==> !DialSucceeds(net[k].dials)
  }

  class ScribeLogger {
    /** The current client; null when disconnected. */
    var client: ScribeClient?
    const addr: string
    var enabled: bool
    const category: string
    /** The entries buffered in the channel, front first; a nil entry is `None`. */
    var queue: seq<Option<LogEntry>>
    /** The channel's buffer size. */
    const capacity: nat
    var closed: bool

    /** Every entry that ever entered the channel, in order. */
    ghost var accepted: seq<Option<LogEntry>>
    /** How many entries the send loop has taken out of the channel. */
    ghost var received: nat
    /** Every entry handed to `client.Log`, in order. */
    ghost var sent: seq<LogEntry>
    /** `origin[k]` is the position in `accepted` that `sent[k]` came from. */
    ghost var origin: seq<nat>

    /**
      The channel never holds more than its capacity; it holds exactly the accepted
      entries the loop has not taken yet; and the entries handed to the client are
      taken entries, each at most once, in the order they were accepted.
    */
    ghost predicate Valid()
      reads this
    {
      && |queue| <= capacity
      && received <= |accepted|
      && queue == accepted[received..]
      && |origin| == |sent|
      && (forall k :: 0 <= k < |sent| ==> origin[k] < received && accepted[origin[k]] == Some(sent[k]))
      && (forall j, k :: 0 <= j < k < |sent| ==> origin[j] < origin[k])
    }

    /** A logger with an empty channel of `bufferSize` entries, enabled and not connected. */
    constructor (addr: string, category: string, bufferSize: nat)
      requires bufferSize > 0
      ensures Valid()
      ensures client == null && enabled && !closed
      ensures this.addr == addr && this.category == category
      ensures queue == [] && capacity == bufferSize
      ensures accepted == [] && sent == []
    {
      this.addr := addr;
      this.category := category;
      client := null;
      enabled := true;
      queue := [];
      capacity := bufferSize;
      closed := false;
      accepted := [];
      received := 0;
      sent := [];
      origin := [];
    }

    /**
      Makes sure a client is held. With a client already, nothing happens; otherwise
      dials at most `MaxRetries` times and, on the first success, installs a new client
      and sets `enabled`. `ok` is "returned nil".
    */
    method Connect(dials: seq<bool>) returns (ok: bool, attempts: nat)
      requires Valid() && |dials| >= MaxRetries
      modifies this
      ensures Valid()
      ensures old(client) != null ==> ok && attempts == 0 && client == old(client) && enabled == old(enabled)
      ensures old(client) == null ==>
        1 <= attempts <= MaxRetries && (forall i :: 0 <= i < attempts - 1 ==> !dials[i]) &&
        (ok <==> DialSucceeds(dials)) && (ok ==> dials[attempts - 1])
      ensures old(client) == null && ok ==> fresh(client) && enabled
      ensures !ok ==> client == null && enabled == old(enabled)
      ensures queue == old(queue) && closed == old(closed)
      ensures accepted == old(accepted) && received == old(received) && sent == old(sent) && origin == old(origin)
    {
      if client != null {
        return true, 0;
      }
      ok, attempts := DialWithRetries(dials);
      if !ok {
        return;
      }
      client := new ScribeClient();
      enabled := true;
    }

    /** Disables `Emit` and closes the channel; closing it a second time panics. */
    method Stop() returns (panicked: bool)
      requires Valid()
      modifies this
      ensures Valid()
      ensures !enabled && closed
      ensures panicked == old(closed)
      ensures queue == old(queue) && client == old(client)
      ensures accepted == old(accepted) && received == old(received) && sent == old(sent) && origin == old(origin)
    {
      enabled := false;
      if closed {
        return true;
      }
      closed := true;
      return false;
    }

    /**
      Formats the record and offers it to the channel without blocking. Disabled, it
      does nothing and returns nil. Enabled, it appends the entry when there is room,
      reports a full buffer otherwise, and panics on a closed channel (which happens
      when a reconnect re-enabled the logger after `Stop`).
    */
    method Emit(level: string, file: string, line: int, message: string, args: seq<Logging.Arg>, format: string)
      returns (r: EmitOutcome)
      requires Valid()
      modifies this
      ensures Valid()
      ensures client == old(client) && enabled == old(enabled) && closed == old(closed)
      ensures received == old(received) && sent == old(sent) && origin == old(origin)
      ensures r == NoError <==> !enabled || (!closed && |old(queue)| < capacity)
      ensures r == BufferFull <==> enabled && !closed && |old(queue)| == capacity
      ensures r == SendOnClosedChannel <==> enabled && closed
      ensures
        if enabled && !closed && |old(queue)| < capacity then
          var e := Some(LogEntry(CategoryOf(category, level), Logging.FormatRecord(format, level, file, line, Logging.Literal(message), args)));
          queue == old(queue) + [e] && accepted == old(accepted) + [e]
        else
          queue == old(queue) && accepted == old(accepted)
    {
      if enabled {
        var str := Logging.FormatRecord(format, level, file, line, Logging.Literal(message), args);
        var cat := CategoryOf(category, level);
        if closed {
          return SendOnClosedChannel;
        }
        if |queue| < capacity {
          var e := Some(LogEntry(cat, str));
          assert (accepted + [e])[received..] == accepted[received..] + [e];
          queue := queue + [e];
          accepted := accepted + [e];
          return NoError;
        }
        return BufferFull;
      }
      return NoError;
    }

    /**
      One iteration of the send loop. It ends the loop on a closed, drained channel
      and waits on an open, empty one. Otherwise it takes the front entry: a nil one is
      skipped; without a client it connects, and if that fails the entry is dropped;
      with a client the entry is logged, and a failed send drops the client.
    */
    method SendStep(dials: seq<bool>, sendOk: bool) returns (o: StepOutcome)
      requires Valid() && |dials| >= MaxRetries
      modifies this
      ensures Valid()
      ensures closed == old(closed) && accepted == old(accepted)
      ensures o == Exited <==> old(queue) == [] && closed
      ensures o == Waiting <==> old(queue) == [] && !closed
      ensures old(queue) == [] ==>
        queue == old(queue) && received == old(received) && client == old(client) &&
        enabled == old(enabled) && sent == old(sent)
      ensures old(queue) != [] ==> queue == old(queue)[1..] && received == old(received) + 1
      ensures old(queue) != [] && old(queue)[0].None? ==>
        o == SkippedNil && client == old(client) && enabled == old(enabled) && sent == old(sent)
      ensures old(queue) != [] && old(queue)[0].Some? && old(client) == null && !DialSucceeds(dials) ==>
        o == ConnectFailed && client == null && enabled == old(enabled) && sent == old(sent)
      ensures old(queue) != [] && old(queue)[0].Some? && (old(client) != null || DialSucceeds(dials)) ==>
        sent == old(sent) + [old(queue)[0].value] &&
        (old(client) == null ==> enabled) &&
        (old(client) != null ==> enabled == old(enabled)) &&
        (sendOk ==> o == Sent && client != null && (old(client) != null ==> client == old(client))) &&
        (!sendOk ==> o == SendFailed && client == null)
    {
      if queue == [] {
        return if closed then Exited else Waiting;
      }
      var msg := queue[0];
      queue := queue[1..];
      received := received + 1;
      if msg.None? {
        return SkippedNil;
      }
      if client == null {
        var ok, _ := Connect(dials);
        if !ok {
          return ConnectFailed;
        }
      }
      sent := sent + [msg.value];
      origin := origin + [received - 1];
      if !sendOk {
        client := null;
        return SendFailed;
      }
      return Sent;
    }

    /**
      Runs send-loop iterations, one per element of `net`, until the loop would block
      or end. `steps` is how many entries it took out. When `steps < |net|` the loop
      stopped by itself and `last` says why (`Exited` or `Waiting`); otherwise the
      oracle ran out and `last` is the final iteration's outcome (`Waiting` when `net`
      is empty, whatever the channel). Given more iterations than buffered entries,
      the loop always drains the channel: with the server reachable throughout every
      buffered entry is delivered in order; with it unreachable throughout and no
      client, every entry is taken and dropped and nothing is delivered.
    */
    method SendLoop(net: seq<Network>) returns (steps: nat, last: StepOutcome)
      requires Valid()
      requires forall k :: 0 <= k < |net| ==> |net[k].dials| >= MaxRetries
      modifies this
      ensures Valid()
      ensures steps <= |net| && steps <= |old(queue)| && queue == old(queue)[steps..]
      ensures closed == old(closed) && accepted == old(accepted)
      ensures last == Exited ==> queue == [] && closed
      ensures steps < |net| ==> queue == [] && last == (if closed then Exited else Waiting)
      ensures |old(queue)| < |net| ==> steps == |old(queue)|
      ensures old(enabled) ==> enabled
      ensures Reachable(net) ==>
        sent == old(sent) + Present(old(queue)[..steps]) &&
        (Present(old(queue)[..steps]) != [] ==> client != null)
      ensures Reachable(net) && |old(queue)| < |net| ==> sent == old(sent) + Present(old(queue))
      ensures Reachable(net) && old(client) == null && Present(old(queue)[..steps]) != [] ==> enabled
      ensures Unreachable(net) && old(client) == null ==>
        sent == old(sent) && client == null && enabled == old(enabled)
    {
      steps := 0;
      last := Waiting;
      ghost var q0 := queue;
      while steps < |net|
        invariant Valid()
        invariant steps <= |net| && steps <= |q0| && queue == q0[steps..]
        invariant closed == old(closed) && accepted == old(accepted)
        invariant last == Exited ==> queue == [] && closed
        invariant old(enabled) ==> enabled
        invariant Reachable(net) ==>
          sent == old(sent) + Present(q0[..steps]) &&
          (Present(q0[..steps]) != [] ==> client != null)
        invariant Reachable(net) && old(client) == null ==>
          (Present(q0[..steps]) == [] ==> client == null) &&
          (Present(q0[..steps]) != [] ==> enabled)
        invariant Unreachable(net) && old(client) == null ==>
          sent == old(sent) && client == null && enabled == old(enabled)
      {
        ghost var before := queue;
        last := SendStep(net[steps].dials, net[steps].sendOk);
        if last == Exited || last == Waiting {
          break;
        }
        assert before[0] == q0[steps] && q0[steps + 1..] == before[1..];
        PresentStep(q0, steps);
        steps := steps + 1;
      }
      if steps == |q0| {
        assert q0[..steps] == q0;
      }
    }
  }

  /** Capacity 2 and the loop stalled: the third entry is refused; then the first two reach the server in order. */
  method BufferFullScenario(format: string)
  {
    var log := new ScribeLogger("scribe:1463", "app", 2);
    var r1 := log.Emit("INFO", "main.go", 1, "e1", [], format);
    ghost var e1 := LogEntry(CategoryOf("app", "INFO"), Logging.FormatRecord(format, "INFO", "main.go", 1, Logging.Literal("e1"), []));
    assert r1 == NoError && log.queue == [Some(e1)];
    var r2 := log.Emit("INFO", "main.go", 2, "e2", [], format);
    ghost var e2 := LogEntry(CategoryOf("app", "INFO"), Logging.FormatRecord(format, "INFO", "main.go", 2, Logging.Literal("e2"), []));
    assert r2 == NoError && log.queue == [Some(e1), Some(e2)];
    var r3 := log.Emit("INFO", "main.go", 3, "e3", [], format);
    assert r3 == BufferFull && log.queue == [Some(e1), Some(e2)];
    var up := Network([true, true, true], true);
    assert Reachable([up, up, up]);
    var steps, last := log.SendLoop([up, up, up]);
    assert Present([Some(e1), Some(e2)]) == [e1, e2] by {
      assert [Some(e1), Some(e2)][..1] == [Some(e1)];
      assert [Some(e1)][..0] == [];
    }
    assert log.sent == [e1, e2];
    assert last == Waiting;
  }

  /** An entry buffered before `Stop` is still delivered, and the reconnect that sends it sets `enabled` again. */
  method StopThenDrainScenario(format: string)
  {
    var log := new ScribeLogger("scribe:1463", "app", 4);
    var r1 := log.Emit("INFO", "main.go", 1, "e1", [], format);
    assert r1 == NoError && |log.queue| == 1 && log.queue[0].Some?;
    var p1 := log.Stop();
    assert !log.enabled;
    var up := Network([true, true, true], true);
    assert Reachable([up, up]);
    var steps, last := log.SendLoop([up, up]);
    assert steps == 1 && log.queue == [];
    assert log.enabled && last == Exited;
  }

  /**
    After `Stop`, `Emit` is ignored until a reconnect during the drain sets `enabled`
    again; the next `Emit` then sends on the closed channel and panics.
  */
  method StopThenReconnectScenario(format: string)
  {
    var log := new ScribeLogger("scribe:1463", "app", 4);
    var r1 := log.Emit("INFO", "main.go", 1, "e1", [], format);
    assert r1 == NoError && |log.queue| == 1;
    var p1 := log.Stop();
    assert !p1;
    var r2 := log.Emit("INFO", "main.go", 2, "e2", [], format);
    assert r2 == NoError && |log.queue| == 1;
    var dials := [true, true, true];
    assert DialSucceeds(dials) by {
      assert dials[0];
    }
    var o1 := log.SendStep(dials, true);
    assert o1 == Sent && log.enabled;
    var r3 := log.Emit("INFO", "main.go", 3, "e3", [], format);
    assert r3 == SendOnClosedChannel;
    var o2 := log.SendStep(dials, true);
    assert o2 == Exited;
    var p2 := log.Stop();
    assert p2;
  }
}
