/**
 * The receiver thread (`recv_data_thread`) as a state machine. One `Tick` is one
 * iteration of whichever of its two `while` loops the thread is in; the environment
 * supplies the clock reading, the outcome of a connection attempt and the outcome of a
 * `recv`. A received chunk arrives already split into lines, each decoded by
 * `json.loads` (`None` when it raises JSONDecodeError).
 */
module ReceiverThread {
  import opened Wrappers
  import opened JsonValues
  import opened TelemetryFields

  /** Where the receiver thread is. */
  datatype Phase =
    | OuterTop  // at the test of the outer loop, about to connect
    | InnerTop  // connected, at the test of the inner loop
    | Exited    // left the outer loop after a disconnect
    | Dead      // ended by an exception none of its handlers catches

  /** The part of the SDK object the receiver thread reads and writes. */
  datatype Receiver = Receiver(
    stayConnected: bool, hasSocket: bool, lastReceived: Option<real>,
    receivedData: Option<Json>, telemetry: Telemetry, phase: Phase)
  {
    /** `is_connected`: a socket exists and a timestamp is set. */
    predicate IsConnected() {
      hasSocket && lastReceived.Some?
    }
  }

  /** The state the constructor leaves, with the thread about to start. */
  const Start := Receiver(true, false, None, None, Initial, OuterTop)

  /** `disconnect`: only the flag changes; the thread notices at its next loop test. */
  function Disconnect(r: Receiver): Receiver {
    r.(stayConnected := false)
  }

  /** What `socket.create_connection` did. */
  datatype ConnectOutcome =
    | Connected
    | ConnectFailed  // socket.timeout, TimeoutError, ConnectionRefusedError, ConnectionResetError
    | ConnectError   // any other exception (an unknown host, say): nothing catches it

  /** What `recv` did. */
  datatype RecvOutcome =
    | Data(lines: seq<Option<Json>>, at: real)  // a non-empty chunk; `at` is `time.time()` while it is processed
    | Closed    // an empty chunk: the peer closed the connection
    | Broken    // BlockingIOError or ConnectionAbortedError, caught by the inner handler
    | TimedOut  // socket.timeout, caught only by the outer handler
    | Reset     // ConnectionResetError, caught only by the outer handler
    | RecvError // any other exception, a UTF-8 decoding error included: nothing catches it

  datatype Tick = Tick(now: real, connect: ConnectOutcome, recv: RecvOutcome)

  /** Seconds without data after which the thread drops the connection. */
  const StaleAfter: real := 2.5

  /** The staleness test at the top of the inner loop. */
  predicate IsStale(r: Receiver, now: real) {
    r.lastReceived.Some? && now - r.lastReceived.value > StaleAfter
  }

  /**
   * The `for d in data.splitlines()` loop: each line replaces `received_data`, is parsed
   * into the telemetry fields and stamps the time. A line that does not decode ends the
   * loop (the inner handler catches the error and the rest of the chunk is dropped); a
   * line whose parse raises ends the thread.
   */
  function ApplyChunk(r: Receiver, lines: seq<Option<Json>>, at: real, parseFloat: string -> Option<real>): Receiver
    decreases |lines|
  {
    if lines == [] then r
    else match lines[0]
      case None => r
      case Some(message) =>
        var r' := r.(receivedData := Some(message));
        match ParseMessage(r.telemetry, message, parseFloat)
        case Aborted(t) => r'.(telemetry := t, phase := Dead)
        case Parsed(t) => ApplyChunk(r'.(telemetry := t, lastReceived := Some(at)), lines[1..], at, parseFloat)
  }

  /** One iteration of the receiver thread's loops. */
  function Step(r: Receiver, tick: Tick, parseFloat: string -> Option<real>): Receiver {
    match r.phase
    case Exited => r
    case Dead => r
    case OuterTop =>
      if !r.stayConnected then r.(phase := Exited)
      else (
        match tick.connect
        case Connected => r.(hasSocket := true, phase := InnerTop)
        case ConnectFailed => r.(hasSocket := false)
        case ConnectError => r.(phase := Dead))
    case InnerTop =>
      if !r.stayConnected then r.(hasSocket := false, phase := OuterTop)
      else if IsStale(r, tick.now) then r.(lastReceived := None, hasSocket := false, phase := OuterTop)
      else (
        match tick.recv
        case Data(lines, at) => ApplyChunk(r, lines, at, parseFloat)
        case Closed => r
        case Broken => r.(hasSocket := false, phase := OuterTop)
        case TimedOut => r.(hasSocket := false, phase := OuterTop)
        case Reset => r.(hasSocket := false, phase := OuterTop)
        case RecvError => r.(phase := Dead))
  }

  /** A run of iterations. */
  function Run(r: Receiver, ticks: seq<Tick>, parseFloat: string -> Option<real>): Receiver
    decreases |ticks|
  {
    if ticks == [] then r else Run(Step(r, ticks[0], parseFloat), ticks[1..], parseFloat)
  }

  /** The socket slot matches the phase: empty outside the inner loop, set inside it. */
  predicate Consistent(r: Receiver) {
    && ((r.phase.OuterTop? || r.phase.Exited?) ==> !r.hasSocket)
    && (r.phase.InnerTop? ==> r.hasSocket)
  }

  /**
   * Processing a chunk touches only the received data, the telemetry and the timestamp,
   * and either stays in the inner loop or ends the thread.
   */
  lemma {:induction false} ApplyChunkFrame(r: Receiver, lines: seq<Option<Json>>, at: real,
                                           parseFloat: string -> Option<real>)
    ensures var r' := ApplyChunk(r, lines, at, parseFloat);
      && r'.stayConnected == r.stayConnected && r'.hasSocket == r.hasSocket
      && (r'.phase == r.phase || r'.phase == Dead)
      && (r'.lastReceived == r.lastReceived || r'.lastReceived == Some(at))
    decreases |lines|
  {
    if lines != [] && lines[0].Some? {
      var r1 := r.(receivedData := lines[0]);
      match ParseMessage(r.telemetry, lines[0].value, parseFloat)
      case Aborted(t) =>
      case Parsed(t) =>
        ApplyChunkFrame(r1.(telemetry := t, lastReceived := Some(at)), lines[1..], at, parseFloat);
    }
  }

  /** Every iteration keeps the socket slot consistent with the phase. */
  lemma StepConsistent(r: Receiver, tick: Tick, parseFloat: string -> Option<real>)
    requires Consistent(r)
    ensures Consistent(Step(r, tick, parseFloat))
  {
    if r.phase.InnerTop? && r.stayConnected && !IsStale(r, tick.now) && tick.recv.Data? {
      ApplyChunkFrame(r, tick.recv.lines, tick.recv.at, parseFloat);
    }
  }

  /** `is_connected` can hold only while the thread is in its inner loop, or has died there. */
  lemma ConnectedOnlyInsideInnerLoop(r: Receiver)
    requires Consistent(r) && r.IsConnected()
    ensures r.phase.InnerTop? || r.phase.Dead?
  {
  }

  /**
   * A chunk is processed in order up to its first line that does not decode; that line
   * and everything after it are dropped, and the lines before it keep their effect.
   */
  lemma {:induction false} MalformedLineDropsRest(r: Receiver, before: seq<Option<Json>>, after: seq<Option<Json>>,
                                                  at: real, parseFloat: string -> Option<real>)
    ensures ApplyChunk(r, before + [None] + after, at, parseFloat) == ApplyChunk(r, before, at, parseFloat)
    decreases |before|
  {
    if before == [] {
      assert (before + [None] + after)[0] == None;
    } else {
      var lines := before + [None] + after;
      assert lines[0] == before[0];
      assert lines[1..] == before[1..] + [None] + after;
      if before[0].Some? {
        var r1 := r.(receivedData := before[0]);
        match ParseMessage(r.telemetry, before[0].value, parseFloat)
        case Aborted(t) =>
        case Parsed(t) =>
          MalformedLineDropsRest(r1.(telemetry := t, lastReceived := Some(at)), before[1..], after, at, parseFloat);
      }
    }
  }

  /** Every line decodes and parses. */
  predicate AllAccepted(lines: seq<Option<Json>>, parseFloat: string -> Option<real>) {
    forall i :: 0 <= i < |lines| ==> lines[i].Some? && Accepted(lines[i].value, parseFloat)
  }

  /**
   * A chunk of N good lines applies all N records in order; since each record replaces
   * the whole telemetry, the state afterwards is the one the last line alone produces,
   * stamped with the chunk's time, and the thread stays in its inner loop.
   */
  lemma {:induction false} GoodChunkEndsWithLastLine(r: Receiver, lines: seq<Option<Json>>, at: real,
                                                     parseFloat: string -> Option<real>)
    requires AllAccepted(lines, parseFloat) && lines != []
    ensures ApplyChunk(r, lines, at, parseFloat) == ApplyChunk(r, [lines[|lines| - 1]], at, parseFloat)
    ensures var r' := ApplyChunk(r, lines, at, parseFloat);
      && r'.phase == r.phase && r'.lastReceived == Some(at) && r'.receivedData == lines[|lines| - 1]
      && r'.telemetry == ParseMessage(r.telemetry, lines[|lines| - 1].value, parseFloat).t
    decreases |lines|
  {
    var first := lines[0].value;
    FullReplacement(r.telemetry, Initial, first, parseFloat);
    var r1 := r.(receivedData := lines[0], telemetry := ParseMessage(r.telemetry, first, parseFloat).t,
                 lastReceived := Some(at));
    if |lines| > 1 {
      assert AllAccepted(lines[1..], parseFloat) by {
        forall i | 0 <= i < |lines[1..]| ensures lines[1..][i].Some? && Accepted(lines[1..][i].value, parseFloat) {
          assert lines[1..][i] == lines[i + 1];
        }
      }
      GoodChunkEndsWithLastLine(r1, lines[1..], at, parseFloat);
      var last := lines[|lines| - 1].value;
      FullReplacement(r.telemetry, r1.telemetry, last, parseFloat);
      assert lines[1..][|lines[1..]| - 1] == lines[|lines| - 1];
    }
  }

  /** The timestamp is set by a chunk exactly when its first line decodes and parses. */
  lemma ChunkStamps(r: Receiver, lines: seq<Option<Json>>, at: real, parseFloat: string -> Option<real>)
    requires r.lastReceived != Some(at)
    ensures ApplyChunk(r, lines, at, parseFloat).lastReceived == Some(at) <==>
            lines != [] && lines[0].Some? && Accepted(lines[0].value, parseFloat)
  {
    if lines != [] && lines[0].Some? {
      FullReplacement(r.telemetry, Initial, lines[0].value, parseFloat);
      if Accepted(lines[0].value, parseFloat) {
        var r1 := r.(receivedData := lines[0], telemetry := ParseMessage(r.telemetry, lines[0].value, parseFloat).t,
                     lastReceived := Some(at));
        ApplyChunkFrame(r1, lines[1..], at, parseFloat);
      }
    }
  }

  /**
   * Staleness: once data has arrived and more than 2.5 s have passed, the next inner-loop
   * iteration clears the timestamp and leaves the inner loop, and the socket slot is
   * emptied, so `is_connected` turns false whatever `recv` would have done.
   */
  lemma StaleDisconnects(r: Receiver, tick: Tick, parseFloat: string -> Option<real>)
    requires r.phase.InnerTop? && r.stayConnected && IsStale(r, tick.now)
    ensures var r' := Step(r, tick, parseFloat);
      && r'.lastReceived.None? && !r'.hasSocket && r'.phase.OuterTop? && !r'.IsConnected()
      && r'.telemetry == r.telemetry && r'.receivedData == r.receivedData
  {
  }

  /**
   * A `recv` timeout or reset escapes the inner handler but the outer handler catches it:
   * it drops the connection exactly as a broken socket does, keeping the timestamp.
   */
  lemma RecvFailuresReconnect(r: Receiver, tick: Tick, parseFloat: string -> Option<real>)
    requires r.phase.InnerTop? && r.stayConnected && !IsStale(r, tick.now)
    requires tick.recv.Broken? || tick.recv.TimedOut? || tick.recv.Reset?
    ensures Step(r, tick, parseFloat) == r.(hasSocket := false, phase := OuterTop)
  {
  }

  /**
   * The timestamp outlives a broken connection: after a reconnect, `is_connected` holds
   * again before any data has come over the new socket.
   */
  lemma ReconnectKeepsStaleTimestamp(r: Receiver, t1: Tick, t2: Tick, parseFloat: string -> Option<real>)
    requires r.phase.InnerTop? && r.stayConnected && r.IsConnected() && !IsStale(r, t1.now)
    requires t1.recv.Broken? || t1.recv.TimedOut? || t1.recv.Reset?
    requires t2.connect.Connected?
    ensures !Step(r, t1, parseFloat).IsConnected()
    ensures var r2 := Run(r, [t1, t2], parseFloat);
      r2.IsConnected() && r2.lastReceived == r.lastReceived && r2.phase.InnerTop?
  {
    var r1 := Step(r, t1, parseFloat);
    assert [t1, t2][1..] == [t2];
    assert Run(r, [t1, t2], parseFloat) == Run(r1, [t2], parseFloat);
    assert Run(r1, [t2], parseFloat) == Step(r1, t2, parseFloat);
  }

  /** A thread that has exited or died stays so, and nothing it owns changes any more. */
  lemma {:induction false} FinalPhasesStay(r: Receiver, ticks: seq<Tick>, parseFloat: string -> Option<real>)
    requires r.phase.Exited? || r.phase.Dead?
    ensures Run(r, ticks, parseFloat) == r
    decreases |ticks|
  {
    if ticks != [] {
      FinalPhasesStay(Step(r, ticks[0], parseFloat), ticks[1..], parseFloat);
    }
  }

  /**
   * A message without a dict under "data" ends the thread with the socket slot still
   * set: if `is_connected` held, it holds for good, however much time passes.
   */
  lemma BadMessageFreezesConnection(r: Receiver, message: Json, at: real, ticks: seq<Tick>,
                                    parseFloat: string -> Option<real>)
    requires r.phase.InnerTop? && r.IsConnected() && DataObject(message).None?
    ensures var r' := Run(ApplyChunk(r, [Some(message)], at, parseFloat), ticks, parseFloat);
      r'.phase.Dead? && r'.IsConnected() && r'.receivedData == Some(message)
  {
    FinalPhasesStay(ApplyChunk(r, [Some(message)], at, parseFloat), ticks, parseFloat);
  }

  /**
   * After `disconnect`, a live thread has exited within two iterations, with the socket
   * slot empty, so `is_connected` is false from then on.
   */
  lemma DisconnectEndsThread(r: Receiver, ticks: seq<Tick>, parseFloat: string -> Option<real>)
    requires Consistent(r) && (r.phase.OuterTop? || r.phase.InnerTop?)
    requires |ticks| >= 2
    ensures var r' := Run(Disconnect(r), ticks, parseFloat);
      r'.phase.Exited? && !r'.hasSocket && !r'.IsConnected()
  {
    var r0 := Disconnect(r);
    var r1 := Step(r0, ticks[0], parseFloat);
    var r2 := Step(r1, ticks[1], parseFloat);
    assert r2.phase.Exited? && !r2.hasSocket;
    assert Run(r0, ticks, parseFloat) == Run(r2, ticks[2..], parseFloat) by {
      assert Run(r0, ticks, parseFloat) == Run(r1, ticks[1..], parseFloat);
      assert ticks[1..][0] == ticks[1] && ticks[1..][1..] == ticks[2..];
    }
    FinalPhasesStay(r2, ticks[2..], parseFloat);
  }

  /**
   * A peer that closes before sending anything leaves the thread spinning in its inner
   * loop: with no timestamp the staleness test never fires, so empty chunks change
   * nothing and the connection is never retried.
   */
  lemma {:induction false} ClosedBeforeDataSpins(r: Receiver, ticks: seq<Tick>, parseFloat: string -> Option<real>)
    requires r.phase.InnerTop? && r.stayConnected && r.lastReceived.None?
    requires forall i :: 0 <= i < |ticks| ==> ticks[i].recv.Closed?
    ensures Run(r, ticks, parseFloat) == r
    decreases |ticks|
  {
    if ticks != [] {
      assert ticks[0].recv.Closed?;
      ClosedBeforeDataSpins(r, ticks[1..], parseFloat);
    }
  }
}
