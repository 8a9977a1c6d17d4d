/**
 * The server side: the relay from the engine's standard output to the
 * connection (`proc2conn`, which masks the engine's version), the relay from
 * the connection to the engine's standard input (`conn2proc`, which drops
 * keepalive pings), and the coordinator `conn` that watches both.
 */
module Server {
  import opened Common
  import opened Io
  import opened Relay
  import opened Supervise
  import VersionMask

  /* ---------------- conn2proc ---------------- */

  /** A pass on which `select` found the connection readable and `recv` returned zero bytes. */
  predicate ReadyHangup(io: Readiness<Chunk>)
  {
    io.Ready? && Hangup(io.read)
  }

  /** One pass of `conn2proc`. */
  function Conn2ProcPass(io: Readiness<Chunk>, ping: string): (r: Action<PipeOp>)
    ensures r.Stop? && r.why == PeerClosed <==> ReadyHangup(io)
    ensures r.emit != [] ==>
      io.Ready? && io.read.Received? && io.read.data != ping && r.emit[0] == PipeOp.Write(io.read.data)
    ensures io.TimedOut? ==> r == Continue([])
  {
    match io
    case TimedOut => Continue([])
    case Ready(Broken) => Stop([], Failed)
    case Ready(Received(data, sink)) =>
      if data == "" then Stop([], PeerClosed)
      else if data == ping then Continue([])
      else Deliver(data, sink)
  }

  /** The whole `conn2proc` loop over its passes: what reaches the engine, and why the loop ended. */
  function Conn2ProcRun(steps: seq<Iteration<Readiness<Chunk>>>, ping: string): Run<PipeOp>
  {
    Drive(steps, io => Conn2ProcPass(io, ping))
  }

  /**
   * The body of `conn2proc`'s `try`: a chunk other than an empty one or the
   * ping is written and flushed. Returns why the loop breaks out, if it does.
   */
  method Conn2ProcTry(io: Readiness<Chunk>, ping: string, stdin: Pipe) returns (brk: Option<Break>)
    modifies stdin
    ensures stdin.ops == old(stdin.ops) + Conn2ProcPass(io, ping).emit
    ensures brk == if Conn2ProcPass(io, ping).Stop? then Some(Conn2ProcPass(io, ping).why) else None
  {
    match io {
      case TimedOut =>
        return None;
      case Ready(Broken) =>
        return Some(Failed);
      case Ready(Received(data, sink)) =>
        if data == "" {
          return Some(PeerClosed);
        }
        if data == ping {
          return None;
        }
        var ok := stdin.Write(data, sink == WriteFails);
        if !ok {
          return Some(Failed);
        }
        ok := stdin.Flush(sink == FlushFails);
        if !ok {
          return Some(Failed);
        }
        return None;
    }
  }

  /** The relay from the connection to the engine's standard input. */
  method Conn2Proc(steps: seq<Iteration<Readiness<Chunk>>>, ping: string, stdin: Pipe) returns (exit: Exit)
    modifies stdin
    ensures stdin.ops == old(stdin.ops) + Conn2ProcRun(steps, ping).out
    ensures exit == Conn2ProcRun(steps, ping).exit
  {
    var k := 0;
    while k < |steps|
      invariant k <= |steps|
      invariant stdin.ops + Conn2ProcRun(steps[k..], ping).out == old(stdin.ops) + Conn2ProcRun(steps, ping).out
      invariant Conn2ProcRun(steps[k..], ping).exit == Conn2ProcRun(steps, ping).exit
    {
      Conn2ProcStep(steps[k..], ping);
      assert steps[k..][0] == steps[k];
      if !Running(steps[k].doRun) {
        return Cancelled;
      }
      ghost var before := stdin.ops;
      var brk := Conn2ProcTry(steps[k].io, ping, stdin);
      if brk.Some? {
        return Ended(brk.value);
      }
      DriveAdvance(before, old(stdin.ops) + Conn2ProcRun(steps, ping).out, steps, k, io => Conn2ProcPass(io, ping));
      k := k + 1;
    }
    assert steps[k..] == [];
    exit := Pending;
  }

  /** The passes on which `select` found the connection readable, each with the read that followed. */
  function Reads(steps: seq<Iteration<Readiness<Chunk>>>): (r: seq<Iteration<Chunk>>)
    ensures |r| <= |steps|
  {
    if steps == [] then []
    else if steps[0].io.Ready? then [Iteration(steps[0].doRun, steps[0].io.read)] + Reads(steps[1..])
    else Reads(steps[1..])
  }

  /** What one pass adds to the chunks the connection delivers: a timed-out `select` adds nothing. */
  lemma ArrivedStep(steps: seq<Iteration<Readiness<Chunk>>>)
    requires steps != []
    ensures Arrived(Reads(steps)) ==
      if ReadyHangup(steps[0].io) then []
      else if steps[0].io.Ready? && steps[0].io.read.Received? then [steps[0].io.read.data] + Arrived(Reads(steps[1..]))
      else Arrived(Reads(steps[1..]))
  {
    if steps[0].io.Ready? {
      assert Reads(steps)[0].io == steps[0].io.read;
      assert Reads(steps)[1..] == Reads(steps[1..]);
    }
  }

  /** The chunks other than an exact ping, in order. */
  function Forwarded(ds: seq<string>, ping: string): (r: seq<string>)
    ensures forall d :: d in r <==> d in ds && d != ping
    ensures |r| <= |ds|
  {
    if ds == [] then []
    else if ds[0] == ping then Forwarded(ds[1..], ping)
    else [ds[0]] + Forwarded(ds[1..], ping)
  }

  /**
   * Whatever fails along the way, the engine sees a prefix of the chunks
   * received, in order, each written once and followed by a flush, with the
   * exact pings left out and nothing from after the first zero-length chunk.
   */
  lemma {:induction false} Conn2ProcPrefix(steps: seq<Iteration<Readiness<Chunk>>>, ping: string)
    ensures IsPrefix(Conn2ProcRun(steps, ping).out, Deliveries(Forwarded(Arrived(Reads(steps)), ping)))
  {
    if steps != [] && Running(steps[0].doRun) {
      var rest := steps[1..];
      var act := Conn2ProcPass(steps[0].io, ping);
      if act.Continue? {
        Conn2ProcPrefix(rest, ping);
      }
      Conn2ProcStep(steps, ping);
      if !ReadyHangup(steps[0].io) {
        ForwardedStep(steps, ping);
        if steps[0].io.Ready? && steps[0].io.read.Received? && steps[0].io.read.data != ping {
          var full := Forwarded(Arrived(Reads(rest)), ping);
          DeliverPrefix(steps[0].io.read.data, steps[0].io.read.sink, Conn2ProcRun(rest, ping).out, full);
        }
      }
    }
  }

  /** What one pass other than a hangup adds to the chunks forwarded: a received chunk unless it is the ping. */
  lemma ForwardedStep(steps: seq<Iteration<Readiness<Chunk>>>, ping: string)
    requires steps != [] && !ReadyHangup(steps[0].io)
    ensures Forwarded(Arrived(Reads(steps)), ping) ==
      if steps[0].io.Ready? && steps[0].io.read.Received? && steps[0].io.read.data != ping
      then [steps[0].io.read.data] + Forwarded(Arrived(Reads(steps[1..])), ping)
      else Forwarded(Arrived(Reads(steps[1..])), ping)
  {
    ArrivedStep(steps);
    if steps[0].io.Ready? && steps[0].io.read.Received? {
      var ds := Arrived(Reads(steps));
      assert ds[0] == steps[0].io.read.data && ds[1..] == Arrived(Reads(steps[1..]));
    }
  }

  /** How one pass of `conn2proc` contributes to the run. */
  lemma Conn2ProcStep(steps: seq<Iteration<Readiness<Chunk>>>, ping: string)
    requires steps != []
    ensures !Running(steps[0].doRun) ==> Conn2ProcRun(steps, ping) == Run([], Cancelled)
    ensures Running(steps[0].doRun) ==>
      var act := Conn2ProcPass(steps[0].io, ping);
      Conn2ProcRun(steps, ping) ==
        if act.Stop? then Run(act.emit, Ended(act.why))
        else Run(act.emit + Conn2ProcRun(steps[1..], ping).out, Conn2ProcRun(steps[1..], ping).exit)
  {
    DriveStep(steps, io => Conn2ProcPass(io, ping));
  }

  /** A zero-length chunk occurs in a run of passes exactly when it occurs on the first or in the rest. */
  lemma HangupShift(steps: seq<Iteration<Readiness<Chunk>>>)
    requires steps != []
    ensures (exists i :: 0 <= i < |steps| && ReadyHangup(steps[i].io)) <==>
      ReadyHangup(steps[0].io) || exists i :: 0 <= i < |steps[1..]| && ReadyHangup(steps[1..][i].io)
  {
    forall i | 0 < i < |steps|
      ensures steps[i] == steps[1..][i - 1]
    {
    }
  }

  /** A pass on which the flag is up, and the select timed out or the chunk was written and flushed. */
  predicate Conn2ProcSmoothPass(step: Iteration<Readiness<Chunk>>)
  {
    Running(step.doRun) && (step.io.TimedOut? || (step.io.read.Received? && step.io.read.sink == Delivered))
  }

  /**
   * When nothing fails and nobody clears the flag, the engine sees exactly
   * every received chunk other than an exact ping, in order, each followed
   * by a flush; and the loop ends exactly when a zero-length chunk arrives.
   */
  lemma Conn2ProcSmooth(steps: seq<Iteration<Readiness<Chunk>>>, ping: string)
    requires forall i :: 0 <= i < |steps| ==> Conn2ProcSmoothPass(steps[i])
    ensures Conn2ProcRun(steps, ping).out == Deliveries(Forwarded(Arrived(Reads(steps)), ping))
    ensures Conn2ProcRun(steps, ping).exit ==
      if exists i :: 0 <= i < |steps| && ReadyHangup(steps[i].io) then Ended(PeerClosed) else Pending
  {
    Conn2ProcSmoothOut(steps, ping);
    Conn2ProcSmoothExit(steps, ping);
  }

  /** On smooth passes, the engine gets every chunk other than the ping, written and flushed. */
  lemma {:induction false} Conn2ProcSmoothOut(steps: seq<Iteration<Readiness<Chunk>>>, ping: string)
    requires forall i :: 0 <= i < |steps| ==> Conn2ProcSmoothPass(steps[i])
    ensures Conn2ProcRun(steps, ping).out == Deliveries(Forwarded(Arrived(Reads(steps)), ping))
  {
    if steps != [] {
      var rest := steps[1..];
      assert Conn2ProcSmoothPass(steps[0]);
      Conn2ProcSmoothOut(rest, ping);
      Conn2ProcStep(steps, ping);
      if !ReadyHangup(steps[0].io) {
        ForwardedStep(steps, ping);
        if steps[0].io.Ready? && steps[0].io.read.data != ping {
          var data := steps[0].io.read.data;
          var full := Forwarded(Arrived(Reads(rest)), ping);
          assert Deliveries([data] + full) == [PipeOp.Write(data), Flush] + Deliveries(full);
        }
      }
    }
  }

  /** On smooth passes, the loop ends exactly at a zero-length chunk, as peer-closed. */
  lemma {:induction false} Conn2ProcSmoothExit(steps: seq<Iteration<Readiness<Chunk>>>, ping: string)
    requires forall i :: 0 <= i < |steps| ==> Conn2ProcSmoothPass(steps[i])
    ensures Conn2ProcRun(steps, ping).exit ==
      if exists i :: 0 <= i < |steps| && ReadyHangup(steps[i].io) then Ended(PeerClosed) else Pending
  {
    if steps != [] {
      assert Conn2ProcSmoothPass(steps[0]);
      Conn2ProcSmoothExit(steps[1..], ping);
      Conn2ProcStep(steps, ping);
      HangupShift(steps);
    }
  }

  /**
   * Once a pass receives zero bytes the loop is over: nothing received
   * afterwards reaches the engine.
   */
  lemma Conn2ProcStopsAtHangup(a: seq<Iteration<Readiness<Chunk>>>, x: Iteration<Readiness<Chunk>>,
                               b: seq<Iteration<Readiness<Chunk>>>, ping: string)
    requires Conn2ProcRun(a, ping).exit == Pending
    requires Running(x.doRun) && ReadyHangup(x.io)
    ensures Conn2ProcRun(a + [x] + b, ping) == Run(Conn2ProcRun(a, ping).out, Ended(PeerClosed))
  {
    var pass := io => Conn2ProcPass(io, ping);
    DriveAppend(a, [x] + b, pass);
    assert a + [x] + b == a + ([x] + b);
    assert ([x] + b)[0] == x;
  }

  /* ---------------- proc2conn ---------------- */

  /** One pass of `proc2conn`: the line read is masked, then sent. */
  function Proc2ConnPass(io: Readiness<LineRead>): (r: Action<string>)
    ensures r.Stop? ==> r.why == Failed && r.emit == []
    ensures r.emit != [] ==> io.Ready? && io.read.Line? && r.emit == [VersionMask.Rewrite(io.read.text)]
    ensures io.Ready? && io.read.Line? && io.read.text == "" && !io.read.sendFails ==> r.Continue?
  {
    match io
    case TimedOut => Continue([])
    case Ready(Unreadable) => Stop([], Failed)
    case Ready(Line(text, sendFails)) =>
      if sendFails then Stop([], Failed) else Continue([VersionMask.Rewrite(text)])
  }

  function Proc2ConnRun(steps: seq<Iteration<Readiness<LineRead>>>): Run<string>
  {
    Drive(steps, Proc2ConnPass)
  }

  /**
   * The body of `proc2conn`'s `try`: the line read is masked and sent.
   * Returns why the loop breaks out, if it does.
   */
  method Proc2ConnTry(io: Readiness<LineRead>, conn: Socket) returns (brk: Option<Break>)
    modifies conn
    ensures conn.sent == old(conn.sent) + Proc2ConnPass(io).emit
    ensures conn.closes == old(conn.closes)
    ensures brk == if Proc2ConnPass(io).Stop? then Some(Proc2ConnPass(io).why) else None
  {
    match io {
      case TimedOut =>
        return None;
      case Ready(Unreadable) =>
        return Some(Failed);
      case Ready(Line(text, sendFails)) =>
        var decoded := VersionMask.Rewrite(text);
        var ok := conn.Send(decoded, sendFails);
        if !ok {
          return Some(Failed);
        }
        return None;
    }
  }

  /** The relay from the engine's standard output to the connection. */
  method Proc2Conn(steps: seq<Iteration<Readiness<LineRead>>>, conn: Socket) returns (exit: Exit)
    modifies conn
    ensures conn.sent == old(conn.sent) + Proc2ConnRun(steps).out
    ensures conn.closes == old(conn.closes)
    ensures exit == Proc2ConnRun(steps).exit
  {
    var k := 0;
    while k < |steps|
      invariant k <= |steps|
      invariant conn.sent + Proc2ConnRun(steps[k..]).out == old(conn.sent) + Proc2ConnRun(steps).out
      invariant Proc2ConnRun(steps[k..]).exit == Proc2ConnRun(steps).exit
      invariant conn.closes == old(conn.closes)
    {
      DriveStep(steps[k..], Proc2ConnPass);
      assert steps[k..][0] == steps[k];
      if !Running(steps[k].doRun) {
        return Cancelled;
      }
      ghost var before := conn.sent;
      var brk := Proc2ConnTry(steps[k].io, conn);
      if brk.Some? {
        return Ended(brk.value);
      }
      DriveAdvance(before, old(conn.sent) + Proc2ConnRun(steps).out, steps, k, Proc2ConnPass);
      k := k + 1;
    }
    assert steps[k..] == [];
    exit := Pending;
  }

  /** The lines read from the engine, in order; an empty one is what `readline` gives at end of stream. */
  function LinesRead(steps: seq<Iteration<Readiness<LineRead>>>): seq<string>
  {
    if steps == [] then []
    else if steps[0].io.Ready? && steps[0].io.read.Line? then [steps[0].io.read.text] + LinesRead(steps[1..])
    else LinesRead(steps[1..])
  }

  /** Each line masked, in order. */
  function MaskedLines(lines: seq<string>): (r: seq<string>)
    ensures |r| == |lines|
    ensures forall i :: 0 <= i < |lines| ==> r[i] == VersionMask.Rewrite(lines[i])
  {
    if lines == [] then [] else [VersionMask.Rewrite(lines[0])] + MaskedLines(lines[1..])
  }

  /** Whatever fails, the connection sees a prefix of the masked lines, in the order read. */
  lemma {:induction false} Proc2ConnPrefix(steps: seq<Iteration<Readiness<LineRead>>>)
    ensures IsPrefix(Proc2ConnRun(steps).out, MaskedLines(LinesRead(steps)))
  {
    if steps != [] && Running(steps[0].doRun) {
      var rest := steps[1..];
      match steps[0].io {
        case TimedOut =>
          Proc2ConnPrefix(rest);
        case Ready(Unreadable) =>
        case Ready(Line(text, sendFails)) =>
          if !sendFails {
            Proc2ConnPrefix(rest);
            assert MaskedLines(LinesRead(steps)) == [VersionMask.Rewrite(text)] + MaskedLines(LinesRead(rest));
            PrefixAfter([VersionMask.Rewrite(text)], Proc2ConnRun(rest).out, MaskedLines(LinesRead(rest)));
          }
      }
    }
  }

  /** A pass on which the flag is up and the read, the decode and the send all went through. */
  predicate Proc2ConnSmoothPass(step: Iteration<Readiness<LineRead>>)
  {
    Running(step.doRun) && (step.io.TimedOut? || (step.io.read.Line? && !step.io.read.sendFails))
  }

  /**
   * When nothing fails and nobody clears the flag, every line read is sent
   * exactly once, masked, in read order, and the loop never ends of its own
   * accord: an empty read at end of stream is sent as an empty string.
   */
  lemma {:induction false} Proc2ConnSmooth(steps: seq<Iteration<Readiness<LineRead>>>)
    requires forall i :: 0 <= i < |steps| ==> Proc2ConnSmoothPass(steps[i])
    ensures Proc2ConnRun(steps) == Run(MaskedLines(LinesRead(steps)), Pending)
  {
    if steps != [] {
      assert Proc2ConnSmoothPass(steps[0]);
      var rest := steps[1..];
      Proc2ConnSmooth(rest);
      if steps[0].io.Ready? {
        assert MaskedLines(LinesRead(steps)) == [VersionMask.Rewrite(steps[0].io.read.text)] + MaskedLines(LinesRead(rest));
      }
    }
  }

  /* ---------------- conn ---------------- */

  /** One poll of the coordinator: whether `process.poll()` reported an exit, and `is_alive()` of each relay. */
  datatype Poll = Poll(exited: bool, alive: seq<bool>)

  /** The coordinator's test: the engine has exited, or some relay is no longer alive. */
  predicate ServerStops(p: Poll)
  {
    p.exited || false in p.alive
  }

  /**
   * What the coordinator does once it stops: clear `do_run` on the chosen
   * relays, kill the engine, and (after leaving its loop) close the connection.
   */
  method Shutdown(handlers: seq<Worker>, targets: seq<bool>, process: Process, connection: Socket)
    requires Distinct(handlers) && |targets| == |handlers|
    modifies handlers, process, connection
    ensures Flags(handlers) == Cleared(old(Flags(handlers)), targets)
    ensures process.kills == old(process.kills) + 1
    ensures connection.closes == old(connection.closes) + 1
    ensures connection.sent == old(connection.sent)
  {
    Signal(handlers, targets);
    KillAndClose(process, connection);
  }

  /** The engine is killed, and the connection closed once the loop is left. */
  method KillAndClose(process: Process, connection: Socket)
    modifies process, connection
    ensures process.kills == old(process.kills) + 1
    ensures connection.closes == old(connection.closes) + 1
    ensures connection.sent == old(connection.sent)
  {
    process.Kill();
    connection.Close();
  }

  /**
   * The coordinator, as written: it polls until the engine has exited or a
   * relay has died; it then clears `do_run` on the relays found dead, kills
   * the engine once, leaves its loop and closes the connection once.
   */
  method Conn(polls: seq<Poll>, handlers: seq<Worker>, process: Process, connection: Socket)
      returns (stoppedAt: Option<nat>)
    requires Distinct(handlers)
    requires forall k :: 0 <= k < |polls| ==> |polls[k].alive| == |handlers|
    modifies handlers, process, connection
    ensures stoppedAt == First(polls, ServerStops)
    ensures Flags(handlers) ==
      if stoppedAt.Some? then Cleared(old(Flags(handlers)), Dead(polls[stoppedAt.value].alive))
      else old(Flags(handlers))
    ensures stoppedAt.Some? ==> forall i :: 0 <= i < |handlers| && polls[stoppedAt.value].alive[i] ==>
      handlers[i].doRun == old(handlers[i].doRun)
    ensures process.kills == old(process.kills) + if stoppedAt.Some? then 1 else 0
    ensures connection.closes == old(connection.closes) + if stoppedAt.Some? then 1 else 0
    ensures connection.sent == old(connection.sent)
  {
    var k := 0;
    while k < |polls|
      invariant k <= |polls|
      invariant forall j :: 0 <= j < k ==> !ServerStops(polls[j])
      invariant Flags(handlers) == old(Flags(handlers))
      invariant process.kills == old(process.kills)
      invariant connection.closes == old(connection.closes) && connection.sent == old(connection.sent)
    {
      var poll := polls[k];
      if poll.exited || false in poll.alive {
        FirstIs(polls, ServerStops, k);
        ghost var flags := Flags(handlers);
        Shutdown(handlers, Dead(poll.alive), process, connection);
        forall i | 0 <= i < |handlers| && poll.alive[i]
          ensures handlers[i].doRun == old(handlers[i].doRun)
        {
          SignalDeadSparesLive(flags, poll.alive, i);
        }
        return Some(k);
      }
      k := k + 1;
    }
    FirstNone(polls, ServerStops);
    return None;
  }

  /**
   * The coordinator as evidently intended, and as the client's does:
   * on stopping it clears `do_run` on the relays still alive, so that none
   * of them starts another pass; the dead ones are left as they were.
   */
  method ConnIntended(polls: seq<Poll>, handlers: seq<Worker>, process: Process, connection: Socket)
      returns (stoppedAt: Option<nat>)
    requires Distinct(handlers)
    requires forall k :: 0 <= k < |polls| ==> |polls[k].alive| == |handlers|
    modifies handlers, process, connection
    ensures stoppedAt == First(polls, ServerStops)
    ensures Flags(handlers) ==
      if stoppedAt.Some? then Cleared(old(Flags(handlers)), polls[stoppedAt.value].alive)
      else old(Flags(handlers))
    ensures stoppedAt.Some? ==> forall i :: 0 <= i < |handlers| && polls[stoppedAt.value].alive[i] ==>
      !Running(handlers[i].doRun)
    ensures process.kills == old(process.kills) + if stoppedAt.Some? then 1 else 0
    ensures connection.closes == old(connection.closes) + if stoppedAt.Some? then 1 else 0
    ensures connection.sent == old(connection.sent)
  {
    var k := 0;
    while k < |polls|
      invariant k <= |polls|
      invariant forall j :: 0 <= j < k ==> !ServerStops(polls[j])
      invariant Flags(handlers) == old(Flags(handlers))
      invariant process.kills == old(process.kills)
      invariant connection.closes == old(connection.closes) && connection.sent == old(connection.sent)
    {
      var poll := polls[k];
      if poll.exited || false in poll.alive {
        FirstIs(polls, ServerStops, k);
        ghost var flags := Flags(handlers);
        Shutdown(handlers, poll.alive, process, connection);
        SignalAliveStopsLive(flags, poll.alive);
        return Some(k);
      }
      k := k + 1;
    }
    FirstNone(polls, ServerStops);
    return None;
  }
}
