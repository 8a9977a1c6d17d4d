/**
 * The client side: the relay from the socket to the console's standard
 * output (`sock2pipe`), the relay from the console's standard input to the
 * socket (`pipe2sock`), the keepalive emitter (`sock_keepalive`), and the
 * coordinator in `main` that watches all three.
 */
module Client {
  import opened Common
  import opened Io
  import opened Relay
  import opened Supervise

  /**
   * `write2sock`: one send under the shared lock. Sends from different
   * threads never interleave, so each is one atomic append to the socket.
   */
  method Write2Sock(sock: Socket, data: string, fails: bool) returns (ok: bool)
    modifies sock
    ensures ok == !fails
    ensures sock.sent == if ok then old(sock.sent) + [data] else old(sock.sent)
    ensures sock.closes == old(sock.closes)
  {
    ok := sock.Send(data, fails);
  }

  /* ---------------- pipe2sock ---------------- */

  /** One pass of `pipe2sock`: the line read is sent as it is. */
  function Pipe2SockPass(io: LineRead): (r: Action<string>)
    ensures r.Stop? ==> r.why == Failed && r.emit == []
    ensures r.Continue? <==> io.Line? && !io.sendFails
    ensures r.Continue? ==> r.emit == [io.text]
  {
    match io
    case Unreadable => Stop([], Failed)
    case Line(text, sendFails) => if sendFails then Stop([], Failed) else Continue([text])
  }

  function Pipe2SockRun(steps: seq<Iteration<LineRead>>): Run<string>
  {
    Drive(steps, Pipe2SockPass)
  }

  /** The body of `pipe2sock`'s `try`: the line read is sent as it is. Returns whether the loop breaks out. */
  method Pipe2SockTry(io: LineRead, sock: Socket) returns (brk: Option<Break>)
    modifies sock
    ensures sock.sent == old(sock.sent) + Pipe2SockPass(io).emit
    ensures sock.closes == old(sock.closes)
    ensures brk == if Pipe2SockPass(io).Stop? then Some(Pipe2SockPass(io).why) else None
  {
    match io {
      case Unreadable =>
        return Some(Failed);
      case Line(text, sendFails) =>
        var ok := Write2Sock(sock, text, sendFails);
        if !ok {
          return Some(Failed);
        }
        return None;
    }
  }

  /** The relay from the console's standard input to the socket. */
  method Pipe2Sock(steps: seq<Iteration<LineRead>>, sock: Socket) returns (exit: Exit)
    modifies sock
    ensures sock.sent == old(sock.sent) + Pipe2SockRun(steps).out
    ensures sock.closes == old(sock.closes)
    ensures exit == Pipe2SockRun(steps).exit
  {
    var k := 0;
    while k < |steps|
      invariant k <= |steps|
      invariant sock.sent + Pipe2SockRun(steps[k..]).out == old(sock.sent) + Pipe2SockRun(steps).out
      invariant Pipe2SockRun(steps[k..]).exit == Pipe2SockRun(steps).exit
      invariant sock.closes == old(sock.closes)
    {
      DriveStep(steps[k..], Pipe2SockPass);
      assert steps[k..][0] == steps[k];
      if !Running(steps[k].doRun) {
        return Cancelled;
      }
      ghost var before := sock.sent;
      var brk := Pipe2SockTry(steps[k].io, sock);
      if brk.Some? {
        return Ended(brk.value);
      }
      DriveAdvance(before, old(sock.sent) + Pipe2SockRun(steps).out, steps, k, Pipe2SockPass);
      k := k + 1;
    }
    assert steps[k..] == [];
    exit := Pending;
  }

  /** The lines read from the console, in order; an empty one is what `readline` gives at end of input. */
  function Typed(steps: seq<Iteration<LineRead>>): seq<string>
  {
    if steps == [] then []
    else if steps[0].io.Line? then [steps[0].io.text] + Typed(steps[1..])
    else Typed(steps[1..])
  }

  /** Whatever fails, the socket sees a prefix of the lines read, unchanged and in order. */
  lemma {:induction false} Pipe2SockPrefix(steps: seq<Iteration<LineRead>>)
    ensures IsPrefix(Pipe2SockRun(steps).out, Typed(steps))
  {
    if steps != [] && Running(steps[0].doRun) && steps[0].io.Line? && !steps[0].io.sendFails {
      var rest := steps[1..];
      Pipe2SockPrefix(rest);
      PrefixAfter([steps[0].io.text], Pipe2SockRun(rest).out, Typed(rest));
    }
  }

  /**
   * When every read and send goes through and nobody clears the flag, every
   * line read is sent once, in order, and the loop does not end by itself:
   * an empty read does not stop it.
   */
  lemma {:induction false} Pipe2SockSmooth(steps: seq<Iteration<LineRead>>)
    requires forall i :: 0 <= i < |steps| ==>
      Running(steps[i].doRun) && steps[i].io.Line? && !steps[i].io.sendFails
    ensures Pipe2SockRun(steps) == Run(Typed(steps), Pending)
  {
    if steps != [] {
      assert Running(steps[0].doRun) && steps[0].io.Line? && !steps[0].io.sendFails;
      Pipe2SockSmooth(steps[1..]);
    }
  }

  /* ---------------- sock2pipe ---------------- */

  /** One pass of `sock2pipe`: no filter, a ping is written like any other chunk. */
  function Sock2PipePass(io: Chunk): (r: Action<PipeOp>)
    ensures r.Stop? && r.why == PeerClosed <==> Hangup(io)
    ensures r.Continue? <==> io.Received? && io.data != "" && io.sink == Delivered
    ensures r.emit != [] ==> io.Received? && r.emit[0] == PipeOp.Write(io.data)
  {
    match io
    case Broken => Stop([], Failed)
    case Received(data, sink) => if data == "" then Stop([], PeerClosed) else Deliver(data, sink)
  }

  function Sock2PipeRun(steps: seq<Iteration<Chunk>>): Run<PipeOp>
  {
    Drive(steps, Sock2PipePass)
  }

  /**
   * The body of `sock2pipe`'s `try`: a non-empty chunk is written and
   * flushed. Returns why the loop breaks out, if it does.
   */
  method Sock2PipeTry(io: Chunk, stdout: Pipe) returns (brk: Option<Break>)
    modifies stdout
    ensures stdout.ops == old(stdout.ops) + Sock2PipePass(io).emit
    ensures brk == if Sock2PipePass(io).Stop? then Some(Sock2PipePass(io).why) else None
  {
    match io {
      case Broken =>
        return Some(Failed);
      case Received(data, sink) =>
        if data == "" {
          return Some(PeerClosed);
        }
        var ok := stdout.Write(data, sink == WriteFails);
        if !ok {
          return Some(Failed);
        }
        ok := stdout.Flush(sink == FlushFails);
        if !ok {
          return Some(Failed);
        }
        return None;
    }
  }

  /** The relay from the socket to the console's standard output. */
  method Sock2Pipe(steps: seq<Iteration<Chunk>>, stdout: Pipe) returns (exit: Exit)
    modifies stdout
    ensures stdout.ops == old(stdout.ops) + Sock2PipeRun(steps).out
    ensures exit == Sock2PipeRun(steps).exit
  {
    var k := 0;
    while k < |steps|
      invariant k <= |steps|
      invariant stdout.ops + Sock2PipeRun(steps[k..]).out == old(stdout.ops) + Sock2PipeRun(steps).out
      invariant Sock2PipeRun(steps[k..]).exit == Sock2PipeRun(steps).exit
    {
      DriveStep(steps[k..], Sock2PipePass);
      assert steps[k..][0] == steps[k];
      if !Running(steps[k].doRun) {
        return Cancelled;
      }
      ghost var before := stdout.ops;
      var brk := Sock2PipeTry(steps[k].io, stdout);
      if brk.Some? {
        return Ended(brk.value);
      }
      DriveAdvance(before, old(stdout.ops) + Sock2PipeRun(steps).out, steps, k, Sock2PipePass);
      k := k + 1;
    }
    assert steps[k..] == [];
    exit := Pending;
  }

  /**
   * Whatever fails, the console sees a prefix of the chunks received, each
   * written unchanged and flushed, in order, and nothing from after the
   * first zero-length chunk.
   */
  lemma {:induction false} Sock2PipePrefix(steps: seq<Iteration<Chunk>>)
    ensures IsPrefix(Sock2PipeRun(steps).out, Deliveries(Arrived(steps)))
  {
    if steps != [] && Running(steps[0].doRun) && steps[0].io.Received? && !Hangup(steps[0].io) {
      var rest := steps[1..];
      var data := steps[0].io.data;
      var sink := steps[0].io.sink;
      if sink == Delivered {
        Sock2PipePrefix(rest);
      }
      assert Arrived(steps) == [data] + Arrived(rest);
      DeliverPrefix(data, sink, Sock2PipeRun(rest).out, Arrived(rest));
    }
  }

  /**
   * When every write and flush goes through and nobody clears the flag,
   * the console sees every chunk received, pings included, each flushed,
   * in order; and the loop ends exactly when a zero-length chunk arrives.
   */
  lemma {:induction false} Sock2PipeSmooth(steps: seq<Iteration<Chunk>>)
    requires forall i :: 0 <= i < |steps| ==>
      Running(steps[i].doRun) && steps[i].io.Received? && steps[i].io.sink == Delivered
    ensures Sock2PipeRun(steps).out == Deliveries(Arrived(steps))
    ensures Sock2PipeRun(steps).exit ==
      if exists i :: 0 <= i < |steps| && Hangup(steps[i].io) then Ended(PeerClosed) else Pending
  {
    if steps != [] {
      var rest := steps[1..];
      assert Running(steps[0].doRun) && steps[0].io.Received? && steps[0].io.sink == Delivered;
      Sock2PipeSmooth(rest);
      if !Hangup(steps[0].io) {
        assert (exists i :: 0 <= i < |steps| && Hangup(steps[i].io)) <==>
               (exists i :: 0 <= i < |rest| && Hangup(rest[i].io)) by {
          forall i | 0 < i < |steps|
            ensures steps[i] == rest[i - 1]
          {
          }
        }
        var data := steps[0].io.data;
        assert Deliveries([data] + Arrived(rest)) == [PipeOp.Write(data), Flush] + Deliveries(Arrived(rest));
      }
    }
  }

  /* ---------------- sock_keepalive ---------------- */

  /** One pass of `sock_keepalive`: the clock reading `int(time.time())`, and whether a send would raise. */
  datatype Tick = Tick(ts: int, sendFails: bool)

  /** What the emitter did: when its pings went out, its final `mark`, and why it stopped. */
  datatype Beats = Beats(sentAt: seq<int>, mark: int, exit: Exit)

  /** The keepalive loop from a given `mark` over its passes. */
  function Keepalive(mark: int, timeout: int, steps: seq<Iteration<Tick>>): (r: Beats)
    decreases |steps|
    ensures |r.sentAt| <= |steps|
    ensures r.exit != Ended(PeerClosed)
    ensures r.sentAt == [] && r.exit != Ended(Failed) ==> r.mark == mark
  {
    if steps == [] then Beats([], mark, Pending)
    else if !Running(steps[0].doRun) then Beats([], mark, Cancelled)
    else
      var t := steps[0].io;
      if t.ts - mark >= timeout then
        if t.sendFails then Beats([], t.ts, Ended(Failed))
        else
          var rest := Keepalive(t.ts, timeout, steps[1..]);
          Beats([t.ts] + rest.sentAt, rest.mark, rest.exit)
      else Keepalive(mark, timeout, steps[1..])
  }

  /** `n` pings. */
  function Pings(n: nat, ping: string): (r: seq<string>)
    ensures |r| == n && forall i :: 0 <= i < n ==> r[i] == ping
  {
    if n == 0 then [] else Pings(n - 1, ping) + [ping]
  }

  /** The keepalive emitter; `start` is the clock reading taken before the loop. */
  method SockKeepalive(steps: seq<Iteration<Tick>>, sock: Socket, ping: string, timeout: int, start: int)
      returns (exit: Exit, mark: int)
    modifies sock
    ensures sock.sent == old(sock.sent) + Pings(|Keepalive(start, timeout, steps).sentAt|, ping)
    ensures sock.closes == old(sock.closes)
    ensures exit == Keepalive(start, timeout, steps).exit
    ensures mark == Keepalive(start, timeout, steps).mark
  {
    mark := start;
    var sends := 0;
    var k := 0;
    while k < |steps|
      invariant k <= |steps|
      invariant sock.sent == old(sock.sent) + Pings(sends, ping)
      invariant sends + |Keepalive(mark, timeout, steps[k..]).sentAt| == |Keepalive(start, timeout, steps).sentAt|
      invariant Keepalive(mark, timeout, steps[k..]).exit == Keepalive(start, timeout, steps).exit
      invariant Keepalive(mark, timeout, steps[k..]).mark == Keepalive(start, timeout, steps).mark
      invariant sock.closes == old(sock.closes)
    {
      assert steps[k..][0] == steps[k] && steps[k..][1..] == steps[k + 1..];
      if !Running(steps[k].doRun) {
        return Cancelled, mark;
      }
      var t := steps[k].io;
      if t.ts - mark >= timeout {
        mark := t.ts;
        var ok := Write2Sock(sock, ping, t.sendFails);
        if !ok {
          return Ended(Failed), mark;
        }
        sends := sends + 1;
      }
      k := k + 1;
    }
    assert steps[k..] == [];
    exit := Pending;
  }

  /**
   * Whatever the clock does, every ping goes out at least `timeout` after the
   * previous one, and the first at least `timeout` after the reading `mark`
   * was taken from: `mark` only ever moves to the reading of a ping. Each
   * ping is stamped with a clock reading of the run.
   */
  lemma {:induction false} KeepaliveSpacing(mark: int, timeout: int, steps: seq<Iteration<Tick>>)
    decreases |steps|
    ensures var r := Keepalive(mark, timeout, steps);
      && (|r.sentAt| > 0 ==> r.sentAt[0] >= mark + timeout)
      && (forall i :: 0 <= i < |r.sentAt| - 1 ==> r.sentAt[i + 1] - r.sentAt[i] >= timeout)
      && (forall i :: 0 <= i < |r.sentAt| ==> exists j :: 0 <= j < |steps| && steps[j].io.ts == r.sentAt[i])
  {
    if steps != [] && Running(steps[0].doRun) {
      var t := steps[0].io;
      var rest := steps[1..];
      if t.ts - mark >= timeout {
        if !t.sendFails {
          KeepaliveSpacing(t.ts, timeout, rest);
          var r := Keepalive(mark, timeout, steps);
          var rr := Keepalive(t.ts, timeout, rest);
          assert r.sentAt == [t.ts] + rr.sentAt;
          forall i | 0 <= i < |r.sentAt|
            ensures exists j :: 0 <= j < |steps| && steps[j].io.ts == r.sentAt[i]
          {
            if i == 0 {
              assert steps[0].io.ts == r.sentAt[0];
            } else {
              var j :| 0 <= j < |rest| && rest[j].io.ts == rr.sentAt[i - 1];
              assert steps[j + 1].io.ts == r.sentAt[i];
            }
          }
        }
      } else {
        KeepaliveSpacing(mark, timeout, rest);
        var r := Keepalive(mark, timeout, steps);
        forall i | 0 <= i < |r.sentAt|
          ensures exists j :: 0 <= j < |steps| && steps[j].io.ts == r.sentAt[i]
        {
          var j :| 0 <= j < |rest| && rest[j].io.ts == r.sentAt[i];
          assert steps[j + 1].io.ts == r.sentAt[i];
        }
      }
    }
  }

  /**
   * The emitter read tick by tick: each further tick on which the flag is up
   * and no send raises (either none is tried, or it goes through) sends a
   * ping exactly when `ts - mark >= timeout` and then moves `mark` to `ts`;
   * otherwise `mark` stays.
   */
  lemma {:induction false} KeepaliveAppend(mark: int, timeout: int, a: seq<Iteration<Tick>>, x: Iteration<Tick>)
    requires Keepalive(mark, timeout, a).exit == Pending
    requires Running(x.doRun) && (!x.io.sendFails || x.io.ts - Keepalive(mark, timeout, a).mark < timeout)
    ensures var before := Keepalive(mark, timeout, a);
      var due := x.io.ts - before.mark >= timeout;
      Keepalive(mark, timeout, a + [x]) ==
        Beats(before.sentAt + (if due then [x.io.ts] else []), if due then x.io.ts else before.mark, Pending)
    decreases |a|
  {
    if a == [] {
      assert a + [x] == [x];
    } else {
      assert (a + [x])[0] == a[0] && (a + [x])[1..] == a[1..] + [x];
      var t := a[0].io;
      if t.ts - mark >= timeout {
        KeepaliveAppend(t.ts, timeout, a[1..], x);
      } else {
        KeepaliveAppend(mark, timeout, a[1..], x);
      }
    }
  }

  /**
   * `mark` moves to `ts` before the send is tried, and a send that raises ends
   * the loop: no later tick is looked at.
   */
  lemma {:induction false} KeepaliveStopsOnFailedSend(mark: int, timeout: int, a: seq<Iteration<Tick>>,
                                                     x: Iteration<Tick>, b: seq<Iteration<Tick>>)
    requires Keepalive(mark, timeout, a).exit == Pending
    requires Running(x.doRun) && x.io.sendFails && x.io.ts - Keepalive(mark, timeout, a).mark >= timeout
    ensures Keepalive(mark, timeout, a + [x] + b) == Beats(Keepalive(mark, timeout, a).sentAt, x.io.ts, Ended(Failed))
    decreases |a|
  {
    if a == [] {
      assert a + [x] + b == [x] + b;
    } else {
      assert (a + [x] + b)[0] == a[0] && (a + [x] + b)[1..] == a[1..] + [x] + b;
      var t := a[0].io;
      if t.ts - mark >= timeout {
        KeepaliveStopsOnFailedSend(t.ts, timeout, a[1..], x, b);
      } else {
        KeepaliveStopsOnFailedSend(mark, timeout, a[1..], x, b);
      }
    }
  }

  /**
   * A tick that finds `do_run` False ends the loop there: no ping is sent on
   * it or on any later tick, and `mark` stays where it was.
   */
  lemma {:induction false} KeepaliveHaltsOnClearedFlag(mark: int, timeout: int, a: seq<Iteration<Tick>>,
                                                      x: Iteration<Tick>, b: seq<Iteration<Tick>>)
    requires Keepalive(mark, timeout, a).exit == Pending
    requires !Running(x.doRun)
    ensures Keepalive(mark, timeout, a + [x] + b) ==
      Beats(Keepalive(mark, timeout, a).sentAt, Keepalive(mark, timeout, a).mark, Cancelled)
    decreases |a|
  {
    if a == [] {
      assert a + [x] + b == [x] + b;
    } else {
      assert (a + [x] + b)[0] == a[0] && (a + [x] + b)[1..] == a[1..] + [x] + b;
      var t := a[0].io;
      if t.ts - mark >= timeout {
        KeepaliveHaltsOnClearedFlag(t.ts, timeout, a[1..], x, b);
      } else {
        KeepaliveHaltsOnClearedFlag(mark, timeout, a[1..], x, b);
      }
    }
  }

  /** A tick that finds no `do_run` attribute runs like one that finds it True. */
  lemma {:induction false} KeepaliveAbsentFlagRuns(mark: int, timeout: int, t: Tick, b: seq<Iteration<Tick>>)
    ensures Keepalive(mark, timeout, [Iteration(None, t)] + b) ==
      Keepalive(mark, timeout, [Iteration(Some(true), t)] + b)
  {
    assert ([Iteration(None, t)] + b)[1..] == b;
    assert ([Iteration(Some(true), t)] + b)[1..] == b;
  }

  /**
   * With a positive timeout the emitter is never overdue: after a tick that
   * the loop got through, less than `timeout` has passed since `mark`.
   */
  lemma KeepaliveNeverOverdue(mark: int, timeout: int, a: seq<Iteration<Tick>>, x: Iteration<Tick>)
    requires timeout > 0
    requires Keepalive(mark, timeout, a).exit == Pending
    requires Running(x.doRun) && (!x.io.sendFails || x.io.ts - Keepalive(mark, timeout, a).mark < timeout)
    ensures x.io.ts - Keepalive(mark, timeout, a + [x]).mark < timeout
  {
    KeepaliveAppend(mark, timeout, a, x);
  }

  /* ---------------- main ---------------- */

  /** The client coordinator's test: some relay is no longer alive. */
  predicate ClientStops(alive: seq<bool>)
  {
    false in alive
  }

  /**
   * The coordinator in `main`: it polls until some relay has died, then
   * clears `do_run` on every relay still alive and leaves its loop, which
   * leaves the `with` block and so closes the socket once.
   */
  method Coordinate(polls: seq<seq<bool>>, handlers: seq<Worker>, sock: Socket) returns (stoppedAt: Option<nat>)
    requires Distinct(handlers)
    requires forall k :: 0 <= k < |polls| ==> |polls[k]| == |handlers|
    modifies handlers, sock
    ensures stoppedAt == First(polls, ClientStops)
    ensures Flags(handlers) ==
      if stoppedAt.Some? then Cleared(old(Flags(handlers)), polls[stoppedAt.value]) else old(Flags(handlers))
    ensures stoppedAt.Some? ==> forall i :: 0 <= i < |handlers| && polls[stoppedAt.value][i] ==>
      !Running(handlers[i].doRun)
    ensures sock.closes == old(sock.closes) + if stoppedAt.Some? then 1 else 0
    ensures sock.sent == old(sock.sent)
  {
    var k := 0;
    while k < |polls|
      invariant k <= |polls|
      invariant forall j :: 0 <= j < k ==> !ClientStops(polls[j])
      invariant Flags(handlers) == old(Flags(handlers))
      invariant sock.closes == old(sock.closes) && sock.sent == old(sock.sent)
    {
      if false in polls[k] {
        FirstIs(polls, ClientStops, k);
        ghost var flags := Flags(handlers);
        Signal(handlers, polls[k]);
        SignalAliveStopsLive(flags, polls[k]);
        sock.Close();
        return Some(k);
      }
      k := k + 1;
    }
    FirstNone(polls, ClientStops);
    return None;
  }
}
