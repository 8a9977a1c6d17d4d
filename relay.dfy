/**
 * The shape shared by every relay loop of both endpoints: test the
 * thread's `do_run` flag, make one pass, and leave the loop on any
 * exception the pass raises.
 *
 * A loop is run against the sequence of passes it gets to make. Each pass
 * carries the value of the thread's `do_run` flag seen at the loop test and
 * what the I/O of that pass produced. A pass either lets the loop go on
 * (having emitted some output) or ends it.
 */
module Relay {
  import opened Common
  import opened Io

  /** The loop test: an absent flag counts as True, so only an explicit False stops the loop. */
  predicate Running(doRun: Option<bool>)
  {
    doRun != Some(false)
  }

  datatype Iteration<+E> = Iteration(doRun: Option<bool>, io: E)

  /** The two ways a pass breaks out of its loop: the peer closed (a zero-length read) or an exception. */
  datatype Break = PeerClosed | Failed

  /** Why a loop ended; Pending means the modelled passes ran out with the loop still going. */
  datatype Exit = Cancelled | Ended(cause: Break) | Pending

  datatype Action<+O> = Continue(emit: seq<O>) | Stop(emit: seq<O>, why: Break)

  datatype Run<+O> = Run(out: seq<O>, exit: Exit)

  /**
   * The outcome of a `select` with a timeout: nothing ready, or the read that
   * followed. A `select` that raised is folded into the read's failure case
   * (`Ready(Broken)`, `Ready(Unreadable)`): the loop breaks out either way.
   */
  datatype Readiness<+R> = TimedOut | Ready(read: R)

  /**
   * One `recv(BUFFER_SIZE)` on the connection and the writes that follow it.
   * Received: recv returned `data`; `sink` says how writing it to the pipe went.
   * Broken: select or recv raised, or the bytes were not valid UTF-8 (decode raised).
   */
  datatype Chunk = Received(data: string, sink: Delivery) | Broken

  /** How `pipe.write(data)` followed by `pipe.flush()` went. */
  datatype Delivery = Delivered | WriteFails | FlushFails

  /**
   * One `readline()` on a local stream and the send that follows it.
   * Line: the line read (empty at end of stream) and whether the send raised.
   * Unreadable: readline, decode or encode raised, or the `select` before them did.
   */
  datatype LineRead = Line(text: string, sendFails: bool) | Unreadable

  /** A `recv` that returned zero bytes: the peer closed the connection. */
  predicate Hangup(io: Chunk)
  {
    io.Received? && io.data == ""
  }

  /** The chunks a connection delivers over a run of reads, in order, up to the first zero-length one. */
  function Arrived(steps: seq<Iteration<Chunk>>): seq<string>
  {
    if steps == [] || Hangup(steps[0].io) then []
    else if steps[0].io.Received? then [steps[0].io.data] + Arrived(steps[1..])
    else Arrived(steps[1..])
  }

  /** The loop driven over its passes. */
  function Drive<E, O>(steps: seq<Iteration<E>>, pass: E -> Action<O>): Run<O>
  {
    if steps == [] then Run([], Pending)
    else if !Running(steps[0].doRun) then Run([], Cancelled)
    else match pass(steps[0].io)
      case Stop(emit, why) => Run(emit, Ended(why))
      case Continue(emit) =>
        var rest := Drive(steps[1..], pass);
        Run(emit + rest.out, rest.exit)
  }

  /**
   * Why a loop ends: it is still going exactly when every pass saw the flag
   * up and let it go on; it was cancelled only if some pass saw the flag
   * down; and it ended for a cause only if some pass broke out for that cause.
   */
  lemma {:induction false} DriveExit<E, O>(steps: seq<Iteration<E>>, pass: E -> Action<O>)
    ensures var r := Drive(steps, pass);
      && (r.exit == Pending <==>
          forall i :: 0 <= i < |steps| ==> Running(steps[i].doRun) && pass(steps[i].io).Continue?)
      && (r.exit == Cancelled ==> exists i :: 0 <= i < |steps| && !Running(steps[i].doRun))
      && (r.exit.Ended? ==>
          exists i :: 0 <= i < |steps| && pass(steps[i].io).Stop? && pass(steps[i].io).why == r.exit.cause)
  {
    if steps != [] {
      DriveExit(steps[1..], pass);
      var r := Drive(steps, pass);
      var rest := Drive(steps[1..], pass);
      if Running(steps[0].doRun) && pass(steps[0].io).Continue? {
        assert r.exit == rest.exit;
        if r.exit == Cancelled {
          var i :| 0 <= i < |steps[1..]| && !Running(steps[1..][i].doRun);
          assert !Running(steps[i + 1].doRun);
        }
        if r.exit.Ended? {
          var i :| 0 <= i < |steps[1..]| && pass(steps[1..][i].io).Stop? && pass(steps[1..][i].io).why == r.exit.cause;
          assert steps[1..][i] == steps[i + 1];
        }
        if rest.exit == Pending {
          forall i | 0 <= i < |steps|
            ensures Running(steps[i].doRun) && pass(steps[i].io).Continue?
          {
            if i > 0 {
              assert steps[i] == steps[1..][i - 1];
            }
          }
        }
      }
    }
  }

  /**
   * The loop one pass at a time: a pass that finds the flag down cancels the
   * loop, one that breaks out ends it with what it emitted, and one that goes
   * on puts its output before the rest of the run.
   */
  lemma DriveStep<E, O>(steps: seq<Iteration<E>>, pass: E -> Action<O>)
    requires steps != []
    ensures !Running(steps[0].doRun) ==> Drive(steps, pass) == Run([], Cancelled)
    ensures Running(steps[0].doRun) && pass(steps[0].io).Stop? ==>
      Drive(steps, pass) == Run(pass(steps[0].io).emit, Ended(pass(steps[0].io).why))
    ensures Running(steps[0].doRun) && pass(steps[0].io).Continue? ==>
      Drive(steps, pass) == Run(pass(steps[0].io).emit + Drive(steps[1..], pass).out, Drive(steps[1..], pass).exit)
  {
  }

  /**
   * How a loop method keeps its invariant across a pass that goes on: what
   * the sink holds plus what the rest of the run will emit stays the same.
   */
  lemma DriveAdvance<E, O>(sink: seq<O>, total: seq<O>, steps: seq<Iteration<E>>, k: nat, pass: E -> Action<O>)
    requires k < |steps| && Running(steps[k].doRun) && pass(steps[k].io).Continue?
    requires sink + Drive(steps[k..], pass).out == total
    ensures (sink + pass(steps[k].io).emit) + Drive(steps[k + 1..], pass).out == total
    ensures Drive(steps[k + 1..], pass).exit == Drive(steps[k..], pass).exit
  {
    assert steps[k..][0] == steps[k] && steps[k..][1..] == steps[k + 1..];
    DriveStep(steps[k..], pass);
  }

  /**
   * Running a loop over two stretches of input in a row: once the loop has
   * ended, no later pass is looked at; otherwise the second stretch simply
   * continues the output of the first.
   */
  lemma {:induction false} DriveAppend<E, O>(a: seq<Iteration<E>>, b: seq<Iteration<E>>, pass: E -> Action<O>)
    ensures Drive(a + b, pass) ==
      if Drive(a, pass).exit == Pending
      then Run(Drive(a, pass).out + Drive(b, pass).out, Drive(b, pass).exit)
      else Drive(a, pass)
  {
    if a == [] {
      assert a + b == b;
    } else {
      assert (a + b)[0] == a[0];
      assert (a + b)[1..] == a[1..] + b;
      if Running(a[0].doRun) && pass(a[0].io).Continue? {
        DriveAppend(a[1..], b, pass);
        var emit := pass(a[0].io).emit;
        if Drive(a[1..], pass).exit == Pending {
          assert emit + (Drive(a[1..], pass).out + Drive(b, pass).out)
              == (emit + Drive(a[1..], pass).out) + Drive(b, pass).out;
        }
      }
    }
  }

  /**
   * A pass that finds `do_run` False starts no further iteration: the loop
   * ends there with nothing more emitted, whatever input would have followed.
   */
  lemma DriveHaltsOnClearedFlag<E, O>(a: seq<Iteration<E>>, x: Iteration<E>, b: seq<Iteration<E>>, pass: E -> Action<O>)
    requires Drive(a, pass).exit == Pending
    requires !Running(x.doRun)
    ensures Drive(a + [x] + b, pass) == Run(Drive(a, pass).out, Cancelled)
  {
    DriveAppend(a, [x] + b, pass);
    assert a + [x] + b == a + ([x] + b);
    assert ([x] + b)[0] == x;
  }

  /** A pass that sees an absent flag runs like one that sees True. */
  lemma {:induction false} AbsentFlagRuns<E, O>(io: E, b: seq<Iteration<E>>, pass: E -> Action<O>)
    ensures Drive([Iteration(None, io)] + b, pass) == Drive([Iteration(Some(true), io)] + b, pass)
  {
    assert ([Iteration(None, io)] + b)[1..] == b;
    assert ([Iteration(Some(true), io)] + b)[1..] == b;
  }

  /** What a pipe sees when every chunk in `ds` is written and flushed, in order. */
  function Deliveries(ds: seq<string>): (r: seq<PipeOp>)
    ensures |r| == 2 * |ds|
    ensures forall i :: 0 <= i < |ds| ==> r[2 * i] == PipeOp.Write(ds[i]) && r[2 * i + 1] == Flush
  {
    if ds == [] then [] else [PipeOp.Write(ds[0]), Flush] + Deliveries(ds[1..])
  }

  /** Writing and flushing one chunk. */
  function Deliver(data: string, sink: Delivery): (r: Action<PipeOp>)
    ensures r.Continue? <==> sink == Delivered
    ensures r.Stop? ==> r.why == Failed
    ensures r.Stop? ==> |r.emit| < 2
  {
    match sink
    case Delivered => Continue([PipeOp.Write(data), Flush])
    case WriteFails => Stop([], Failed)
    case FlushFails => Stop([PipeOp.Write(data)], Failed)
  }

  /** Whatever the write or flush does, what reaches the pipe is a prefix of the full delivery. */
  lemma DeliverIsPrefix(data: string, sink: Delivery, rest: seq<string>)
    ensures IsPrefix(Deliver(data, sink).emit, Deliveries([data] + rest))
  {
    assert ([data] + rest)[1..] == rest;
  }

  /** A common head keeps one sequence a prefix of another. */
  lemma PrefixAfter<T>(x: seq<T>, a: seq<T>, b: seq<T>)
    requires IsPrefix(a, b)
    ensures IsPrefix(x + a, x + b)
  {
    assert (x + b)[..|x + a|] == x + b[..|a|];
  }

  /** One delivery followed by a prefix of the rest is a prefix of the whole delivery. */
  lemma DeliverPrefix(data: string, sink: Delivery, out: seq<PipeOp>, rest: seq<string>)
    requires sink == Delivered ==> IsPrefix(out, Deliveries(rest))
    ensures IsPrefix(Deliver(data, sink).emit + (if sink == Delivered then out else []), Deliveries([data] + rest))
  {
    assert Deliveries([data] + rest) == [PipeOp.Write(data), Flush] + Deliveries(rest);
    DeliverIsPrefix(data, sink, rest);
    if sink == Delivered {
      PrefixAfter([PipeOp.Write(data), Flush], out, Deliveries(rest));
    } else {
      assert Deliver(data, sink).emit + [] == Deliver(data, sink).emit;
    }
  }
}
