/**
 * What the two coordinators (the server's `conn` and the client's `main`)
 * share: scanning a sequence of polls for the first one on which to stop,
 * and clearing the `do_run` flags of a chosen set of relay threads.
 *
 * The two files pick different threads to signal. The server signals the
 * threads it found dead, the client the threads it found alive.
 */
module Supervise {
  import opened Common
  import opened Io
  import opened Relay

  /** The position of the first element of `xs` that satisfies `p`, if any. */
  function First<T>(xs: seq<T>, p: T -> bool): (r: Option<nat>)
    ensures r.Some? ==> r.value < |xs| && p(xs[r.value])
    ensures r.Some? ==> forall j :: 0 <= j < r.value ==> !p(xs[j])
    ensures r.None? ==> forall j :: 0 <= j < |xs| ==> !p(xs[j])
  {
    if xs == [] then None
    else if p(xs[0]) then Some(0)
    else match First(xs[1..], p)
      case None => None
      case Some(k) => Some(k + 1)
  }

  /** A position that satisfies `p` with none before it is the one `First` finds. */
  lemma FirstIs<T>(xs: seq<T>, p: T -> bool, k: nat)
    requires k < |xs| && p(xs[k])
    requires forall j :: 0 <= j < k ==> !p(xs[j])
    ensures First(xs, p) == Some(k)
  {
  }

  /** With no position satisfying `p`, `First` finds none. */
  lemma FirstNone<T>(xs: seq<T>, p: T -> bool)
    requires forall j :: 0 <= j < |xs| ==> !p(xs[j])
    ensures First(xs, p) == None
  {
  }

  /** No thread object appears twice. */
  predicate Distinct(ws: seq<Worker>)
  {
    forall i, j :: 0 <= i < j < |ws| ==> ws[i] != ws[j]
  }

  /** The `do_run` attribute of each thread, in order. */
  function Flags(ws: seq<Worker>): (r: seq<Option<bool>>)
    reads ws
    ensures |r| == |ws|
    ensures forall i :: 0 <= i < |ws| ==> r[i] == ws[i].doRun
  {
    if ws == [] then [] else [ws[0].doRun] + Flags(ws[1..])
  }

  /** `do_run` set to False on the threads `targets` selects; every other flag kept. */
  function Cleared(flags: seq<Option<bool>>, targets: seq<bool>): (r: seq<Option<bool>>)
    requires |targets| == |flags|
    ensures |r| == |flags|
    ensures forall i :: 0 <= i < |flags| ==> r[i] == if targets[i] then Some(false) else flags[i]
  {
    if flags == [] then []
    else [if targets[0] then Some(false) else flags[0]] + Cleared(flags[1..], targets[1..])
  }

  /** Which threads a poll found dead: `not h.is_alive()`. */
  function Dead(alive: seq<bool>): (r: seq<bool>)
    ensures |r| == |alive|
    ensures forall i :: 0 <= i < |alive| ==> r[i] == !alive[i]
  {
    if alive == [] then [] else [!alive[0]] + Dead(alive[1..])
  }

  /** Sets `do_run` to False on each thread that `targets` selects, one thread after another. */
  method Signal(handlers: seq<Worker>, targets: seq<bool>)
    requires |targets| == |handlers| && Distinct(handlers)
    modifies handlers
    ensures Flags(handlers) == Cleared(old(Flags(handlers)), targets)
  {
    for i := 0 to |handlers|
      invariant forall j :: 0 <= j < i ==>
        handlers[j].doRun == if targets[j] then Some(false) else old(handlers[j].doRun)
      invariant forall j :: i <= j < |handlers| ==> handlers[j].doRun == old(handlers[j].doRun)
    {
      if targets[i] {
        handlers[i].doRun := Some(false);
      }
    }
  }

  /**
   * Signalling the threads a poll found dead, as the server does, leaves
   * every thread that poll found alive with the flag it had: a live relay
   * whose flag was never set keeps running.
   */
  lemma SignalDeadSparesLive(flags: seq<Option<bool>>, alive: seq<bool>, i: nat)
    requires |alive| == |flags| && i < |flags| && alive[i]
    ensures Cleared(flags, Dead(alive))[i] == flags[i]
    ensures Running(flags[i]) ==> Running(Cleared(flags, Dead(alive))[i])
  {
  }

  /**
   * On the server's two relays: the process has exited, or the relay from
   * the process has ended, while the relay from the connection is still
   * alive with no flag set. After the signalling that relay still runs.
   */
  lemma ServerLeavesRelayRunning()
    ensures Running(Cleared([None, None], Dead([false, true]))[1])
    ensures Running(Cleared([None, None], Dead([true, true]))[0])
    ensures Running(Cleared([None, None], Dead([true, true]))[1])
  {
    SignalDeadSparesLive([None, None], [false, true], 1);
    SignalDeadSparesLive([None, None], [true, true], 0);
    SignalDeadSparesLive([None, None], [true, true], 1);
  }

  /**
   * Signalling the threads a poll found alive, as the client does, stops every
   * one of them: none sees `do_run` True again, whatever flag it had.
   */
  lemma SignalAliveStopsLive(flags: seq<Option<bool>>, alive: seq<bool>)
    requires |alive| == |flags|
    ensures forall i :: 0 <= i < |flags| && alive[i] ==> !Running(Cleared(flags, alive)[i])
    ensures forall i :: 0 <= i < |flags| && !alive[i] ==> Cleared(flags, alive)[i] == flags[i]
  {
  }
}
