/**
 * The external objects the relay code acts on. The outcome of every
 * operation that can raise (a send, a write, a flush) is a parameter
 * supplied by the environment; a raising call changes nothing.
 */
module Io {
  import opened Common

  /** What a pipe (a child's standard input, the console's standard output) has seen. */
  datatype PipeOp = Write(data: string) | Flush

  /**
   * A connected TCP socket: the data of each successful `send` call, in
   * order, and how often it was closed. What reaches the wire is the
   * concatenation of `sent`; an empty send is recorded but puts nothing there.
   */
  class Socket {
    var sent: seq<string>
    var closes: nat

    constructor ()
      ensures sent == [] && closes == 0
    {
      sent := [];
      closes := 0;
    }

    /** `send(data)`: either raises, or records one call carrying all of `data`. */
    method Send(data: string, fails: bool) returns (ok: bool)
      modifies this
      ensures ok == !fails
      ensures sent == if ok then old(sent) + [data] else old(sent)
      ensures closes == old(closes)
    {
      ok := !fails;
      if ok {
        sent := sent + [data];
      }
    }

    method Close()
      modifies this
      ensures sent == old(sent)
      ensures closes == old(closes) + 1
    {
      closes := closes + 1;
    }
  }

  /** A writable text or byte pipe. */
  class Pipe {
    var ops: seq<PipeOp>

    constructor ()
      ensures ops == []
    {
      ops := [];
    }

    method Write(data: string, fails: bool) returns (ok: bool)
      modifies this
      ensures ok == !fails
      ensures ops == if ok then old(ops) + [PipeOp.Write(data)] else old(ops)
    {
      ok := !fails;
      if ok {
        ops := ops + [PipeOp.Write(data)];
      }
    }

    method Flush(fails: bool) returns (ok: bool)
      modifies this
      ensures ok == !fails
      ensures ops == if ok then old(ops) + [PipeOp.Flush] else old(ops)
    {
      ok := !fails;
      if ok {
        ops := ops + [PipeOp.Flush];
      }
    }
  }

  /** The child engine process: how often `kill` was called on it. */
  class Process {
    var kills: nat

    constructor ()
      ensures kills == 0
    {
      kills := 0;
    }

    method Kill()
      modifies this
      ensures kills == old(kills) + 1
    {
      kills := kills + 1;
    }
  }

  /**
   * A relay thread, as far as the code touches it: the `do_run` attribute,
   * which starts out absent (None) and is only ever set by the coordinator.
   */
  class Worker {
    var doRun: Option<bool>

    constructor ()
      ensures doRun == None
    {
      doRun := None;
    }
  }
}
