# stockfish-remote relay core, modelled in Dafny

stockfish-remote lets a chess GUI on one machine drive a Stockfish engine that
runs on another machine. The server (`server.py`) accepts a TCP connection,
starts the engine, and runs two relay threads:

- `proc2conn` copies the engine's output lines to the connection. On the way it
  replaces the version number with the word `Remote` in every line that
  matches the version pattern, such as the engine's identity banner.
- `conn2proc` copies received chunks to the engine's standard input, and drops
  chunks that are exactly the keepalive ping.

A coordinator loop (`conn`) polls the engine and the two threads. When the
engine has exited or a thread is gone, it clears `do_run` on the threads it
found dead (not on the live ones), kills the engine and closes the connection.

The client (`client.py`) runs three threads:

- `sock2pipe` copies socket data to the console.
- `pipe2sock` copies console lines to the socket.
- `sock_keepalive` sends a ping whenever `timeout` seconds have passed since
  its own last ping (or since it started), whatever other traffic the socket
  carries.

Its own coordinator in `main` stops the threads when one of them dies.

The model keeps the sequential decision logic inside these loops and treats all
I/O as sequences:

- **Relay passes.** Every relay loop is an imperative method over a sink object:
  `Io.Pipe` for a pipe, `Io.Socket` for a socket. The method is driven by the
  sequence of passes the loop gets to make. Each pass carries the thread's
  `do_run` flag and what that pass's I/O produced. The body of the `try` is a
  method of its own, proved to do what the loop's one-pass decision says. The
  loop method is proved equal to a specification function, `Relay.Drive`,
  instantiated with that decision.
- **Reference definitions.** Lemmas relate each run to an independent reference:
  - the chunks received, up to the first zero-length one;
  - the pings filtered out;
  - each line masked.

  Under any pattern of failures the output is a prefix of the reference. When
  nothing fails it is equal to the reference.
- **Version mask.** The rewrite is a pure function on strings. Lemmas tie it to
  every way the regular expression can match a line, with Python's greedy,
  anchored, newline-aware semantics written out.
- **Keepalive.** The emitter is an integer-clock state machine over a given
  sequence of clock readings.
- **Coordinators.** Each coordinator is a method over worker objects that carry
  the `do_run` attribute, a process object and a socket object. It is driven by
  a sequence of polls.

Files:

- `common.dfy`: the `Option` type and the prefix predicate.
- `io.dfy`: the socket, pipe, process and thread objects. Whether an operation
  raises is an input to it.
- `relay.dfy`: the generic loop `Drive`, the I/O events, and `Deliveries`, the
  write-then-flush sequence.
- `version_mask.dfy`: the version-masking rewrite.
- `supervise.dfy`: the helpers the two coordinators share, and the
  flag-signalling lemmas.
- `server.dfy`: `conn2proc`, `proc2conn` and `conn`.
- `client.dfy`: `write2sock`, `pipe2sock`, `sock2pipe`, `sock_keepalive` and the
  coordinator in `main`.

Two behaviours of the code are worth stating outright, since the model follows
them:

- **End of stream.** `proc2conn` (server.py:31-39) and `pipe2sock`
  (client.py:29-30) do not stop at end of stream. `readline` returns an empty
  string there, the empty string is sent, and the loop goes on.
  `Server.Proc2ConnSmooth` and `Client.Pipe2SockSmooth` state this.
- **Which threads are signalled.** The server's coordinator clears `do_run` on
  the relays it found dead; the client's clears it on the threads it found
  alive (client.py:130). See Findings.

## Model

| member | source | states |
|---|---|---|
| VersionMask.Matching | server.py:19 | definition: the ways of cutting a line into `pre`, `Stockfish `, the first number, `.`, the second number, `app` and what follows `$`, under which the pattern matches: `.` takes no newline, both numbers are `[0-9]+`, and `$` matches at the end or before one final newline |
| VersionMask.Chosen | server.py:19 | definition: the matching cut that `REGEXP.match` (server.py:35), a backtracking engine with greedy quantifiers settles on, the one with the longest `pre` and, for that `pre`, the longest second number |
| VersionMask.Masked | server.py:20 | definition: the line after the replacement of a given cut, `pre` + "Stockfish Remote" + `app` + what follows `$` |
| VersionMask.DigitRun | server.py:19 | the run found after a position is all digits and is maximal: it ends at the end of the text or before a non-digit |
| VersionMask.LastToken | server.py:19 | the position found holds a complete version token, and no later position up to the bound starts one: the greedy `pre` takes the rightmost token |
| VersionMask.Parse | server.py:35 | whether the pattern matches the line and, when it does, the groups the match captures; its properties are stated by `ParseSound`, `ParseComplete` and `ParseChooses` |
| VersionMask.Rewrite | server.py:35-36 | the line as sent: the masked text of the match when the pattern matches, the line itself otherwise; its properties are stated by the `Rewrite…` lemmas below |
| VersionMask.ParseSound | server.py:35 | when the match succeeds, its groups reassemble the line; `pre` and `app` hold no newline; both numbers are digit runs; the second number is maximal |
| VersionMask.ParseComplete | server.py:35 | whenever any assignment of the groups matches the line, the match succeeds; its `pre` is at least as long; with equal `pre` its second number is at least as long |
| VersionMask.MatchingUnique | server.py:19 | an assignment of the groups is fixed by the lengths of `pre` and of the second number |
| VersionMask.ParseChooses | server.py:35 | the match succeeds exactly when some assignment matches the line, and it is then the greedy one |
| VersionMask.RewriteMasksChosen | server.py:35-36 | a matching line becomes `pre` + "Stockfish Remote" + `app` + its final newline, where `pre` and `app` are the greedy match's groups and are otherwise unchanged |
| VersionMask.RewriteUnchanged | server.py:35-39 | a line is sent unchanged if and only if the pattern does not match it |
| VersionMask.RewriteKeepsNewline | server.py:31-36 | for a text without a newline, rewriting it with a newline appended equals rewriting it and then appending the newline |
| VersionMask.RewriteKeepsLineEnd | server.py:19 | the rewritten line ends in a newline if and only if the line read did |
| VersionMask.RewriteRightmost | server.py:19-20 | if a matching assignment's `pre` ends at the last 'S' of the line and the second number is followed by a non-digit, that assignment is the one masked |
| VersionMask.BannerLineMasked | server.py:19-20 | the line "id name Stockfish 15.1 64-bit" with a newline becomes "id name Stockfish Remote 64-bit" with a newline |
| VersionMask.UciokUnchanged | server.py:35-39 | "uciok" with a newline passes through unchanged |
| VersionMask.OnlyLastTokenMasked | server.py:19-20 | with two version tokens on a line, only the last one is masked |
| VersionMask.RewriteNotIdempotent | server.py:36 | rewriting is applied once per line: a second pass over the masked two-token line would change it again |
| Relay.Running | server.py:27 | definition: the loop test `getattr(t, 'do_run', True)`: true exactly when the attribute is absent or True |
| Relay.Drive | server.py:27-41 | a loop run over its passes: each pass first tests the flag, ends the loop as Cancelled when it is down, else makes the pass; a pass that breaks out ends the loop with its cause, one that goes on adds its output |
| Relay.DriveExit | server.py:27-41 | a run is still going exactly when every pass saw the flag up and went on; it was cancelled only if some pass saw the flag down; it ended for a cause only if some pass broke out for that cause |
| Relay.DriveAppend | server.py:52-69 | a loop run over two stretches of passes: once it has ended, no later pass is looked at; otherwise the output of the second stretch follows the output of the first |
| Relay.DriveHaltsOnClearedFlag | client.py:27 | a pass that finds `do_run` False ends the loop with nothing more emitted, whatever input follows |
| Relay.AbsentFlagRuns | client.py:42 | a pass whose `do_run` attribute is absent runs like one that sees True |
| Relay.Deliveries | server.py:66-67 | delivering a list of chunks writes each chunk, then flushes, in order: element 2i is the write of chunk i and element 2i+1 is a flush |
| Relay.Deliver | server.py:66-67 | writing and flushing one chunk: the loop goes on exactly when both succeed; a raise ends it as a failure, before the flush when the write raised |
| Relay.DeliverIsPrefix | server.py:66-69 | whether the write or the flush raises, what reaches the pipe is a prefix of the full delivery |
| Supervise.First | server.py:112-122 | the poll on which the loop stops satisfies the stop test, no earlier poll does, and with no such poll the loop never stops |
| Supervise.Cleared | server.py:116-117 | exactly the selected threads get `do_run` False; every other flag is kept |
| Supervise.Dead | server.py:116 | a thread is selected exactly when its poll says it is not alive |
| Supervise.Signal | client.py:130-131 | the threads' new flags are the old flags with `do_run` False on exactly the selected threads |
| Supervise.SignalDeadSparesLive | server.py:116-117 | signalling the dead threads leaves every live thread's flag as it was, so a live thread that was running keeps running |
| Supervise.ServerLeavesRelayRunning | server.py:113-117 | when the engine has exited with both relays alive, or one relay has died, the other live relay still runs after the signalling |
| Supervise.SignalAliveStopsLive | client.py:129-131 | signalling the live threads stops every one of them and leaves the dead ones as they were |
| Server.Conn2ProcPass | server.py:54-67 | one pass of conn2proc: a timed-out select does nothing; the loop ends as peer-closed exactly on a zero-length chunk; anything written is the chunk received, never an exact ping |
| Server.Conn2ProcTry | server.py:53-69 | the body of one pass: the pipe receives exactly what the pass emits, and the pass reports a break-out exactly when it stops the loop, with its cause |
| Server.Conn2Proc | server.py:52-69 | the engine's standard input receives exactly the output of the conn2proc run, and the method reports the same exit |
| Server.Forwarded | server.py:63-64 | a chunk is forwarded if and only if it was received and is not exactly the ping; nothing is added |
| Server.Conn2ProcPrefix | server.py:56-67 | under any failures the engine sees a prefix of: every received chunk other than an exact ping, in order, each written and then flushed, with nothing from after the first zero-length chunk |
| Server.Conn2ProcSmooth | server.py:56-67 | with no failures and the flag up, the engine sees exactly that sequence, and the loop ends (peer closed) exactly when a zero-length chunk arrives |
| Server.Conn2ProcStopsAtHangup | server.py:56-59 | once a zero-length chunk is received the loop ends, and nothing received later reaches the engine |
| Server.Proc2ConnPass | server.py:29-39 | one pass of proc2conn: the only thing sent is the masked line read; the pass never ends the loop except by a raise, and an empty read at end of stream is sent |
| Server.Proc2ConnTry | server.py:28-41 | the body of one pass: the connection receives exactly what the pass emits (the masked line), it is not closed, and the pass reports a break-out exactly when it stops the loop |
| Server.Proc2Conn | server.py:27-41 | the connection receives exactly the output of the proc2conn run, and the method reports the same exit; the connection is never closed here |
| Server.MaskedLines | server.py:35-36 | the i-th line sent is the rewrite of the i-th line read |
| Server.Proc2ConnPrefix | server.py:27-39 | under any failures the connection sees a prefix of the lines read, each masked, in read order |
| Server.Proc2ConnSmooth | server.py:27-39 | with no failures and the flag up, every line read, the empty end-of-stream read included, is sent exactly once, masked, in order, and the loop does not end by itself |
| Server.ServerStops | server.py:113-114 | definition: the coordinator's stop test: the engine has exited, or some relay is not alive |
| Server.Shutdown | server.py:116-124 | once the coordinator stops: the chosen relays get `do_run` False and every other flag is kept; the engine is killed once and the connection closed once |
| Server.KillAndClose | server.py:119-124 | the engine is killed once and the connection closed once, nothing sent on it |
| Server.Conn | server.py:112-124 | stops on the first poll where the engine has exited or a relay is dead; then clears `do_run` exactly on the dead relays and leaves the live ones' flags untouched; kills the engine once; closes the connection once; nothing of that happens if it never stops |
| Server.ConnIntended | server.py:112-124 | the same loop, except that on stopping it clears `do_run` on the relays still alive, so that none of them runs another pass |
| Client.Write2Sock | client.py:18-20 | one send is one atomic append to the socket, or nothing if it raises |
| Client.Pipe2SockPass | client.py:29-30 | one pass of pipe2sock: the loop goes on exactly when the line was read and sent, and what is sent is that line unchanged; a raise ends it as a failure |
| Client.Pipe2SockTry | client.py:28-33 | the body of one pass: the socket receives exactly what the pass emits (the line read), and the pass reports a break-out exactly when it stops the loop |
| Client.Pipe2Sock | client.py:27-33 | the socket receives exactly the output of the pipe2sock run, and the method reports the same exit |
| Client.Pipe2SockPrefix | client.py:29-30 | under any failures the socket sees a prefix of the lines read, unchanged and in order |
| Client.Pipe2SockSmooth | client.py:27-33 | with no failures and the flag up, every line read is sent once, in order, and an empty read does not end the loop |
| Client.Sock2PipePass | client.py:44-50 | one pass of sock2pipe: the loop ends as peer-closed exactly on a zero-length chunk, goes on exactly when a non-empty chunk was written and flushed, and writes only the chunk received |
| Client.Sock2PipeTry | client.py:43-53 | the body of one pass: the console receives exactly what the pass emits, and the pass reports a break-out exactly when it stops the loop, with its cause |
| Client.Sock2Pipe | client.py:42-53 | the console receives exactly the output of the sock2pipe run, and the method reports the same exit |
| Client.Sock2PipePrefix | client.py:44-50 | under any failures the console sees a prefix of: the chunks received, unchanged and each flushed, in order, with nothing from after the first zero-length chunk |
| Client.Sock2PipeSmooth | client.py:44-50 | with no failures and the flag up, the console sees every chunk received, pings included, and the loop ends exactly when a zero-length chunk arrives |
| Client.Keepalive | client.py:62-73 | the keepalive loop from a given `mark`: the pings it sends, its final `mark`, and why it stopped; at most one ping per tick, it never ends as peer-closed, and `mark` moves only with a ping or a failed send |
| Client.SockKeepalive | client.py:62-73 | the socket receives one ping per send of the keepalive run; the method returns that run's exit and final mark |
| Client.KeepaliveSpacing | client.py:62-67 | whatever the clock does, the first ping goes out at least `timeout` after the starting mark; consecutive pings are at least `timeout` apart; each ping is stamped with a clock reading of the run |
| Client.KeepaliveAppend | client.py:65-69 | a further tick on which no send raises (none is tried, or it goes through) sends a ping exactly when `ts - mark >= timeout`, and then moves `mark` to `ts`; otherwise `mark` stays |
| Client.KeepaliveStopsOnFailedSend | client.py:66-71 | when a due ping's send raises, `mark` has already moved to `ts` and the loop ends; no later tick is looked at |
| Client.KeepaliveNeverOverdue | client.py:65-67 | with a positive timeout, after every tick the loop gets through, less than `timeout` has passed since `mark` |
| Client.KeepaliveHaltsOnClearedFlag | client.py:64 | a tick that finds `do_run` False ends the loop: no ping is sent on it or on any later tick, and `mark` stays where it was |
| Client.KeepaliveAbsentFlagRuns | client.py:64 | a tick that finds no `do_run` attribute runs like one that finds it True |
| Client.ClientStops | client.py:129 | definition: the client coordinator's stop test: some thread is not alive |
| Client.Coordinate | client.py:128-135 | stops on the first poll that finds a dead thread; then clears `do_run` exactly on the live threads, so that none of them runs another pass; closes the socket once, on leaving the `with` block |

## Left out

- Threads, `daemon`, the shared lock and scheduling. Each loop is modelled on its own over its sequence of passes. `write2sock` is one atomic append.
- `select` and its timeout. A pass either timed out or read something; the time spent waiting is not modelled.
- Sockets, pipes, `subprocess.Popen`, `poll` and `kill` are modelled as objects that record what was done to them. Whether a call raises is an input to the pass.
- Partial sends: `socket.send` may send only part of its data. The code ignores its return value, and the model treats every successful send as complete.
- UTF-8 decoding and encoding. Payloads are strings. A decode that raises is folded into the abstract failure events (`Broken`, `Unreadable`), which end the loop like any other exception.
- `time.time()` and `time.sleep()`. The keepalive takes its clock readings as a given sequence of integers, already truncated by `int`. The `start` reading is a parameter.
- The constants of the `env` module, which is not part of this model. `PING`, the keepalive timeout and the start time are parameters; buffer sizes and the other timeouts have no effect on the modelled logic.
- Each coordinator evaluates `is_alive()` twice per poll: once in the stop test and once when choosing the threads to signal. The model uses one snapshot per poll for both, so a thread dying between the two calls is not modelled.
- The server's accept loop and socket setup (server.py:165-187), argument parsing in `main()` (server.py:128-163), the executable check, and logging are I/O and CLI concerns.
- The `with` block of the client is modelled only by its close on leaving the coordinator loop. Connecting the socket is not modelled.

## Findings

| source | as written | input that shows it | evidently intended | confidence | as-written member | corrected member |
|---|---|---|---|---|---|---|
| server.py:116 | on stopping, the coordinator sets `do_run = False` on the relays that are *not* alive, which already stopped, and leaves the live relay's flag untouched | a poll where the engine has exited and both relays are alive, or one where the engine-to-connection relay has died and the other is alive: the live relays are still `Running` afterwards (`Supervise.ServerLeavesRelayRunning`) | clear `do_run` on the relays still alive, as the client does at client.py:130 | medium, not executed | Server.Conn | Server.ConnIntended |

Killing the engine and closing the connection usually make the surviving relay's next I/O raise, so the live thread ends anyway. That is why the confidence is medium rather than high.
