/** The overlapped named-pipe transport: a client whose `Read`, `Write` and
    `FinishIO` drive a connection state together with a pending-I/O flag, and
    a server whose `AcceptClient` wraps its pipe in such a client. The state
    machine is stated as functions on `Conn`; the class methods are proved
    against them. Every OS call's outcome is a parameter. */
module AsyncNamedPipe {
  import opened Win32
  import opened PipeName
  import opened NamedPipe

  /** `fIOState`: `kIdle`, `kConnecting`, `kReading`, `kWriting`. */
  datatype IOState = Idle | Connecting | Reading | Writing

  /** `fIOState` together with `fPendingIO`. */
  datatype Conn = Conn(state: IOState, pending: bool)

  /** What a call returns, and the connection afterwards. */
  datatype Step = Step(ret: int, conn: Conn)

  /** The phase that follows a completed one: connecting, then reading and
      writing in turn. An idle connection has no phase to complete. */
  function NextPhase(s: IOState): IOState
  {
    match s
    case Idle => Idle
    case Connecting => Reading
    case Reading => Writing
    case Writing => Reading
  }

  /** The connection of a default-constructed client. */
  const Unused: Conn := Conn(Idle, false)

  /** The connection of a client built around an accepted pipe: still
      connecting if the accept was pending, ready to read otherwise. */
  function Accepted(pending: bool): (c: Conn)
    ensures c.pending == pending && c.state != Idle
    ensures c.state == Connecting <==> pending
    ensures !pending ==> c.state == Reading
  {
    Conn(if pending then Connecting else Reading, pending)
  }

  /** `FinishIO`: `success` and `transferred` are what `GetOverlappedResult`
      reports. A completed phase advances; a failed or empty one returns -1
      and changes nothing; an idle connection always returns 0. The pending
      flag is neither read nor written. */
  function Finish(c: Conn, success: bool, transferred: DWORD): (r: Step)
    ensures r.ret == 0 || r.ret == -1
    ensures r.conn.pending == c.pending
    ensures r.ret == 0 <==> c.state == Idle || (success && (c.state == Connecting || transferred != 0))
    ensures r.ret == 0 ==> r.conn.state == NextPhase(c.state)
    ensures r.ret == -1 ==> r.conn == c
  {
    match c.state
    case Connecting => if !success then Step(-1, c) else Step(0, c.(state := Reading))
    case Reading => if !success || transferred == 0 then Step(-1, c) else Step(0, c.(state := Writing))
    case Writing => if !success || transferred == 0 then Step(-1, c) else Step(0, c.(state := Reading))
    case Idle => Step(0, c)
  }

  /** The rule `Read` and `Write` share, given what `ReadFile`/`WriteFile`
      returned (`res`, `transferred`) and `GetLastError`. An operation that
      completes at once moves to `Writing`, for `Write` as well as `Read`; one
      the OS queued sets the pending flag and keeps the state; anything else
      returns -1 and changes nothing. */
  function Issue(c: Conn, res: bool, transferred: DWORD, lastError: ErrorCode): (r: Step)
    ensures r.ret == 0 || r.ret == -1
    ensures r.ret == 0 <==> (res && transferred != 0) || (!res && lastError == ERROR_IO_PENDING)
    ensures r.ret == 0 ==> (r.conn.pending <==> !res)
    ensures r.ret == 0 && !r.conn.pending ==> r.conn.state == Writing
    ensures r.conn.pending ==> r.conn.state == c.state
    ensures r.ret == -1 ==> r.conn == c
  {
    if res && transferred != 0 then Step(0, Conn(Writing, false))
    else if !res && lastError == ERROR_IO_PENDING then Step(0, c.(pending := true))
    else Step(-1, c)
  }

  /** One call on a client, with the OS outcome it sees. */
  datatype Event =
    | FinishIO(success: bool, transferred: DWORD)
    | ReadIO(res: bool, transferred: DWORD, lastError: ErrorCode)
    | WriteIO(res: bool, transferred: DWORD, lastError: ErrorCode)

  function Apply(c: Conn, e: Event): Step
  {
    match e
    case FinishIO(success, transferred) => Finish(c, success, transferred)
    case ReadIO(res, transferred, lastError) => Issue(c, res, transferred, lastError)
    case WriteIO(res, transferred, lastError) => Issue(c, res, transferred, lastError)
  }

  /** The connection after a sequence of calls. */
  function Run(c: Conn, events: seq<Event>): Conn
    decreases |events|
  {
    if events == [] then c else Run(Apply(c, events[0]).conn, events[1..])
  }

  /** A `Read` or `Write` the OS completed at once. */
  predicate CompletesAtOnce(e: Event)
  {
    !e.FinishIO? && e.res && e.transferred != 0
  }

  /** A `Read` or `Write` the OS queued. */
  predicate Defers(e: Event)
  {
    !e.FinishIO? && !e.res && e.lastError == ERROR_IO_PENDING
  }

  /** Once out of `Idle`, a connection never returns to it. */
  lemma {:induction false} NeverBackToIdle(c: Conn, events: seq<Event>)
    requires c.state != Idle
    ensures Run(c, events).state != Idle
    decreases |events|
  {
    if events != [] {
      NeverBackToIdle(Apply(c, events[0]).conn, events[1..]);
    }
  }

  /** A client built around an accepted pipe is never idle. */
  lemma AcceptedNeverIdle(pending: bool, events: seq<Event>)
    ensures Run(Accepted(pending), events).state != Idle
  {
    NeverBackToIdle(Accepted(pending), events);
  }

  /** An idle connection stays idle exactly as long as no `Read` or `Write`
      completes at once; `FinishIO` never takes it out of `Idle`. */
  lemma {:induction false} IdleUntilCompletedTransfer(c: Conn, events: seq<Event>)
    requires c.state == Idle
    ensures Run(c, events).state == Idle <==> forall i :: 0 <= i < |events| ==> !CompletesAtOnce(events[i])
    decreases |events|
  {
    if events != [] {
      var next := Apply(c, events[0]).conn;
      if CompletesAtOnce(events[0]) {
        NeverBackToIdle(next, events[1..]);
      } else {
        assert next.state == Idle;
        IdleUntilCompletedTransfer(next, events[1..]);
        assert forall i :: 1 <= i < |events| ==> events[i] == events[1..][i - 1];
      }
    }
  }

  /** The pending flag is raised only by a queued `Read` or `Write` and
      cleared only by one that completed at once; `FinishIO` never touches it. */
  lemma {:induction false} PendingFollowsIssues(c: Conn, events: seq<Event>)
    ensures Run(c, events).pending && !c.pending ==> exists i :: 0 <= i < |events| && Defers(events[i])
    ensures !Run(c, events).pending && c.pending ==> exists i :: 0 <= i < |events| && CompletesAtOnce(events[i])
    decreases |events|
  {
    if events != [] {
      var next := Apply(c, events[0]).conn;
      PendingFollowsIssues(next, events[1..]);
      if Run(c, events).pending && !c.pending && !Defers(events[0]) {
        assert !next.pending;
        var i :| 0 <= i < |events[1..]| && Defers(events[1..][i]);
        assert Defers(events[i + 1]);
      }
      if !Run(c, events).pending && c.pending && !CompletesAtOnce(events[0]) {
        assert next.pending;
        var i :| 0 <= i < |events[1..]| && CompletesAtOnce(events[1..][i]);
        assert CompletesAtOnce(events[i + 1]);
      }
    }
  }

  /** Queued reads and writes alternate: a read completed through `FinishIO`
      leads to `Writing`, a write completed through `FinishIO` back to
      `Reading`. A write the OS completes at once stays in `Writing`. */
  lemma WriteCompletionPaths(pending: bool, transferred: DWORD, lastError: ErrorCode)
    requires transferred != 0
    ensures Finish(Issue(Conn(Reading, pending), false, 0, ERROR_IO_PENDING).conn, true, transferred).conn.state == Writing
    ensures Finish(Issue(Conn(Writing, pending), false, 0, ERROR_IO_PENDING).conn, true, transferred).conn.state == Reading
    ensures Issue(Conn(Writing, pending), true, transferred, lastError).conn.state == Writing
  {
  }

  /** `JackWinAsyncNamedPipeClient`. */
  class AsyncPipeClient {
    /** The `JackWinNamedPipeClient` part: the handle and name, with its
        `Connect`, `ConnectNamed` and `Close`. */
    const pipe: PipeClient
    var state: IOState
    var pending: bool

    function Status(): Conn
      reads this
    {
      Conn(state, pending)
    }

    /** No pipe yet; idle, nothing pending. */
    constructor ()
      ensures fresh(pipe) && pipe.handle == INVALID_HANDLE_VALUE && pipe.name == ""
      ensures Status() == Unused
    {
      pipe := new PipeClient();
      state := Idle;
      pending := false;
    }

    /** Around a pipe a server accepted; `isPending` says whether the
        connection is still being made. */
    constructor FromHandle(h: Handle, isPending: bool)
      ensures fresh(pipe) && pipe.handle == h && pipe.name == ""
      ensures Status() == Accepted(isPending)
    {
      pipe := new PipeClient.FromHandle(h);
      pending := isPending;
      state := if isPending then Connecting else Reading;
    }

    method FinishIO(success: bool, transferred: DWORD) returns (r: int)
      modifies this
      ensures Step(r, Status()) == Finish(old(Status()), success, transferred)
    {
      match state {
        case Connecting =>
          if !success {
            return -1;
          }
          state := Reading;
        case Reading =>
          if !success || transferred == 0 {
            return -1;
          }
          state := Writing;
        case Writing =>
          if !success || transferred == 0 {
            return -1;
          }
          state := Reading;
        case Idle =>
      }
      r := 0;
    }

    /** `read` and `res` are what `ReadFile` returned; `lastError` is what
        `GetLastError` reports at the test, after the logging call that
        follows `ReadFile`. */
    method Read(res: bool, read: DWORD, lastError: ErrorCode) returns (r: int)
      modifies this
      ensures Step(r, Status()) == Issue(old(Status()), res, read, lastError)
    {
      if res && read != 0 {
        pending := false;
        state := Writing;
        r := 0;
      } else if !res && lastError == ERROR_IO_PENDING {
        pending := true;
        r := 0;
      } else {
        r := -1;
      }
    }

    /** `written` and `res` are what `WriteFile` returned; `lastError` is
        what `GetLastError` reports at the test. */
    method Write(res: bool, written: DWORD, lastError: ErrorCode) returns (r: int)
      modifies this
      ensures Step(r, Status()) == Issue(old(Status()), res, written, lastError)
    {
      if res && written != 0 {
        pending := false;
        state := Writing;
        r := 0;
      } else if !res && lastError == ERROR_IO_PENDING {
        pending := true;
        r := 0;
      } else {
        r := -1;
      }
    }
  }

  /** `JackWinAsyncNamedPipeServer`. */
  class AsyncPipeServer {
    /** The `JackWinNamedPipeServer` part: the handle and name, with its `Close`. */
    const pipe: PipeServer

    constructor ()
      ensures fresh(pipe) && pipe.handle == INVALID_HANDLE_VALUE && pipe.name == ""
    {
      pipe := new PipeServer();
    }

    /** `Bind(dir, which)` with the pipe opened for overlapped I/O. */
    method Bind(dir: string, which: int32, created: Handle) returns (r: int)
      modifies pipe
      ensures pipe.name == TwoPartName(dir, which) && pipe.handle == created
      ensures r == 0 || r == -1
      ensures r == 0 <==> pipe.handle != INVALID_HANDLE_VALUE
    {
      r := pipe.Bind(dir, which, created);
    }

    /** `Bind(dir, name, which)` with the pipe opened for overlapped I/O. */
    method BindNamed(dir: string, pipeName: string, which: int32, created: Handle) returns (r: int)
      modifies pipe
      ensures pipe.name == ThreePartName(dir, pipeName, which) && pipe.handle == created
      ensures r == 0 || r == -1
      ensures r == 0 <==> pipe.handle != INVALID_HANDLE_VALUE
    {
      r := pipe.BindNamed(dir, pipeName, which, created);
    }

    /** Not supported in overlapped mode. */
    method Accept() returns (ok: bool)
      ensures !ok
    {
      ok := false;
    }

    /** Wraps the server's pipe in a new client. The server keeps its handle
        on every path, so the client and the server both hold it. */
    method AcceptClient(connected: bool, lastError: ErrorCode) returns (client: AsyncPipeClient?)
      ensures connected || lastError == ERROR_PIPE_CONNECTED ==>
                client != null && fresh(client) && fresh(client.pipe)
                && client.pipe.handle == pipe.handle && client.pipe.name == ""
                && client.Status() == Accepted(false)
      ensures !connected && lastError == ERROR_IO_PENDING ==>
                client != null && fresh(client) && fresh(client.pipe)
                && client.pipe.handle == pipe.handle && client.pipe.name == ""
                && client.Status() == Accepted(true)
      ensures !connected && lastError != ERROR_IO_PENDING && lastError != ERROR_PIPE_CONNECTED ==>
                client == null
    {
      if connected {
        client := new AsyncPipeClient.FromHandle(pipe.handle, false);
      } else if lastError == ERROR_IO_PENDING {
        client := new AsyncPipeClient.FromHandle(pipe.handle, true);
      } else if lastError == ERROR_PIPE_CONNECTED {
        client := new AsyncPipeClient.FromHandle(pipe.handle, false);
      } else {
        client := null;
      }
    }
  }

  /** An accept that is still pending yields a connecting client; once the
      peer arrives, one `FinishIO` makes it ready to read. The pending flag
      stays raised, since `FinishIO` never clears it. */
  method PendingAcceptThenConnect(server: AsyncPipeServer, transferred: DWORD)
    returns (client: AsyncPipeClient, r: int)
    ensures r == 0 && client.Status() == Conn(Reading, true)
    ensures client.pipe.handle == server.pipe.handle
  {
    var accepted := server.AcceptClient(false, ERROR_IO_PENDING);
    client := accepted;
    r := client.FinishIO(true, transferred);
  }
}
