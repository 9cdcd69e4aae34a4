# JACK Win32 named-pipe transport, modelled in Dafny

This project models the named-pipe transport that the JACK audio server uses
on Windows to exchange control and setup messages between the server and its
clients (`windows/JackWinNamedPipe.cpp`). It has two pairs of endpoints:

- a blocking pair. `JackWinNamedPipeClient` opens a pipe by name.
  `JackWinNamedPipeServer` creates the pipe, waits for a client and hands
  the connected pipe to a new client object;
- an overlapped pair. `JackWinAsyncNamedPipeClient` keeps a connection
  state (`kIdle`, `kConnecting`, `kReading`, `kWriting`) and a pending-I/O
  flag. Its `Read`, `Write` and `FinishIO` move them.
  `JackWinAsyncNamedPipeServer` wraps its pipe in such a client.

Each Win32 call is replaced by its outcome, passed in as a parameter. That
means the handle returned by `CreateFile` or `CreateNamedPipe`, the BOOL
result, the DWORD byte count and the `GetLastError` code. With those as
inputs, every operation is a deterministic step.

Files:

- `win32.dfy` (module `Win32`) holds the basic Win32 values. `int32` is C
  `int` and `DWORD` is 32-bit unsigned. `ToDword` is the `(DWORD)len`
  conversion. Handles are integers with the sentinel `INVALID_HANDLE_VALUE
  = -1`. The error codes are `ERROR_PIPE_CONNECTED = 535` and
  `ERROR_IO_PENDING = 997`. A `Kernel` object records the
  `DisconnectNamedPipe`/`CloseHandle` calls made on it, so that a release
  can be seen and counted.
- `pipe_name.dfy` (module `PipeName`) renders the rendezvous names
  `\\.\pipe\<dir>_jack_<which>` and `\\.\pipe\<dir>_jack_<name>_<which>` the
  way `sprintf` does, with `%d` written out as `Decimal`. It also gives
  `SlotOf`, which reads the slot index back from a name.
- `named_pipe.dfy` (module `NamedPipe`) holds the blocking transfer rule
  and the classes `PipeClient` and `PipeServer`. Each class has the fields
  `handle` (`fNamedPipe`) and `name` (`fName`).
- `async_named_pipe.dfy` (module `AsyncNamedPipe`) has the connection state
  machine as functions on `Conn` (state plus pending flag): `Finish` for
  `FinishIO` and `Issue` for the rule `Read` and `Write` share. It also has
  lemmas about sequences of calls, and the classes `AsyncPipeClient` and
  `AsyncPipeServer`. Their methods are proved against those functions.

In C++ the overlapped classes derive from the blocking ones. Here each
overlapped class holds its blocking part in a `const pipe` field instead.
The inherited `Connect`, `Close` and handle are reached through that field,
for example `client.pipe.Close(kernel)`.

The model follows the code as written, including these behaviours, which
break the strict read/write alternation and single ownership that the
transport otherwise keeps:

- A default-constructed overlapped client starts in `kIdle`, not in
  `kReading`. `FinishIO` has no case for `kIdle`: it returns 0 and changes
  nothing.
- A `Write` that completes at once moves the state to `kWriting`, the same
  as `Read` (line 214). A write completed later through `FinishIO` moves
  from `kWriting` to `kReading`. `WriteCompletionPaths` states both.
- `FinishIO` neither reads nor clears the pending flag. After a pending
  accept completes, the client is in `kReading` with the flag still
  raised (`PendingAcceptThenConnect`).
- The blocking server gives up its handle only when `ConnectNamedPipe`
  succeeds at once. On the `ERROR_PIPE_CONNECTED` path the server and the
  new client both hold the handle, and closing both releases it twice
  (`PipeConnectedReleasesTwice`). The overlapped server never gives up its
  handle on any path.
- `Connect`, `ConnectNamed`, `Bind` and `BindNamed` store the new handle
  over any handle already held, without releasing it.
- Both overlapped-client constructors create the completion event
  signaled, the pending form included (the event itself is left out, see
  below).

## Model

| member | source | states |
|---|---|---|
| `Win32.ToDword` | windows/JackWinNamedPipe.cpp:38 | `(DWORD)len` keeps a non-negative length and maps a negative one to `len + 2^32` |
| `PipeName.DecimalRoundTrip` | windows/JackWinNamedPipe.cpp:60 | the `%d` rendering of any integer reads back as that integer |
| `PipeName.TwoPartName` | windows/JackWinNamedPipe.cpp:60 | `\\.\pipe\<dir>_jack_<which>` lies under the local pipe namespace, and its slot index can be read back from it |
| `PipeName.ThreePartName` | windows/JackWinNamedPipe.cpp:82 | `\\.\pipe\<dir>_jack_<name>_<which>` lies under the local pipe namespace, and its slot index can be read back from it |
| `PipeName.TwoPartNameInjective` | windows/JackWinNamedPipe.cpp:229 | two two-part names are equal only when both the tag and the slot are equal, so distinct slots never meet |
| `PipeName.ThreePartNameSlotsDistinct` | windows/JackWinNamedPipe.cpp:251 | for a fixed tag and logical name, distinct slots give distinct three-part names |
| `PipeName.ThreePartNameCollides` | windows/JackWinNamedPipe.cpp:347 | a `_jack_` inside the tag or the logical name lets two different (tag, name) pairs share one three-part name |
| `NamedPipe.TransferResult` | windows/JackWinNamedPipe.cpp:34-56 | a blocking read or write returns 0 exactly when the bytes moved equal the requested length (modulo 2^32 for a negative length), and -1 otherwise |
| `NamedPipe.TransferIgnoresOsResult` | windows/JackWinNamedPipe.cpp:37-38 | the BOOL returned by `ReadFile`/`WriteFile` does not affect the outcome |
| `NamedPipe.PipeClient.Connect` | windows/JackWinNamedPipe.cpp:58-78 | stores the two-part name and the opened handle; returns 0 exactly when that handle is valid, -1 otherwise |
| `NamedPipe.PipeClient.ConnectNamed` | windows/JackWinNamedPipe.cpp:80-100 | the same for the three-part name |
| `NamedPipe.PipeClient.Close` | windows/JackWinNamedPipe.cpp:102-111 | a valid handle is passed once to `CloseHandle` and becomes invalid, with result 0; an invalid handle gives -1 and no OS call |
| `NamedPipe.PipeServer.Bind` | windows/JackWinNamedPipe.cpp:227-247 | stores the two-part name and the created handle; returns 0 exactly when that handle is valid, -1 otherwise |
| `NamedPipe.PipeServer.BindNamed` | windows/JackWinNamedPipe.cpp:249-269 | the same for the three-part name |
| `NamedPipe.PipeServer.Accept` | windows/JackWinNamedPipe.cpp:271-284 | returns true exactly when `ConnectNamedPipe` succeeded or failed with `ERROR_PIPE_CONNECTED`, and changes nothing |
| `NamedPipe.PipeServer.AcceptClient` | windows/JackWinNamedPipe.cpp:286-305 | on success a fresh client takes the handle and the server's becomes invalid; on `ERROR_PIPE_CONNECTED` a fresh client gets the handle and the server keeps it; on any other error the result is null and the server is unchanged |
| `NamedPipe.PipeServer.Close` | windows/JackWinNamedPipe.cpp:307-319 | a valid handle is disconnected and then released once, and becomes invalid, with result 0; an invalid handle gives -1 and no OS call |
| `NamedPipe.ConnectMeetsBind` | windows/JackWinNamedPipe.cpp:58-78 | a client connecting with the tag and slot a server bound gets the server's name; a client with another slot gets a different name |
| `NamedPipe.CloseTwice` | windows/JackWinNamedPipe.cpp:102-111 | a second `Close` always returns -1, and the two calls together release the handle at most once |
| `NamedPipe.ServerCloseTwice` | windows/JackWinNamedPipe.cpp:307-319 | a second server `Close` always returns -1, and the two calls together release the handle at most once |
| `NamedPipe.HandOffReleasesOnce` | windows/JackWinNamedPipe.cpp:288-292 | after an immediate accept, closing the client and then the server releases the handle exactly once |
| `NamedPipe.PipeConnectedReleasesTwice` | windows/JackWinNamedPipe.cpp:296-297 | after an `ERROR_PIPE_CONNECTED` accept, closing the client and then the server releases the same handle twice |
| `AsyncNamedPipe.Accepted` | windows/JackWinNamedPipe.cpp:129-141 | a client built around an accepted pipe is in `kConnecting` exactly when its connect is pending, and in `kReading` when it is not |
| `AsyncNamedPipe.Finish` | windows/JackWinNamedPipe.cpp:148-184 | `FinishIO` never changes the pending flag. It returns 0 exactly when the state is idle, or the OS reports success and (when reading or writing) a nonzero count. On 0 the state moves to the next phase (connecting to reading, reading to writing, writing to reading; idle stays idle). On -1 nothing changes |
| `AsyncNamedPipe.Issue` | windows/JackWinNamedPipe.cpp:186-223 | `Read` and `Write` return 0 exactly when the OS completed with nonzero bytes or queued the operation. A completed one clears the flag and enters `kWriting`. A queued one raises the flag and keeps the state. Failure returns -1 and changes nothing |
| `AsyncNamedPipe.NeverBackToIdle` | windows/JackWinNamedPipe.cpp:148-223 | no sequence of `FinishIO`/`Read`/`Write` calls takes a non-idle client back to `kIdle` |
| `AsyncNamedPipe.AcceptedNeverIdle` | windows/JackWinNamedPipe.cpp:372-391 | a client returned by `AcceptClient` is never idle, whatever calls follow |
| `AsyncNamedPipe.IdleUntilCompletedTransfer` | windows/JackWinNamedPipe.cpp:119-127 | a default-constructed client stays idle exactly until a `Read` or `Write` completes at once |
| `AsyncNamedPipe.PendingFollowsIssues` | windows/JackWinNamedPipe.cpp:193-199 | over any sequence of calls, the pending flag goes up only after some queued `Read`/`Write`, and comes down only after one completed at once |
| `AsyncNamedPipe.WriteCompletionPaths` | windows/JackWinNamedPipe.cpp:212-218 | queued reads and writes finished through `FinishIO` alternate (reading to writing to reading), while a write completed at once stays in `kWriting` |
| `AsyncNamedPipe.AsyncPipeClient.constructor` | windows/JackWinNamedPipe.cpp:119-127 | a fresh client holds no pipe, is idle and has nothing pending |
| `AsyncNamedPipe.AsyncPipeClient.FromHandle` | windows/JackWinNamedPipe.cpp:129-141 | a client around an accepted pipe holds that handle and starts in the `Accepted(pending)` connection |
| `AsyncNamedPipe.AsyncPipeClient.FinishIO` | windows/JackWinNamedPipe.cpp:148-184 | its result and new state and flag are those of `Finish` on the old ones |
| `AsyncNamedPipe.AsyncPipeClient.Read` | windows/JackWinNamedPipe.cpp:186-204 | its result and new state and flag are those of `Issue` on the old ones |
| `AsyncNamedPipe.AsyncPipeClient.Write` | windows/JackWinNamedPipe.cpp:206-223 | its result and new state and flag are those of `Issue` on the old ones |
| `AsyncNamedPipe.AsyncPipeServer.Bind` | windows/JackWinNamedPipe.cpp:323-343 | stores the two-part name and the created handle; returns 0 exactly when that handle is valid, -1 otherwise |
| `AsyncNamedPipe.AsyncPipeServer.BindNamed` | windows/JackWinNamedPipe.cpp:345-365 | the same for the three-part name |
| `AsyncNamedPipe.AsyncPipeServer.Accept` | windows/JackWinNamedPipe.cpp:367-370 | always returns false and changes nothing |
| `AsyncNamedPipe.AsyncPipeServer.AcceptClient` | windows/JackWinNamedPipe.cpp:372-391 | never changes the server, which keeps its handle. On success or `ERROR_PIPE_CONNECTED` it returns a fresh client on that handle, in `kReading` with nothing pending. Each such client has no name. On `ERROR_IO_PENDING` the client is in `kConnecting` with the flag raised. Any other error returns null |
| `AsyncNamedPipe.PendingAcceptThenConnect` | windows/JackWinNamedPipe.cpp:148-166 | a pending accept followed by one successful `FinishIO` returns 0 and leaves the client in `kReading`, with the pending flag still raised and the server's handle shared |

## Left out

- The Win32 calls themselves (`ReadFile`, `WriteFile`, `CreateFile`,
  `CreateNamedPipe`, `ConnectNamedPipe`, `GetOverlappedResult`). They are
  foreign OS code, so each appears only through its outcome, passed in as a
  parameter. `DisconnectNamedPipe` and `CloseHandle` on the pipe are
  recorded in `Kernel` and not otherwise modelled.
- The arguments passed to the OS and not read back. These are the access and
  sharing modes, message mode, `FILE_FLAG_OVERLAPPED`, the instance limit,
  `BUFSIZE` and the time-out. The only difference between the blocking and
  overlapped `Bind` is such an argument, so `AsyncPipeServer.Bind`
  delegates to `PipeServer.Bind`.
- The bytes moved by reads and writes, and message-pipe semantics, which
  are the OS's. The overlapped `Read` and `Write` pass `len` only to the OS,
  so the model has no `len` there.
- The completion event: `CreateEvent`, `SetEvent`, waiting on it, and its
  release in the overlapped client's destructor. The transport only creates
  it signaled and hands it to the OS.
- `SetReadTimeOut` and `SetWriteTimeOut`, whose bodies are empty.
- `jack_log` and `jack_error` logging output. Where a log call sits between an OS call and the `GetLastError` test (the overlapped `Read`, the blocking `Accept`), each `lastError` parameter stands for the code read at the test, after that call.
- The size of the `fName` buffer and overflow in `sprintf`.
  `JackWinNamedPipe.h`, which declares it, is not part of this model. Names
  are unbounded strings, and the C strings `dir` and `name` are assumed to
  contain no NUL.
- The constructors declared in `JackWinNamedPipe.h`, which is not part of
  this model. A default-constructed pipe is taken to hold
  `INVALID_HANDLE_VALUE`, one built from a handle holds that handle, and
  neither has a name (`""`).
- Concurrency and blocking. The code takes no locks, and each call is
  modelled as one atomic step.
- `common/control_types.h`, which only declares the external control API
  and has no logic.
