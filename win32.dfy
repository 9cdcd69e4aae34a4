/** The Win32 values the named-pipe transport handles: C integer widths,
    opaque OS handles, the error codes it tests for, and a record of the
    handle-release calls it makes into the OS. */
module Win32 {

  /** C `int`, as used for slot indices and transfer lengths. */
  newtype int32 = x: int | -0x8000_0000 <= x < 0x8000_0000

  /** Win32 `DWORD`, as used for byte counts and error codes. */
  newtype DWORD = x: int | 0 <= x < 0x1_0000_0000

  /** An OS handle. The transport never looks inside one; it only compares
      it with the sentinel below. */
  type Handle = int

  /** `INVALID_HANDLE_VALUE`, `(HANDLE)-1`: no OS resource is held. */
  const INVALID_HANDLE_VALUE: Handle := -1

  /** A value returned by `GetLastError`. */
  type ErrorCode = DWORD

  /** A client opened the pipe between `CreateNamedPipe` and `ConnectNamedPipe`. */
  const ERROR_PIPE_CONNECTED: ErrorCode := 535

  /** An overlapped operation was queued and has not completed yet. */
  const ERROR_IO_PENDING: ErrorCode := 997

  /** The C conversion `(DWORD)len`: the value modulo 2^32. */
  function ToDword(x: int32): (d: DWORD)
    ensures 0 <= x ==> d as int == x as int
    ensures x < 0 ==> d as int == x as int + 0x1_0000_0000
  {
    (x as int % 0x1_0000_0000) as DWORD
  }

  /** A call that gives an OS handle back. */
  datatype OsCall =
    | DisconnectNamedPipe(pipe: Handle)
    | CloseHandle(handle: Handle)

  /** The calls that release handles, in the order the transport made them. */
  class Kernel {
    var calls: seq<OsCall>

    constructor ()
      ensures calls == []
    {
      calls := [];
    }
  }

  /** How many times `h` was passed to `CloseHandle` in `calls`. */
  function Releases(calls: seq<OsCall>, h: Handle): nat
  {
    if calls == [] then 0
    else Releases(calls[..|calls| - 1], h) + (if calls[|calls| - 1] == CloseHandle(h) then 1 else 0)
  }

  lemma {:induction false} ReleasesAppend(calls: seq<OsCall>, more: seq<OsCall>, h: Handle)
    ensures Releases(calls + more, h) == Releases(calls, h) + Releases(more, h)
    decreases |more|
  {
    if more != [] {
      assert (calls + more)[..|calls + more| - 1] == calls + more[..|more| - 1];
      ReleasesAppend(calls, more[..|more| - 1], h);
    } else {
      assert calls + more == calls;
    }
  }
}
