/** The blocking named-pipe transport: the transfer rule shared by every
    pipe's `Read` and `Write`, the client that opens a server's pipe by name,
    and the server that creates the pipe and hands each connection to a new
    client object. Every OS call's outcome is a parameter. */
module NamedPipe {
  import opened Win32
  import opened PipeName

  /** `JackWinNamedPipe::Read` and `::Write` return 0 when the OS moved
      exactly the requested number of bytes and -1 otherwise. `res`, the
      BOOL that `ReadFile`/`WriteFile` returned, is computed and ignored. */
  function TransferResult(res: bool, len: int32, transferred: DWORD): (r: int)
    ensures r == 0 || r == -1
    ensures 0 <= len ==> (r == 0 <==> transferred as int == len as int)
    ensures len < 0 ==> (r == 0 <==> transferred as int == len as int + 0x1_0000_0000)
  {
    if transferred != ToDword(len) then -1 else 0
  }

  /** Whether the transfer succeeded does not depend on the OS's BOOL result. */
  lemma TransferIgnoresOsResult(len: int32, transferred: DWORD)
    ensures TransferResult(true, len, transferred) == TransferResult(false, len, transferred)
  {
  }

  /** `JackWinNamedPipeClient`: one end of a pipe, opened by name or adopted
      from a server. */
  class PipeClient {
    var handle: Handle
    var name: string

    /** No pipe is held yet. */
    constructor ()
      ensures handle == INVALID_HANDLE_VALUE && name == ""
    {
      handle, name := INVALID_HANDLE_VALUE, "";
    }

    /** Takes over a pipe instance a server connected. */
    constructor FromHandle(pipe: Handle)
      ensures handle == pipe && name == ""
    {
      handle, name := pipe, "";
    }

    /** `Connect(dir, which)`; `created` is what `CreateFile` returned. A
        handle held before is overwritten, not released. */
    method Connect(dir: string, which: int32, created: Handle) returns (r: int)
      modifies this
      ensures name == TwoPartName(dir, which) && handle == created
      ensures r == 0 || r == -1
      ensures r == 0 <==> handle != INVALID_HANDLE_VALUE
    {
      name := TwoPartName(dir, which);
      handle := created;
      if handle == INVALID_HANDLE_VALUE {
        r := -1;
      } else {
        r := 0;
      }
    }

    /** `Connect(dir, name, which)`; `created` is what `CreateFile` returned.
        A handle held before is overwritten, not released. */
    method ConnectNamed(dir: string, pipeName: string, which: int32, created: Handle) returns (r: int)
      modifies this
      ensures name == ThreePartName(dir, pipeName, which) && handle == created
      ensures r == 0 || r == -1
      ensures r == 0 <==> handle != INVALID_HANDLE_VALUE
    {
      name := ThreePartName(dir, pipeName, which);
      handle := created;
      if handle == INVALID_HANDLE_VALUE {
        r := -1;
      } else {
        r := 0;
      }
    }

    /** Releases a held pipe once; on a client holding nothing it reports -1. */
    method Close(kernel: Kernel) returns (r: int)
      modifies this, kernel
      ensures handle == INVALID_HANDLE_VALUE && name == old(name)
      ensures old(handle) != INVALID_HANDLE_VALUE ==>
                r == 0 && kernel.calls == old(kernel.calls) + [CloseHandle(old(handle))]
      ensures old(handle) == INVALID_HANDLE_VALUE ==>
                r == -1 && kernel.calls == old(kernel.calls)
    {
      if handle != INVALID_HANDLE_VALUE {
        kernel.calls := kernel.calls + [CloseHandle(handle)];
        handle := INVALID_HANDLE_VALUE;
        r := 0;
      } else {
        r := -1;
      }
    }
  }

  /** `JackWinNamedPipeServer`: creates a named pipe instance and waits for a
      client on it. */
  class PipeServer {
    var handle: Handle
    var name: string

    /** No pipe is held yet. */
    constructor ()
      ensures handle == INVALID_HANDLE_VALUE && name == ""
    {
      handle, name := INVALID_HANDLE_VALUE, "";
    }

    /** `Bind(dir, which)`; `created` is what `CreateNamedPipe` returned. A
        handle held before is overwritten, not released. */
    method Bind(dir: string, which: int32, created: Handle) returns (r: int)
      modifies this
      ensures name == TwoPartName(dir, which) && handle == created
      ensures r == 0 || r == -1
      ensures r == 0 <==> handle != INVALID_HANDLE_VALUE
    {
      name := TwoPartName(dir, which);
      handle := created;
      if handle == INVALID_HANDLE_VALUE {
        r := -1;
      } else {
        r := 0;
      }
    }

    /** `Bind(dir, name, which)`; `created` is what `CreateNamedPipe` returned.
        A handle held before is overwritten, not released. */
    method BindNamed(dir: string, pipeName: string, which: int32, created: Handle) returns (r: int)
      modifies this
      ensures name == ThreePartName(dir, pipeName, which) && handle == created
      ensures r == 0 || r == -1
      ensures r == 0 <==> handle != INVALID_HANDLE_VALUE
    {
      name := ThreePartName(dir, pipeName, which);
      handle := created;
      if handle == INVALID_HANDLE_VALUE {
        r := -1;
      } else {
        r := 0;
      }
    }

    /** `Accept`: `connected` is the result of `ConnectNamedPipe`,
        `lastError` what `GetLastError` reports at the test, after the
        logging call that precedes it. A client that got in
        before the call counts as connected. */
    method Accept(connected: bool, lastError: ErrorCode) returns (ok: bool)
      ensures ok <==> connected || lastError == ERROR_PIPE_CONNECTED
    {
      if connected {
        ok := true;
      } else if lastError == ERROR_PIPE_CONNECTED {
        ok := true;
      } else {
        ok := false;
      }
    }

    /** `AcceptClient`: waits for a client and wraps the connected pipe in a
        new client object. Only the path where `ConnectNamedPipe` succeeds
        gives the handle up; on the `ERROR_PIPE_CONNECTED` path the server and
        the new client both hold it. */
    method AcceptClient(connected: bool, lastError: ErrorCode) returns (client: PipeClient?)
      modifies this
      ensures name == old(name)
      ensures connected ==>
                client != null && fresh(client) && client.handle == old(handle) && client.name == ""
                && handle == INVALID_HANDLE_VALUE
      ensures !connected && lastError == ERROR_PIPE_CONNECTED ==>
                client != null && fresh(client) && client.handle == old(handle) && client.name == ""
                && handle == old(handle)
      ensures !connected && lastError != ERROR_PIPE_CONNECTED ==>
                client == null && handle == old(handle)
    {
      if connected {
        client := new PipeClient.FromHandle(handle);
        handle := INVALID_HANDLE_VALUE;
      } else if lastError == ERROR_PIPE_CONNECTED {
        client := new PipeClient.FromHandle(handle);
      } else {
        client := null;
      }
    }

    /** Disconnects and releases a held pipe once; on a server holding
        nothing it reports -1. */
    method Close(kernel: Kernel) returns (r: int)
      modifies this, kernel
      ensures handle == INVALID_HANDLE_VALUE && name == old(name)
      ensures old(handle) != INVALID_HANDLE_VALUE ==>
                r == 0
                && kernel.calls == old(kernel.calls) + [DisconnectNamedPipe(old(handle)), CloseHandle(old(handle))]
      ensures old(handle) == INVALID_HANDLE_VALUE ==>
                r == -1 && kernel.calls == old(kernel.calls)
    {
      if handle != INVALID_HANDLE_VALUE {
        kernel.calls := kernel.calls + [DisconnectNamedPipe(handle), CloseHandle(handle)];
        handle := INVALID_HANDLE_VALUE;
        r := 0;
      } else {
        r := -1;
      }
    }
  }

  /** A client and a server given the same tag and slot meet on one name;
      different slots never meet. */
  method ConnectMeetsBind(dir: string, which: int32, other: int32, created: Handle)
    returns (server: PipeServer, client: PipeClient, stray: PipeClient)
    ensures client.name == server.name
    ensures other != which ==> stray.name != server.name
  {
    server := new PipeServer();
    var _ := server.Bind(dir, which, created);
    client := new PipeClient();
    var _ := client.Connect(dir, which, created);
    stray := new PipeClient();
    var _ := stray.Connect(dir, other, created);
    if other != which {
      assert SlotOf(stray.name) != SlotOf(server.name);
    }
  }

  /** Closing twice releases the handle at most once: the second call
      reports -1 and makes no OS call. */
  method CloseTwice(client: PipeClient, kernel: Kernel) returns (first: int, second: int)
    modifies client, kernel
    ensures second == -1 && client.handle == INVALID_HANDLE_VALUE
    ensures first == 0 <==> old(client.handle) != INVALID_HANDLE_VALUE
    ensures Releases(kernel.calls, old(client.handle)) <= Releases(old(kernel.calls), old(client.handle)) + 1
  {
    ghost var h := client.handle;
    first := client.Close(kernel);
    second := client.Close(kernel);
    if h != INVALID_HANDLE_VALUE {
      ReleasesAppend(old(kernel.calls), [CloseHandle(h)], h);
    }
  }

  /** The server's `Close` behaves like the client's: closing twice
      disconnects and releases the handle at most once, and the second call
      reports -1. */
  method ServerCloseTwice(server: PipeServer, kernel: Kernel) returns (first: int, second: int)
    modifies server, kernel
    ensures second == -1 && server.handle == INVALID_HANDLE_VALUE
    ensures first == 0 <==> old(server.handle) != INVALID_HANDLE_VALUE
    ensures Releases(kernel.calls, old(server.handle)) <= Releases(old(kernel.calls), old(server.handle)) + 1
  {
    ghost var h := server.handle;
    first := server.Close(kernel);
    second := server.Close(kernel);
    if h != INVALID_HANDLE_VALUE {
      ReleasesAppend(old(kernel.calls), [DisconnectNamedPipe(h), CloseHandle(h)], h);
      assert [DisconnectNamedPipe(h), CloseHandle(h)][..1] == [DisconnectNamedPipe(h)];
      assert Releases([DisconnectNamedPipe(h)], h) == 0;
    }
  }

  /** Accepting on the immediate path hands the handle over: closing both
      objects afterwards releases it once. */
  method HandOffReleasesOnce(dir: string, which: int32, h: Handle) returns (kernel: Kernel)
    requires h != INVALID_HANDLE_VALUE
    ensures Releases(kernel.calls, h) == 1
  {
    kernel := new Kernel();
    var server := new PipeServer();
    var _ := server.Bind(dir, which, h);
    var client := server.AcceptClient(true, 0);
    var _ := client.Close(kernel);
    var _ := server.Close(kernel);
    assert kernel.calls == [CloseHandle(h)];
  }

  /** Accepting on the `ERROR_PIPE_CONNECTED` path leaves two holders:
      closing both objects afterwards releases the handle twice. */
  method PipeConnectedReleasesTwice(dir: string, which: int32, h: Handle) returns (kernel: Kernel)
    requires h != INVALID_HANDLE_VALUE
    ensures Releases(kernel.calls, h) == 2
  {
    kernel := new Kernel();
    var server := new PipeServer();
    var _ := server.Bind(dir, which, h);
    var client := server.AcceptClient(false, ERROR_PIPE_CONNECTED);
    var _ := client.Close(kernel);
    var _ := server.Close(kernel);
    assert kernel.calls == [CloseHandle(h), DisconnectNamedPipe(h), CloseHandle(h)];
    assert kernel.calls[..2] == [CloseHandle(h), DisconnectNamedPipe(h)];
    assert kernel.calls[..2][..1] == [CloseHandle(h)];
    assert Releases([CloseHandle(h)], h) == 1;
  }
}
