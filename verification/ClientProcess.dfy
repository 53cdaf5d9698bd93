/** The interception layer of a client process as it is written: global tables and the rendezvous
    variables, changed in place. Each method is proved against the client steps of Protocol.
 */
module ClientProcess {
  import opened Wrappers
  import opened Posix
  import opened Protocol
  import ClientSide

  class Process {
    const c: nat                       // which client this is
    var kernel: Table                  // the process's own descriptors
    var fdMap: map<Fd, Path>
    var fdRedirMap: map<Fd, Fd>
    var done: int
    var readRet: int
    var buffer: Content                // the application's buffer of the current read
    ghost var pc: ClientSide.Pc

    constructor (c: nat)
      ensures this.c == c && View() == ClientSide.INITIAL
    {
      this.c := c;
      kernel, fdMap, fdRedirMap, done, readRet, buffer := map[], map[], map[], 0, -1, [];
      pc := ClientSide.Idle;
    }

    ghost function View(): Client
      reads this
    {
      ClientSide.Client(kernel, fdMap, fdRedirMap, done, readRet, buffer, pc)
    }

    /** open: the real open, then hvac_track_file up to its block. `accepted` is the outcome of the
        path test; no request is sent for a path it refuses. */
    method OpenWrapper(cfg: Config, fd: Fd, path: Path, accepted: bool) returns (sent: Option<Msg>)
      requires cfg.servers > 0 && pc == ClientSide.Idle
      modifies this
      ensures View() == if accepted then Begin(cfg, old(View()), Open(fd, path))
                        else ClientSide.RunLocal(cfg.env.source, old(View()), Open(fd, path))
      ensures sent == if accepted then Some(Request(cfg, c, old(View()), Open(fd, path))) else None
    {
      kernel := kernel[fd := Cursor(path, 0)];
      sent := None;
      if accepted {
        fdMap := fdMap[fd := path];
        var host := Host(cfg, fdMap[fd]);
        done := 0;
        sent := Some(OpenReq(c, host, fd, fdMap[fd]));
        pc := ClientSide.Busy(Open(fd, path), false);
      }
    }

    /** hvac_open_cb */
    method OpenCallback(fd: Fd, remote: Fd)
      modifies this
      ensures View() == ClientSide.OpenCallback(old(View()), fd, remote)
    {
      fdRedirMap := fdRedirMap[fd := remote];
      done := done + 1;
      pc := if pc.Busy? then pc.(asleep := false) else pc;
    }

    /** hvac_client_comm_gen_read_rpc: offset -1 for a sequential read. */
    method GenReadRpc(cfg: Config, call: Call) returns (m: Msg)
      requires cfg.servers > 0 && pc == ClientSide.Idle && (call.Read? || call.Pread?) && call.fd in fdMap
      modifies this
      ensures View() == Begin(cfg, old(View()), call) && m == Request(cfg, c, old(View()), call)
    {
      var host := Host(cfg, fdMap[call.fd]);
      done := 0;
      readRet := -1;
      buffer := seq(call.count, i => 0);
      var accessfd := if call.fd in fdRedirMap then fdRedirMap[call.fd] else 0;
      m := ReadReq(c, host, accessfd, ToInt32(call.count), if call.Pread? then call.offset else -1);
      pc := ClientSide.Busy(call, false);
    }

    /** The read wrapper up to its block. */
    method ReadWrapper(cfg: Config, fd: Fd, count: nat) returns (sent: Option<Msg>, ret: int, data: Content)
      requires cfg.servers > 0 && pc == ClientSide.Idle
      modifies this
      ensures var was, call := old(View()), Read(fd, count);
              if ClientSide.IsRemote(was, call, true) then View() == Begin(cfg, was, call) && sent == Some(Request(cfg, c, was, call))
              else
                var io := Perform(cfg.env.source, was.kernel, call);
                View() == ClientSide.RunLocal(cfg.env.source, was, call) && sent == None && ret == io.ret && data == io.data
    {
      sent, ret, data := None, -1, [];
      if fd in fdMap {
        var m := GenReadRpc(cfg, Read(fd, count));
        sent := Some(m);
      } else {
        var io := Perform(cfg.env.source, kernel, Read(fd, count));
        kernel, ret, data := io.table, io.ret, io.data;
      }
    }

    /** The pread wrapper up to its block: a server descriptor of 0 means the local file is read. */
    method PreadWrapper(cfg: Config, fd: Fd, count: nat, offset: int) returns (sent: Option<Msg>, ret: int, data: Content)
      requires cfg.servers > 0 && pc == ClientSide.Idle
      modifies this
      ensures var was, call := old(View()), Pread(fd, count, offset);
              if ClientSide.IsRemote(was, call, true) then View() == Begin(cfg, was, call) && sent == Some(Request(cfg, c, was, call))
              else
                var io := Perform(cfg.env.source, was.kernel, call);
                sent == None && View() == was && ret == io.ret && data == io.data
    {
      sent, ret, data := None, -1, [];
      if fd in fdMap && fd in fdRedirMap && fdRedirMap[fd] != 0 {
        var m := GenReadRpc(cfg, Pread(fd, count, offset));
        sent := Some(m);
      }
      if sent == None {
        var io := Perform(cfg.env.source, kernel, Pread(fd, count, offset));
        ret, data := io.ret, io.data;
      }
    }

    /** hvac_remote_lseek up to its block. */
    method GenSeekRpc(cfg: Config, fd: Fd, offset: int, whence: Whence) returns (m: Msg)
      requires cfg.servers > 0 && pc == ClientSide.Idle && fd in fdMap
      modifies this
      ensures View() == Begin(cfg, old(View()), Seek(fd, offset, whence))
      ensures m == Request(cfg, c, old(View()), Seek(fd, offset, whence))
    {
      var host := Host(cfg, fdMap[fd]);
      readRet := -1;
      done := 0;
      m := SeekReq(c, host, if fd in fdRedirMap then fdRedirMap[fd] else 0, ToInt32(offset), whence);
      pc := ClientSide.Busy(Seek(fd, offset, whence), false);
    }

    /** hvac_read_cb and hvac_seek_cb */
    method ResultCallback(bytesRead: int)
      modifies this
      ensures View() == ClientSide.ResultCallback(old(View()), bytesRead)
    {
      done := done + 1;
      readRet := bytesRead;
      pc := if pc.Busy? then pc.(asleep := false) else pc;
    }

    /** The rest of a wrapper once its block function returned. */
    method AfterBlock(cfg: Config, call: Call) returns (ret: int, data: Content)
      requires pc == ClientSide.Busy(call, false)
      modifies this
      ensures ClientSide.Finished(View(), ret, data) == ClientSide.Finish(cfg.env.source, old(View()))
    {
      pc := ClientSide.Idle;
      if call.Open? {
        return call.fd, [];
      }
      ret, data := readRet, [];
      if !call.Seek? {
        if ret == -1 {
          var io := Perform(cfg.env.source, kernel, call);
          kernel, ret, data := io.table, io.ret, io.data;
        } else {
          data := if 0 <= ret <= |buffer| then buffer[..ret] else buffer;
        }
      }
    }

    /** close: hvac_remove_fd for a tracked descriptor, then the real close. Nobody waits for the
        close request. */
    method CloseWrapper(cfg: Config, fd: Fd) returns (sent: Option<Msg>, ret: int)
      requires cfg.servers > 0 && pc == ClientSide.Idle
      modifies this
      ensures var was := old(View());
              && ret == Perform(cfg.env.source, was.kernel, Close(fd)).ret
              && if fd in was.fdMap
                 then View() == ClientSide.RemoveFd(cfg.env.source, was, fd)
                      && sent == Some(CloseReq(Host(cfg, was.fdMap[fd]), ClientSide.Redir(was, fd)))
                 else View() == ClientSide.RunLocal(cfg.env.source, was, Close(fd)) && sent == None
    {
      sent := None;
      if fd in fdMap {
        var host := Host(cfg, fdMap[fd]);
        sent := Some(CloseReq(host, if fd in fdRedirMap then fdRedirMap[fd] else 0));
        fdRedirMap := fdRedirMap - {fd};
        fdMap := fdMap - {fd};
      }
      var io := Perform(cfg.env.source, kernel, Close(fd));
      kernel, ret := io.table, io.ret;
    }
  }
}
