/** One client process: the interception layer's tables, the rendezvous between its application
    thread and the callbacks, and its own kernel's descriptors.
 */
module ClientSide {
  import opened Posix

  /** The application thread: running, or inside an intercepted call that sent a request.
      asleep: in pthread_cond_wait on done_cond, having seen done != 1 under done_mutex. */
  datatype Pc = Idle | Busy(call: Call, asleep: bool)

  datatype Client = Client(
    kernel: Table,            // descriptors open in this process
    fdMap: map<Fd, Path>,     // fd_map
    redir: map<Fd, Fd>,       // fd_redir_map
    done: int,
    readRet: int,             // read_ret
    buf: Content,             // the application's buffer
    pc: Pc)

  const INITIAL := Client(map[], map[], map[], 0, -1, [], Idle)

  /** fd_redir_map[fd]: operator[] yields 0 for a missing key. */
  function Redir(cl: Client, fd: Fd): Fd {
    if fd in cl.redir then cl.redir[fd] else 0
  }

  /** Whether a call goes to a server. An open does when hvac_track_file accepts the path; a pread
      stays local when the server's descriptor is 0. */
  predicate IsRemote(cl: Client, call: Call, accepted: bool) {
    match call
    case Open(_, _) => accepted
    case Close(_) => false
    case Read(fd, _) => fd in cl.fdMap
    case Pread(fd, _, _) => fd in cl.fdMap && Redir(cl, fd) != 0
    case Seek(fd, _, _) => fd in cl.fdMap
  }

  /** A call served by the process's own kernel. */
  function RunLocal(files: Files, cl: Client, call: Call): Client {
    cl.(kernel := Perform(files, cl.kernel, call).table)
  }

  /** The real open, hvac_track_file, and sending the open request. */
  function BeginOpen(files: Files, cl: Client, fd: Fd, path: Path): Client {
    RunLocal(files, cl, Open(fd, path)).(
      fdMap := cl.fdMap[fd := path], done := 0, pc := Busy(Open(fd, path), false))
  }

  function BeginRead(cl: Client, call: Call, count: nat): Client {
    cl.(done := 0, readRet := -1, buf := seq(count, i => 0), pc := Busy(call, false))
  }

  function BeginSeek(cl: Client, call: Call): Client {
    cl.(done := 0, readRet := -1, pc := Busy(call, false))
  }

  /** pthread_cond_signal(&done_cond), after done++ under done_mutex. */
  function Signal(cl: Client): Client {
    cl.(done := cl.done + 1, pc := if cl.pc.Busy? then cl.pc.(asleep := false) else cl.pc)
  }

  function OpenCallback(cl: Client, fd: Fd, remote: Fd): Client {
    Signal(cl.(redir := cl.redir[fd := remote]))
  }

  /** hvac_read_cb and hvac_seek_cb. */
  function ResultCallback(cl: Client, ret: int): Client {
    Signal(cl.(readRet := ret))
  }

  /** The server's bulk transfer into the registered buffer. */
  function BulkWrite(cl: Client, data: Content): Client {
    cl.(buf := data + if |data| <= |cl.buf| then cl.buf[|data|..] else [])
  }

  /** hvac_remove_fd and the real close. */
  function RemoveFd(files: Files, cl: Client, fd: Fd): Client {
    RunLocal(files, cl, Close(fd)).(redir := cl.redir - {fd}, fdMap := cl.fdMap - {fd})
  }

  datatype Finished = Finished(client: Client, ret: int, data: Content)

  /** The wrapper after the block function returned: a result of -1 falls back to the local call. */
  function Finish(files: Files, cl: Client): Finished
    requires cl.pc.Busy?
  {
    var call, idle := cl.pc.call, cl.(pc := Idle);
    if call.Open? then Finished(idle, call.fd, [])
    else if call.Seek? then Finished(idle, cl.readRet, [])
    else if cl.readRet == -1 then
      var io := Perform(files, cl.kernel, call);
      Finished(idle.(kernel := io.table), io.ret, io.data)
    else Finished(idle, cl.readRet, if 0 <= cl.readRet <= |cl.buf| then cl.buf[..cl.readRet] else cl.buf)
  }
}
