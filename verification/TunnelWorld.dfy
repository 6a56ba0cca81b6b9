/**
 The operating system and libssh2, as far as the tunnel engine can see them.

 Every call answers arbitrarily within what the call promises, so a statement about
 a method that uses a World holds for every behaviour of the outside.  Calls append
 the event they cause to `log`; a call may only be made where that event is legal.

 A run of the real loops need not end.  The three budgets cut a run at an arbitrary
 point by an answer the loops stop on (a failing select, EAGAIN); since every
 property of a log is checked at each of its prefixes, nothing is lost by that.
 */
module TunnelWorld {
  import opened TunnelTrace
  import opened TunnelEvents
  import opened Wrappers

  const EAGAIN := -37
  const INVALID := -1

  class World {
    var mon: Monitor
    ghost var log: seq<Event>
    var selectsLeft: nat
    var readsLeft: nat
    var stallsLeft: nat

    ghost predicate Valid()
      reads this
    {
      Accepted(log) && After(log) == mon
    }

    lemma Consistent()
      requires Valid()
      ensures MonitorOk(mon)
    {
      AfterOk(log);
    }

    constructor (selects: nat, fills: nat, stalls: nat)
      ensures Valid() && mon == START && log == []
      ensures selectsLeft == selects && readsLeft == fills && stallsLeft == stalls
    {
      mon, log := START, [];
      selectsLeft, readsLeft, stallsLeft := selects, fills, stalls;
    }

    method Emit(e: Event)
      requires Valid() && Legal(mon, e) && Booked(log, mon, e)
      modifies `mon, `log
      ensures Valid() && mon == Next(old(mon), e) && log == old(log) + [e]
    {
      AcceptedSnoc(log, e);
      mon, log := Next(mon, e), log + [e];
    }

    /** accept, socket_connect and socket_listen: a descriptor that is not open, or -1. */
    method OpenSocket(kind: Kind) returns (fd: int)
      requires Valid()
      modifies `mon, `log
      ensures Valid()
      ensures fd == INVALID ==> mon == old(mon) && log == old(log) + [NotOpened(kind)]
      ensures fd != INVALID ==> 0 <= fd && fd !in old(mon).open
      ensures fd != INVALID ==> mon == PlusSocket(old(mon), fd, kind)
      ensures fd != INVALID ==> log == old(log) + [Opened(fd, old(mon).nextConn, kind)]
    {
      fd := *;
      if fd < 0 || fd in mon.open {
        Emit(NotOpened(kind));
        return INVALID;
      }
      Emit(Opened(fd, mon.nextConn, kind));
    }

    method CloseSocket(fd: int)
      requires Valid() && fd in mon.open && NoSessionOn(mon, fd)
      modifies `mon, `log
      ensures Valid() && mon == MinusSocket(old(mon), fd)
      ensures log == old(log) + [Closed(fd, old(mon).open[fd].conn)]
    {
      Emit(Closed(fd, mon.open[fd].conn));
    }

    /** ssh_connect: a handshaken and authenticated session, or 0. */
    method SshConnect(fd: int) returns (s: nat)
      requires Valid() && fd in mon.open && mon.open[fd].kind.Ssh?
      modifies `mon, `log
      ensures Valid()
      ensures s == 0 ==> mon == old(mon) && log == old(log) + [SessionFailed(fd)]
      ensures s != 0 ==> s == old(mon).nextHandle && mon == PlusSession(old(mon), fd)
      ensures s != 0 ==> log == old(log) + [SessionUp(s, fd)]
    {
      var up: bool := *;
      if !up {
        Emit(SessionFailed(fd));
        return 0;
      }
      Consistent();
      s := mon.nextHandle;
      Emit(SessionUp(s, fd));
    }

    method SessionFree(s: nat)
      requires Valid() && s in mon.sessions && NoChannelOf(mon, s)
      modifies `mon, `log
      ensures Valid() && mon == MinusSession(old(mon), s) && log == old(log) + [SessionFreed(s)]
    {
      Emit(SessionFreed(s));
    }

    /** libssh2_channel_direct_tcpip_ex with the session's last error. */
    method DirectTcpip(s: nat) returns (ch: nat, lerr: int)
      requires Valid() && s in mon.sessions
      modifies `mon, `log
      ensures Valid()
      ensures ch == 0 ==> mon == old(mon) && log == old(log) + [ChannelRefused(s, lerr == EAGAIN)]
      ensures ch != 0 ==> ch == old(mon).nextHandle && mon == PlusChannel(old(mon), s)
      ensures ch != 0 ==> log == old(log) + [ChannelUp(ch, s)]
    {
      var up: bool := *;
      lerr := *;
      if !up {
        Emit(ChannelRefused(s, lerr == EAGAIN));
        return 0, lerr;
      }
      Consistent();
      ch := mon.nextHandle;
      Emit(ChannelUp(ch, s));
    }

    method ChannelFree(ch: nat)
      requires Valid() && CanFree(mon, ch)
      modifies `mon, `log
      ensures Valid() && mon == MinusChannel(old(mon), ch) && log == old(log) + [ChannelFreed(ch)]
    {
      Emit(ChannelFreed(ch));
    }

    /** Not a call to the outside: the engine ties a channel to a client socket. */
    method Pair(ch: nat, fd: int)
      requires Valid() && CanPair(mon, ch, fd)
      modifies `mon, `log
      ensures Valid() && mon == PlusLane(old(mon), ch, old(mon).open[fd].conn)
      ensures log == old(log) + [Paired(ch, fd, old(mon).open[fd].conn)]
    {
      Emit(Paired(ch, fd, mon.open[fd].conn));
    }

    /** recv into the first `max` cells of `buf`. */
    method Recv(fd: int, buf: array<Byte>, max: nat) returns (n: int)
      requires Valid() && fd in mon.open && Serves(mon, mon.open[fd].conn) && max <= buf.Length
      requires Serving(mon, fd, mon.open[fd].conn)
      modifies `mon, `log, buf
      ensures Valid() && n <= max
      ensures n <= 0 ==> mon == old(mon) && log == old(log) + [ClientGone(fd, old(mon).open[fd].conn, n < 0)]
      ensures n > 0 ==> log == old(log) + [Received(fd, old(mon).open[fd].conn, buf[..n])]
      ensures n > 0 ==>
                var ch := old(mon).laneOf[old(mon).open[fd].conn];
                var l := old(mon).lanes[ch];
                mon == PutLane(old(mon), ch, l.(received := l.received + buf[..n]))
    {
      n := *;
      var data: seq<Byte> := *;
      if n > max || (n > 0 && |data| != n) {
        n := -1;
      }
      if n <= 0 {
        Emit(ClientGone(fd, mon.open[fd].conn, n < 0));
        return;
      }
      forall i | 0 <= i < n {
        buf[i] := data[i];
      }
      Emit(Received(fd, mon.open[fd].conn, buf[..n]));
    }

    /** libssh2_channel_write of buf[from..to]: EAGAIN, another negative error, or the
        number of bytes taken. */
    method ChannelWrite(ch: nat, buf: array<Byte>, from: nat, to: nat) returns (rc: int)
      requires Valid() && from < to <= buf.Length
      requires OnChannel(mon, ch) && mon.lanes[ch].written + buf[from..to] == mon.lanes[ch].received
      modifies `mon, `log, `stallsLeft
      ensures Valid() && rc <= to - from
      ensures stallsLeft == old(stallsLeft) - (if rc == 0 then 1 else 0)
      ensures rc < 0 ==> mon == old(mon) && log == old(log) + [if rc == EAGAIN then WriteAgain(ch) else WriteFailed(ch)]
      ensures rc >= 0 ==>
                var l := old(mon).lanes[ch];
                && log == old(log) + [Written(ch, buf[from..from + rc])]
                && mon == PutLane(old(mon), ch, l.(written := l.written + buf[from..from + rc]))
    {
      rc := *;
      if rc > to - from || (rc == 0 && stallsLeft == 0) {
        rc := EAGAIN;
      }
      if rc == EAGAIN {
        Emit(WriteAgain(ch));
      } else if rc < 0 {
        Emit(WriteFailed(ch));
      } else {
        if rc == 0 {
          stallsLeft := stallsLeft - 1;
        }
        assert buf[from..from + rc] <= buf[from..to];
        Emit(Written(ch, buf[from..from + rc]));
      }
    }

    /** libssh2_channel_read into the first `max` cells of `buf`. */
    method ChannelRead(ch: nat, buf: array<Byte>, max: nat) returns (len: int)
      requires Valid() && max <= buf.Length
      requires OnChannel(mon, ch) && mon.lanes[ch].pending == [] && mon.lanes[ch].asked
      modifies `mon, `log, `readsLeft, buf
      ensures Valid() && len <= max
      ensures if len >= 0 then readsLeft < old(readsLeft) else readsLeft == old(readsLeft)
      ensures
        log == old(log)
          + [if len == EAGAIN then ReadAgain(ch) else if len < 0 then ReadFailed(ch) else Read(ch, buf[..len])]
      ensures len < 0 ==> mon == old(mon)
      ensures len >= 0 ==>
                var l := old(mon).lanes[ch];
                mon == PutLane(old(mon), ch, l.(read := l.read + buf[..len], pending := buf[..len], asked := false))
    {
      len := *;
      var data: seq<Byte> := *;
      if len > max || (len >= 0 && (readsLeft == 0 || |data| != len)) {
        len := EAGAIN;
      }
      if len == EAGAIN {
        Emit(ReadAgain(ch));
      } else if len < 0 {
        Emit(ReadFailed(ch));
      } else {
        readsLeft := readsLeft - 1;
        forall i | 0 <= i < len {
          buf[i] := data[i];
        }
        Emit(Read(ch, buf[..len]));
      }
    }

    /** send of buf[from..to] on a socket. */
    method Send(fd: int, buf: array<Byte>, from: nat, to: nat) returns (rc: int)
      requires Valid() && from < to <= buf.Length
      requires fd in mon.open && Serves(mon, mon.open[fd].conn)
      requires mon.lanes[mon.laneOf[mon.open[fd].conn]].pending == buf[from..to]
      modifies `mon, `log
      ensures Valid() && rc <= to - from
      ensures
        var conn := old(mon).open[fd].conn;
        log == old(log) + [if rc <= 0 then SendFailed(fd, conn) else Sent(fd, conn, buf[from..from + rc])]
      ensures
        var ch := old(mon).laneOf[old(mon).open[fd].conn];
        var l := old(mon).lanes[ch];
        if rc <= 0 then mon == PutLane(old(mon), ch, l.(pending := [], lost := l.lost + (to - from)))
        else mon == PutLane(old(mon), ch, l.(sent := l.sent + buf[from..from + rc], pending := buf[from + rc..to]))
    {
      rc := *;
      if rc > to - from {
        rc := -1;
      }
      if rc <= 0 {
        Emit(SendFailed(fd, mon.open[fd].conn));
      } else {
        assert buf[from..from + rc] <= buf[from..to];
        assert buf[from..to][rc..] == buf[from + rc..to];
        Emit(Sent(fd, mon.open[fd].conn, buf[from..from + rc]));
      }
    }

    /** libssh2_channel_eof */
    method Eof(ch: nat) returns (eof: bool)
      requires Valid() && OnChannel(mon, ch) && mon.lanes[ch].pending == []
      modifies `mon, `log
      ensures Valid() && log == old(log) + [EofAsked(ch, eof)]
      ensures mon == PutLane(old(mon), ch, old(mon).lanes[ch].(asked := true))
    {
      eof := *;
      Emit(EofAsked(ch, eof));
    }

    method Begin()
      requires Valid() && mon.live == map[]
      modifies `mon, `log
      ensures Valid() && mon == Begun(old(mon)) && log == old(log) + [TunnelStart]
    {
      Emit(TunnelStart);
    }

    /** select on `master`: fails, or reports some of its members as readable. */
    method Select(master: set<int>, fdmax: int) returns (ok: bool, ready: set<int>)
      requires Valid() && SelectOk(mon, master, fdmax)
      modifies `mon, `log, `selectsLeft
      ensures Valid() && ready <= master
      ensures !ok ==> mon == Broken(old(mon)) && log == old(log) + [SelectFailed(master, fdmax)]
      ensures !ok ==> selectsLeft == old(selectsLeft)
      ensures ok ==> selectsLeft < old(selectsLeft) && mon == Reported(old(mon), ready)
      ensures ok ==> log == old(log) + [Selected(master, fdmax, ready)]
    {
      ok := *;
      if !ok || selectsLeft == 0 {
        Emit(SelectFailed(master, fdmax));
        return false, {};
      }
      var any: set<int> := *;
      ready := any * master;
      selectsLeft := selectsLeft - 1;
      Emit(Selected(master, fdmax, ready));
    }

    method Dispatch(fd: int)
      requires Valid() && CanDispatch(mon, fd)
      modifies `mon, `log
      ensures Valid() && mon == Handed(old(mon), fd) && log == old(log) + [Dispatching(fd)]
    {
      Emit(Dispatching(fd));
    }

    method Finish(rc: int)
      requires Valid() && (rc == AGAIN ==> mon.agains < MAX_ERRORS)
      requires mon.current.Some? && Answered(mon.current.value, Work(log), rc)
      modifies `mon, `log
      ensures Valid() && mon == Finished(old(mon), rc) && log == old(log) + [Dispatched(rc)]
    {
      Emit(Dispatched(rc));
    }
  }
}
