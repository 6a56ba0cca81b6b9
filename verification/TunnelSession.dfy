/**
 rbm_session and rbm_channel: the channel list, setup and teardown.
 */
module TunnelSession {
  import opened TunnelTrace
  import opened TunnelEvents
  import opened TunnelWorld
  import opened TunnelState
  import opened Wrappers
  import PointerArray

  const BUFSIZE := 16384

  function ConnOf(m: Monitor, fd: int): nat {
    if fd in m.open then m.open[fd].conn else 0
  }

  /** Closing every channel of a list: its socket, then its libssh2 channel. */
  function ChannelsTeardown(m: Monitor, chans: seq<Chan>): seq<Event> {
    if chans == [] then []
    else [Closed(chans[0].socket, ConnOf(m, chans[0].socket)), ChannelFreed(chans[0].handle)]
         + ChannelsTeardown(m, chans[1..])
  }

  /** The calls a cleanup makes, in order: channels, libssh2 session, SSH socket. */
  function Teardown(m: Monitor, v: View): seq<Event> {
    ChannelsTeardown(m, v.chans)
    + (if v.session != 0 then [SessionFreed(v.session)] else [])
    + (if v.ssh != INVALID then [Closed(v.ssh, ConnOf(m, v.ssh))] else [])
  }

  /** The calls a setup makes, up to the first that fails. */
  function SetupCalls(m: Monitor, v: View): seq<Event> {
    if v.ssh == INVALID then [NotOpened(Ssh)]
    else [Opened(v.ssh, m.nextConn, Ssh), if v.session == 0 then SessionFailed(v.ssh) else SessionUp(v.session, v.ssh)]
  }

  function ListenCalls(m: Monitor, v: View): seq<Event> {
    if v.ssh == INVALID || v.session == 0 then []
    else [if v.local == INVALID then NotOpened(Listener) else Opened(v.local, m.nextConn + 1, Listener)]
  }

  /** A call of a setup failed, or no channel could be created. */
  ghost predicate FailedSince(log: seq<Event>, n: nat) {
    exists i :: n <= i < |log|
        && (log[i].NotOpened? || log[i].SessionFailed? || log[i] == Dispatched(CHANNEL_CREATION_ERROR))
  }

  lemma FailedStays(log: seq<Event>, log': seq<Event>, n: nat)
    requires FailedSince(log, n) && log <= log'
    ensures FailedSince(log', n)
  {
    var i :| n <= i < |log|
        && (log[i].NotOpened? || log[i].SessionFailed? || log[i] == Dispatched(CHANNEL_CREATION_ERROR));
    assert log'[i] == log[i];
  }

  lemma {:induction false} ChannelsTeardownAt(m: Monitor, chans: seq<Chan>, i: nat)
    ensures |ChannelsTeardown(m, chans)| == 2 * |chans|
    ensures i < |chans| ==>
              && ChannelsTeardown(m, chans)[2 * i] == Closed(chans[i].socket, ConnOf(m, chans[i].socket))
              && ChannelsTeardown(m, chans)[2 * i + 1] == ChannelFreed(chans[i].handle)
  {
    if chans == [] {
    } else {
      ChannelsTeardownAt(m, chans[1..], if i > 0 then i - 1 else 0);
      if 0 < i < |chans| {
        var rest := ChannelsTeardown(m, chans[1..]);
        assert ChannelsTeardown(m, chans)[2 * i] == rest[2 * (i - 1)];
        assert ChannelsTeardown(m, chans)[2 * i + 1] == rest[2 * (i - 1) + 1];
      }
    }
  }

  /** A cleanup does nothing exactly when there is nothing to clean up, so a second one in
      a row does nothing; otherwise the libssh2 session comes after all channels and the
      SSH socket after the session. */
  lemma TeardownOrder(m: Monitor, v: View)
    ensures Teardown(m, v) == [] <==> v.chans == [] && v.session == 0 && v.ssh == INVALID
    ensures v.session != 0 ==>
              |Teardown(m, v)| > 2 * |v.chans| && Teardown(m, v)[2 * |v.chans|] == SessionFreed(v.session)
    ensures v.ssh != INVALID ==>
              Teardown(m, v) != [] && Teardown(m, v)[|Teardown(m, v)| - 1] == Closed(v.ssh, ConnOf(m, v.ssh))
    ensures forall i :: 0 <= i < |v.chans| ==>
              && 2 * i + 1 < |Teardown(m, v)|
              && Teardown(m, v)[2 * i] == Closed(v.chans[i].socket, ConnOf(m, v.chans[i].socket))
              && Teardown(m, v)[2 * i + 1] == ChannelFreed(v.chans[i].handle)
  {
    ChannelsTeardownAt(m, v.chans, 0);
    forall i | 0 <= i < |v.chans|
      ensures
        && ChannelsTeardown(m, v.chans)[2 * i] == Closed(v.chans[i].socket, ConnOf(m, v.chans[i].socket))
        && ChannelsTeardown(m, v.chans)[2 * i + 1] == ChannelFreed(v.chans[i].handle)
    {
      ChannelsTeardownAt(m, v.chans, i);
    }
  }

  lemma ChannelsTeardownFrame(m: Monitor, m': Monitor, chans: seq<Chan>)
    requires forall i :: 0 <= i < |chans| ==> ConnOf(m, chans[i].socket) == ConnOf(m', chans[i].socket)
    ensures ChannelsTeardown(m, chans) == ChannelsTeardown(m', chans)
  {
  }

  class Channel {
    var socket: int
    var handle: nat
    const inbuf: array<Byte>
    const outbuf: array<Byte>

    constructor (socket: int, handle: nat)
      ensures this.socket == socket && this.handle == handle
      ensures fresh(inbuf) && fresh(outbuf) && inbuf.Length == outbuf.Length == BUFSIZE
    {
      this.socket, this.handle := socket, handle;
      inbuf := new Byte[BUFSIZE](_ => 0);
      outbuf := new Byte[BUFSIZE](_ => 0);
    }
  }

  class Session {
    const world: World
    var localsocket: int
    var sshsocket: int
    var sshsession: nat
    var channels: array?<Channel>
    var channelssize: nat
    var closes: nat                // how often rbm_ssh_session_close ran on this session
    ghost var chans: seq<Chan>     // the channel list as values
    ghost var Repr: set<object>

    ghost function V(): View
      reads this
    {
      View(chans, localsocket, sshsocket, sshsession)
    }

    /** The channel array and its entries mirror `chans`. */
    ghost predicate Linked()
      reads this, Repr - {world}
    {
      && this in Repr && world in Repr
      && |chans| == channelssize
      && (channels == null <==> channelssize == 0)
      && (channels != null ==> channels in Repr && channels.Length == channelssize)
      && forall i :: 0 <= i < channelssize ==> Entry(channels[i], chans[i])
    }

    ghost predicate Entry(ch: Channel, c: Chan)
      reads this, Repr - {world}
    {
      && ch in Repr && ch.inbuf in Repr && ch.outbuf in Repr && Mirrors(ch, c)
      && (channels as object?) != ch.inbuf && (channels as object?) != ch.outbuf
    }

    static ghost predicate Mirrors(ch: Channel, c: Chan)
      reads ch
    {
      && ch.inbuf.Length == ch.outbuf.Length == BUFSIZE
      && ch.socket == c.socket && ch.handle == c.handle
    }

    ghost function OutBufs(): set<array<Byte>>
      requires Linked()
      reads this, Repr - {world}
    {
      set i | 0 <= i < channelssize :: channels[i].outbuf
    }

    ghost predicate Valid()
      reads this, Repr
    {
      Linked() && closes == 0 && world.Valid() && Holds(world.mon, V())
    }

    /** rbm_ssh_session_create */
    constructor (world: World)
      requires world.Valid() && world.mon == START
      ensures Valid() && this.world == world && Repr == {this, world}
      ensures V() == View([], INVALID, INVALID, 0)
    {
      this.world := world;
      localsocket, sshsocket, sshsession := INVALID, INVALID, 0;
      channels, channelssize, closes := null, 0, 0;
      chans, Repr := [], {this, world};
    }

    /** The rbm_array_add part of rbm_channel_create. */
    method Append(channel: Channel)
      requires Linked()
      requires channel.inbuf.Length == channel.outbuf.Length == BUFSIZE
      modifies this`channels, this`channelssize, this`chans, this`Repr
      ensures Linked() && fresh(Repr - old(Repr) - {channel, channel.inbuf, channel.outbuf})
      ensures chans == old(chans) + [Chan(channel.socket, channel.handle)]
    {
      ghost var before := PointerArray.Contents(channels, channelssize);
      assert forall i :: 0 <= i < |before| ==> Entry(before[i], chans[i]);
      var rc, a, size := PointerArray.Add(channels, channelssize, channel, true);
      assert forall i :: 0 <= i < |before| ==> a[i] == (before + [channel])[i];
      assert a[channelssize] == (before + [channel])[channelssize];
      chans := chans + [Chan(channel.socket, channel.handle)];
      Repr := Repr + {channel, channel.inbuf, channel.outbuf, a};
      channels, channelssize := a, size;
    }

    /** rbm_channel_create; allocations are taken to succeed. */
    method CreateChannel(socket: int, handle: nat)
      requires Linked() && world.Valid() && CanPair(world.mon, handle, socket)
      modifies this`channels, this`channelssize, this`chans, this`Repr, world`mon, world`log
      ensures Linked() && world.Valid() && fresh(Repr - old(Repr))
      ensures chans == old(chans) + [Chan(socket, handle)]
      ensures world.mon == PlusLane(old(world.mon), handle, old(world.mon).open[socket].conn)
      ensures world.log == old(world.log) + [Paired(handle, socket, old(world.mon).open[socket].conn)]
    {
      var channel := new Channel(socket, handle);
      Append(channel);
      world.Pair(handle, socket);
    }

    /** rbm_channel_find_by_socket */
    method FindBySocket(socket: int) returns (channel: Channel?, ghost k: nat)
      requires Linked()
      ensures channel == null ==> socket !in Sockets(chans)
      ensures channel != null ==> k < channelssize && channels[k] == channel && channel.socket == socket
    {
      var i := 0;
      while i < channelssize
        invariant 0 <= i <= channelssize
        invariant forall j :: 0 <= j < i ==> chans[j].socket != socket
      {
        assert Entry(channels[i], chans[i]);
        if channels[i].socket == socket {
          return channels[i], i;
        }
        i := i + 1;
      }
      return null, 0;
    }

    /** The channel array without one entry. */
    method Shrunk(channel: Channel, ghost k: nat) returns (a: array?<Channel>, size: nat)
      requires Linked() && Distinct(chans) && k < channelssize && channels[k] == channel
      ensures size == channelssize - 1 && (a == null <==> size == 0)
      ensures a != null ==> fresh(a) && a.Length == size
      ensures forall i :: 0 <= i < size ==> a[i] == channels[if i < k then i else i + 1] && a[i] != channel
    {
      ghost var before := PointerArray.Contents(channels, channelssize);
      forall i | 0 <= i < |before| && i != k ensures before[i] != channel {
        assert Entry(channels[i], chans[i]) && Entry(channels[k], chans[k]);
      }
      PointerArray.IndexOfUnique(before, channel, k);
      var rc;
      rc, a, size := PointerArray.Remove(channels, channelssize, channel, true);
      forall i | 0 <= i < size ensures a[i] == before[if i < k then i else i + 1] {
        WithoutAt(before, k, i);
        assert a[i] == PointerArray.Contents(a, size)[i];
      }
    }

    /** The rbm_array_remove part of rbm_channel_close. */
    method Detach(channel: Channel, ghost k: nat)
      requires Linked() && Distinct(chans) && k < channelssize && channels[k] == channel
      modifies this`channels, this`channelssize, this`chans, this`Repr
      ensures Linked() && Repr >= old(Repr) && fresh(Repr - old(Repr))
      ensures chans == Without(old(chans), k)
      ensures forall i :: 0 <= i < channelssize ==> channels[i] != channel
    {
      ghost var cs := chans;
      var a, size := Shrunk(channel, k);
      hide Without;
      forall i | 0 <= i < size ensures |Without(cs, k)| == size && Without(cs, k)[i] == cs[if i < k then i else i + 1] {
        WithoutAt(cs, k, i);
      }
      WithoutLength(cs, k);
      channels, channelssize, chans := a, size, Without(chans, k);
      if channels != null {
        Repr := Repr + {channels};
      }
      forall i | 0 <= i < size ensures Entry(a[i], chans[i]) {
        var j := if i < k then i else i + 1;
        assert old(Entry(channels[j], chans[j]));
      }
    }

    static lemma WithoutLength<T>(s: seq<T>, k: nat)
      requires k < |s|
      ensures |Without(s, k)| == |s| - 1
    {
    }

    static lemma WithoutAt<T>(s: seq<T>, k: nat, i: nat)
      requires k < |s| && i < |s| - 1
      ensures |Without(s, k)| == |s| - 1 && Without(s, k)[i] == s[if i < k then i else i + 1]
    {
    }

    /** rbm_channel_close */
    method CloseChannel(channel: Channel, ghost k: nat)
      requires Valid() && k < channelssize && channels[k] == channel
      modifies Repr
      ensures Valid() && fresh(Repr - old(Repr))
      ensures V() == old(V()).(chans := Without(old(chans), k))
      ensures
        var c := old(chans)[k];
        && c.socket in old(world.mon).open
        && world.mon == MinusChannel(MinusSocket(old(world.mon), c.socket), c.handle)
        && world.log == old(world.log) + [Closed(c.socket, old(world.mon).open[c.socket].conn), ChannelFreed(c.handle)]
      ensures world.selectsLeft == old(world.selectsLeft)
    {
      hide Holds, MonitorOk, Run, Accepted, After;
      world.Consistent();
      RemoveChannelHolds(world.mon, V(), k);
      assert Entry(channel, chans[k]);
      Detach(channel, k);
      if channel.socket != INVALID {
        world.CloseSocket(channel.socket);
        channel.socket := INVALID;
      }
      if channel.handle != 0 {
        world.ChannelFree(channel.handle);
        channel.handle := 0;
      }
    }

    /** The first step of a cleanup, on the calls that remain to be made. */
    static lemma TeardownStep(m: Monitor, chans: seq<Chan>, ssh: int)
      requires chans != [] && Distinct(chans) && chans[0].socket != ssh
      ensures
        var c := chans[0];
        var m' := MinusChannel(MinusSocket(m, c.socket), c.handle);
        && ChannelsTeardown(m, chans) ==
           [Closed(c.socket, ConnOf(m, c.socket)), ChannelFreed(c.handle)] + ChannelsTeardown(m', Without(chans, 0))
        && ConnOf(m', ssh) == ConnOf(m, ssh)
    {
      hide Others;
      var m' := MinusChannel(MinusSocket(m, chans[0].socket), chans[0].handle);
      assert Without(chans, 0) == chans[1..];
      ChannelsTeardownFrame(m, m', chans[1..]);
    }

    /** rbm_session_cleanup */
    method Cleanup()
      requires Valid()
      modifies Repr
      ensures Valid() && fresh(Repr - old(Repr))
      ensures V() == View([], old(localsocket), INVALID, 0)
      ensures world.log == old(world.log) + Teardown(old(world.mon), old(V()))
      ensures world.selectsLeft == old(world.selectsLeft)
      ensures SameLoop(old(world.mon), world.mon)
    {
      hide Holds, MonitorOk, ChannelsTeardown, Run, Accepted, After;
      ghost var log, m, v := world.log, world.mon, V();
      CloseAllChannels();
      FreeSshSession();
      CloseSshSocket();
      assert world.log == log + Teardown(m, v) by {
        Regroup(log, ChannelsTeardown(m, v.chans), if v.session != 0 then [SessionFreed(v.session)] else [],
                if v.ssh != INVALID then [Closed(v.ssh, ConnOf(m, v.ssh))] else []);
      }
    }

    method FreeSshSession()
      requires Valid() && chans == []
      modifies this`sshsession, world`mon, world`log
      ensures Valid() && V() == old(V()).(session := 0)
      ensures world.mon.open == old(world.mon).open
      ensures world.log == old(world.log) + if old(sshsession) != 0 then [SessionFreed(old(sshsession))] else []
      ensures SameLoop(old(world.mon), world.mon)
    {
      hide Holds, MonitorOk, Run, Accepted, After;
      if sshsession != 0 {
        world.Consistent();
        FreeSessionHolds(world.mon, V());
        world.SessionFree(sshsession);
        sshsession := 0;
      }
    }

    method CloseSshSocket()
      requires Valid() && sshsession == 0
      modifies this`sshsocket, world`mon, world`log
      ensures Valid() && V() == old(V()).(ssh := INVALID)
      ensures world.log == old(world.log)
        + if old(sshsocket) != INVALID then [Closed(old(sshsocket), ConnOf(old(world.mon), old(sshsocket)))] else []
      ensures SameLoop(old(world.mon), world.mon)
    {
      hide Holds, MonitorOk, Run, Accepted, After;
      if sshsocket != INVALID {
        world.Consistent();
        CloseSshHolds(world.mon, V());
        world.CloseSocket(sshsocket);
        sshsocket := INVALID;
      }
    }

    method CloseAllChannels()
      requires Valid()
      modifies Repr
      ensures Valid() && fresh(Repr - old(Repr))
      ensures V() == old(V()).(chans := [])
      ensures world.log == old(world.log) + ChannelsTeardown(old(world.mon), old(chans))
      ensures ConnOf(world.mon, sshsocket) == ConnOf(old(world.mon), sshsocket)
      ensures world.selectsLeft == old(world.selectsLeft)
      ensures SameLoop(old(world.mon), world.mon)
    {
      hide Holds, MonitorOk, Run, Accepted, After;
      while channelssize > 0
        invariant Valid() && fresh(Repr - old(Repr))
        invariant V() == old(V()).(chans := chans)
        invariant world.log + ChannelsTeardown(world.mon, chans)
               == old(world.log) + ChannelsTeardown(old(world.mon), old(chans))
        invariant ConnOf(world.mon, sshsocket) == ConnOf(old(world.mon), sshsocket)
        invariant world.selectsLeft == old(world.selectsLeft)
        invariant SameLoop(old(world.mon), world.mon)
        decreases channelssize
      {
        world.Consistent();
        FirstIsClient(world.mon, V());
        TeardownStep(world.mon, chans, sshsocket);
        CloseChannel(channels[0], 0);
      }
    }

    static lemma FirstIsClient(m: Monitor, v: View)
      requires MonitorOk(m) && Holds(m, v) && v.chans != []
      ensures Distinct(v.chans) && v.chans[0].socket != v.ssh && v.chans[0].socket in m.open
    {
      assert ChanOk(m, v.chans[0]);
    }

    /** rbm_ssh_setup */
    method SshSetup() returns (rc: int)
      requires Valid() && sshsocket == INVALID
      modifies this`sshsocket, this`sshsession, world`mon, world`log
      ensures Valid() && SameLoop(old(world.mon), world.mon)
      ensures rc == SUCCESS || rc == ERROR
      ensures rc == SUCCESS <==> sshsession != 0
      ensures rc == SUCCESS ==> sshsocket != INVALID
      ensures world.log == old(world.log) + SetupCalls(old(world.mon), V())
      ensures world.mon.nextConn == old(world.mon).nextConn + if sshsocket == INVALID then 0 else 1
    {
      hide Holds, MonitorOk, Run, Accepted, After;
      NoSessionWithoutSocket(world.mon, V());
      ConnectSocket();
      if sshsocket == INVALID {
        return ERROR;
      }
      StartSession();
      return if sshsession == 0 then ERROR else SUCCESS;
    }

    method ConnectSocket()
      requires Valid() && sshsocket == INVALID
      modifies this`sshsocket, world`mon, world`log
      ensures Valid() && SameLoop(old(world.mon), world.mon)
      ensures world.log == old(world.log)
        + [if sshsocket == INVALID then NotOpened(Ssh) else Opened(sshsocket, old(world.mon).nextConn, Ssh)]
      ensures world.mon.nextConn == old(world.mon).nextConn + if sshsocket == INVALID then 0 else 1
    {
      hide Holds, MonitorOk, Run, Accepted, After;
      world.Consistent();
      ghost var m, v := world.mon, V();
      sshsocket := world.OpenSocket(Ssh);
      if sshsocket != INVALID {
        OpenSshHolds(m, v, sshsocket);
      }
    }

    method StartSession()
      requires Valid() && sshsocket != INVALID && sshsession == 0
      modifies this`sshsession, world`mon, world`log
      ensures Valid() && SameLoop(old(world.mon), world.mon)
      ensures world.log == old(world.log)
            + [if sshsession == 0 then SessionFailed(sshsocket) else SessionUp(sshsession, sshsocket)]
      ensures world.mon.nextConn == old(world.mon).nextConn
    {
      hide Holds, MonitorOk, Run, Accepted, After;
      world.Consistent();
      SessionUpHolds(world.mon, V());
      sshsession := world.SshConnect(sshsocket);
    }

    static lemma NoSessionWithoutSocket(m: Monitor, v: View)
      requires Holds(m, v) && v.ssh == INVALID
      ensures v.session == 0
    {
    }

    /** rbm_ssh_session_setup */
    method SessionSetup() returns (rc: int)
      requires Valid() && sshsocket == INVALID && localsocket == INVALID
      modifies this`sshsocket, this`sshsession, this`localsocket, world`mon, world`log
      ensures Valid() && chans == old(chans)
      ensures rc == SUCCESS || rc == ERROR
      ensures rc == SUCCESS <==> sshsession != 0 && localsocket != INVALID
      ensures world.log == old(world.log) + SetupCalls(old(world.mon), V()) + ListenCalls(old(world.mon), V())
      ensures rc == ERROR ==> FailedSince(world.log, |old(world.log)|)
    {
      hide Holds, MonitorOk, Run, Accepted, After;
      rc := SshSetup();
      if rc == ERROR {
        assert world.log[|world.log| - 1].NotOpened? || world.log[|world.log| - 1].SessionFailed?;
        return ERROR;
      }
      world.Consistent();
      ghost var m, v := world.mon, V();
      localsocket := world.OpenSocket(Listener);
      if localsocket == INVALID {
        assert world.log[|world.log| - 1] == NotOpened(Listener);
        return ERROR;
      }
      OpenLocalHolds(m, v, localsocket);
      return SUCCESS;
    }

    /** rbm_ssh_session_close: afterwards the session may not be used again. */
    method SessionClose()
      requires Valid()
      modifies Repr
      ensures closes == 1 && world.Valid() && Released(world.mon)
      ensures fresh(Repr - old(Repr)) && V() == View([], INVALID, INVALID, 0)
      ensures
        var m, v := old(world.mon), old(V());
        world.log == old(world.log)
          + (if v.local != INVALID then [Closed(v.local, ConnOf(m, v.local))] else [])
          + Teardown(if v.local != INVALID then MinusSocket(m, v.local) else m, v)
      ensures world.selectsLeft == old(world.selectsLeft)
      ensures SameLoop(old(world.mon), world.mon)
    {
      hide Holds, MonitorOk, Run, Accepted, After;
      if localsocket != INVALID {
        world.Consistent();
        CloseLocalHolds(world.mon, V());
        world.CloseSocket(localsocket);
        localsocket := INVALID;
      }
      Cleanup();
      world.Consistent();
      ReleasedWhenEmpty(world.mon, V());
      closes := closes + 1;
    }
  }
}
