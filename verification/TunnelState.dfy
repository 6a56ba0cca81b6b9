/**
 The engine's own view of a session as plain values, and how it is tied to the
 monitor: the facts every handler keeps, proved event by event.
 */
module TunnelState {
  import opened TunnelTrace
  import opened TunnelEvents
  import opened Wrappers

  /** The two fields of rbm_channel that identify it. */
  datatype Chan = Chan(socket: int, handle: nat)

  /** The fields of rbm_session. `session` is 0 for NULL, sockets are -1 when invalid. */
  datatype View = View(chans: seq<Chan>, local: int, ssh: int, session: nat)

  function Sockets(chans: seq<Chan>): set<int> {
    set c | c in chans :: c.socket
  }

  function Handles(chans: seq<Chan>): seq<nat> {
    seq(|chans|, i requires 0 <= i < |chans| => chans[i].handle)
  }

  ghost predicate ChanOk(m: Monitor, c: Chan) {
    && c.socket in m.open && m.open[c.socket].kind.Client?
    && m.open[c.socket].conn in m.laneOf && m.laneOf[m.open[c.socket].conn] == c.handle
    && OnChannel(m, c.handle)
  }

  ghost predicate Distinct(chans: seq<Chan>) {
    forall i, j :: 0 <= i < j < |chans| ==> chans[i].socket != chans[j].socket
  }

  ghost predicate Holder(chans: seq<Chan>, ch: nat) {
    exists i :: 0 <= i < |chans| && chans[i].handle == ch
  }

  ghost predicate SocketsHeld(m: Monitor, v: View) {
    && (v.local != -1 ==> v.local in m.open && m.open[v.local].kind.Listener?)
    && (v.ssh != -1 ==> v.ssh in m.open && m.open[v.ssh].kind.Ssh?)
    && (forall fd :: fd in m.open && m.open[fd].kind.Listener? ==> fd == v.local)
    && (forall fd :: fd in m.open && m.open[fd].kind.Ssh? ==> fd == v.ssh)
  }

  ghost predicate ChannelsHeld(m: Monitor, chans: seq<Chan>) {
    && (forall i :: 0 <= i < |chans| ==> ChanOk(m, chans[i]))
    && Distinct(chans)
    && (forall ch :: ch in m.live ==> Holder(chans, ch))
  }

  /** The session owns exactly what the monitor says is alive (a client that was
      accepted but got no channel excepted: the engine forgets it). */
  ghost predicate Holds(m: Monitor, v: View) {
    && SocketsHeld(m, v)
    && m.sessions == (if v.session == 0 then map[] else map[v.session := v.ssh])
    && (v.session != 0 ==> v.ssh != -1)
    && ChannelsHeld(m, v.chans) && m.order == Handles(v.chans)
  }

  /** Nothing but bytes moved. */
  ghost predicate SameShape(m: Monitor, m': Monitor) {
    && m'.open == m.open && m'.sessions == m.sessions && m'.live == m.live
    && m'.laneOf == m.laneOf && m'.lanes.Keys == m.lanes.Keys && m'.base == m.base && m'.order == m.order
    && m'.ready == m.ready && m'.dispatched == m.dispatched && m'.agains == m.agains
    && m'.current == m.current && m'.idle == m.idle && m'.broken == m.broken
  }

  /** The loop's bookkeeping in the monitor, which no handler touches. */
  ghost predicate SameLoop(m: Monitor, m': Monitor) {
    && m'.base == m.base && m'.agains == m.agains && m'.lastRc == m.lastRc
    && m'.ready == m.ready && m'.dispatched == m.dispatched
    && m'.current == m.current && m'.idle == m.idle && m'.broken == m.broken
  }

  /** The sockets other than `except` are the connections they were. */
  ghost predicate KeepsSockets(m: Monitor, m': Monitor, except: int) {
    && m'.ready == m.ready
    && forall fd :: fd in m.open && fd != except ==> fd in m'.open && m'.open[fd] == m.open[fd]
  }

  lemma HoldsShape(m: Monitor, m': Monitor, v: View)
    requires Holds(m, v) && SameShape(m, m')
    ensures Holds(m', v)
  {
  }

  lemma HoldsSame(m: Monitor, m': Monitor, v: View)
    requires Holds(m, v) && m'.open == m.open && m'.sessions == m.sessions
    requires m'.live == m.live && m'.lanes == m.lanes && m'.laneOf == m.laneOf && m'.order == m.order
    ensures Holds(m', v)
  {
  }

  /** The session has channels exactly when the outside has live ones. */
  lemma LiveIffChans(m: Monitor, v: View)
    requires Holds(m, v)
    ensures m.live == map[] <==> v.chans == []
  {
    if v.chans == [] {
      assert forall ch :: ch in m.live ==> Holder(v.chans, ch);
      assert m.live.Keys == {};
    } else {
      assert ChanOk(m, v.chans[0]);
    }
  }

  lemma OpenClientHolds(m: Monitor, v: View, fd: int)
    requires MonitorOk(m) && Holds(m, v) && fd !in m.open
    ensures Holds(PlusSocket(m, fd, Client), v)
    ensures m.nextConn !in m.laneOf
  {
  }

  lemma ChannelsHeldAdd(m: Monitor, m': Monitor, chans: seq<Chan>, c: Chan, s: nat, l: Lane)
    requires ChannelsHeld(m, chans) && c.socket in m.open && m.open[c.socket] == Sock(l.conn, Client)
    requires l.conn !in m.laneOf && c.handle !in m.live && c.handle !in m.lanes
    requires m'.open == m.open && m'.live == m.live[c.handle := s]
    requires m'.lanes == m.lanes[c.handle := l] && m'.laneOf == m.laneOf[l.conn := c.handle]
    ensures ChannelsHeld(m', chans + [c])
  {
    var chans' := chans + [c];
    forall i | 0 <= i < |chans'| ensures ChanOk(m', chans'[i]) {
      if i < |chans| {
        assert ChanOk(m, chans[i]);
      }
    }
    assert Distinct(chans') by {
      forall i | 0 <= i < |chans| ensures chans[i].socket != c.socket {
        assert ChanOk(m, chans[i]);
      }
    }
    forall ch | ch in m'.live ensures Holder(chans', ch) {
      if ch == c.handle {
        assert chans'[|chans|].handle == ch;
      } else {
        assert Holder(chans, ch);
        var i :| 0 <= i < |chans| && chans[i].handle == ch;
        assert chans'[i].handle == ch;
      }
    }
  }

  /** A connection accepted and paired with a new libssh2 channel joins the list. */
  lemma AddChannelHolds(m: Monitor, v: View, fd: int)
    requires MonitorOk(m) && Holds(m, v) && v.session != 0
    requires fd in m.open && m.open[fd].kind.Client? && m.open[fd].conn !in m.laneOf
    ensures
      var ch := m.nextHandle;
      var m1 := PlusChannel(m, v.session);
      && CanPair(m1, ch, fd)
      && Holds(PlusLane(m1, ch, m.open[fd].conn), v.(chans := v.chans + [Chan(fd, ch)]))
  {
    var ch, conn := m.nextHandle, m.open[fd].conn;
    var m2 := PlusLane(PlusChannel(m, v.session), ch, conn);
    ChannelsHeldAdd(m, m2, v.chans, Chan(fd, ch), v.session, m2.lanes[ch]);
    assert Handles(v.chans + [Chan(fd, ch)]) == Handles(v.chans) + [ch];
  }

  /** Different channels have different sockets, hence different handles. */
  lemma HandlesDistinct(m: Monitor, chans: seq<Chan>, i: nat, j: nat)
    requires MonitorOk(m) && ChannelsHeld(m, chans) && i < |chans| && j < |chans|
    requires chans[i].handle == chans[j].handle
    ensures i == j
  {
    assert ChanOk(m, chans[i]) && ChanOk(m, chans[j]);
    assert chans[i].socket == chans[j].socket;
  }

  ghost predicate DistinctHandles(chans: seq<Chan>) {
    forall i, j :: 0 <= i < j < |chans| ==> chans[i].handle != chans[j].handle
  }

  lemma ChannelsHeldRemove(m: Monitor, m': Monitor, chans: seq<Chan>, k: nat)
    requires ChannelsHeld(m, chans) && DistinctHandles(chans) && k < |chans|
    requires m'.open == m.open - {chans[k].socket} && m'.live == m.live - {chans[k].handle}
    requires m'.lanes == m.lanes && m'.laneOf == m.laneOf
    ensures ChannelsHeld(m', Without(chans, k))
  {
    var chans' := Without(chans, k);
    forall i | 0 <= i < |chans'| ensures ChanOk(m', chans'[i]) {
      var i' := if i < k then i else i + 1;
      assert chans'[i] == chans[i'] && ChanOk(m, chans[i']);
      assert chans[i'].socket != chans[k].socket && chans[i'].handle != chans[k].handle;
    }
    assert Distinct(chans') by { DistinctWithout(chans, k); }
    forall ch | ch in m'.live ensures Holder(chans', ch) {
      HolderWithout(chans, k, ch);
    }
  }

  lemma DistinctWithout(chans: seq<Chan>, k: nat)
    requires Distinct(chans) && k < |chans|
    ensures Distinct(Without(chans, k))
  {
  }

  lemma HolderWithout(chans: seq<Chan>, k: nat, ch: nat)
    requires Holder(chans, ch) && k < |chans| && chans[k].handle != ch
    ensures Holder(Without(chans, k), ch)
  {
    var i :| 0 <= i < |chans| && chans[i].handle == ch;
    assert Without(chans, k)[if i < k then i else i - 1].handle == ch;
  }

  lemma HandlesDiffer(m: Monitor, v: View)
    requires MonitorOk(m) && Holds(m, v)
    ensures DistinctHandles(v.chans)
  {
    hide Handles;
    forall i, j | 0 <= i < j < |v.chans| ensures v.chans[i].handle != v.chans[j].handle {
      if v.chans[i].handle == v.chans[j].handle {
        HandlesDistinct(m, v.chans, i, j);
      }
    }
  }

  /** Closing a channel's socket and then freeing its libssh2 channel is legal and
      takes that one channel off the books. */
  lemma RemoveChannelHolds(m: Monitor, v: View, k: nat)
    requires MonitorOk(m) && Holds(m, v) && k < |v.chans|
    ensures
      var c := v.chans[k];
      && Distinct(v.chans) && ChanOk(m, c) && NoSessionOn(m, c.socket) && 0 <= c.socket && 0 < c.handle
      && CanFree(MinusSocket(m, c.socket), c.handle)
      && Holds(MinusChannel(MinusSocket(m, c.socket), c.handle), v.(chans := Without(v.chans, k)))
  {
    hide Others, Handles;
    var c := v.chans[k];
    assert ChanOk(m, c);
    HandlesDiffer(m, v);
    ChannelsHeldRemove(m, MinusChannel(MinusSocket(m, c.socket), c.handle), v.chans, k);
    HandlesWithout(v.chans, k);
  }

  lemma {:induction false} HandlesOther(chans: seq<Chan>, ch: nat)
    requires forall i :: 0 <= i < |chans| ==> chans[i].handle != ch
    ensures Others(Handles(chans), ch) == Handles(chans)
  {
    if chans == [] {
    } else {
      OthersSnoc(chans, ch);
      HandlesOther(chans[..|chans| - 1], ch);
    }
  }

  lemma OthersSnoc(chans: seq<Chan>, ch: nat)
    requires chans != []
    ensures
      var n := |chans| - 1;
      Others(Handles(chans), ch) ==
        Others(Handles(chans[..n]), ch) + if chans[n].handle == ch then [] else [chans[n].handle]
  {
    assert Handles(chans)[..|chans| - 1] == Handles(chans[..|chans| - 1]);
  }

  lemma {:induction false} HandlesWithout(chans: seq<Chan>, k: nat)
    requires DistinctHandles(chans) && k < |chans|
    ensures Others(Handles(chans), chans[k].handle) == Handles(Without(chans, k))
  {
    hide Others;
    var n := |chans| - 1;
    var before := chans[..n];
    OthersSnoc(chans, chans[k].handle);
    if k == n {
      HandlesOther(before, chans[k].handle);
      assert Without(chans, k) == before;
    } else {
      HandlesWithout(before, k);
      assert Without(chans, k) == Without(before, k) + [chans[n]];
      assert Handles(Without(chans, k)) == Handles(Without(before, k)) + [chans[n].handle];
    }
  }

  /** Everything is given back: what is still open are clients that never got a channel. */
  ghost predicate Released(m: Monitor) {
    && m.sessions == map[] && m.live == map[]
    && forall fd :: fd in m.open ==> m.open[fd].kind.Client? && m.open[fd].conn !in m.laneOf
  }

  lemma ReleasedWhenEmpty(m: Monitor, v: View)
    requires MonitorOk(m) && Holds(m, v) && v == View([], -1, -1, 0)
    ensures Released(m)
  {
    assert forall ch :: ch in m.live ==> Holder(v.chans, ch);
    assert m.live.Keys == {};
  }

  lemma OpenSshHolds(m: Monitor, v: View, fd: int)
    requires MonitorOk(m) && Holds(m, v) && fd !in m.open && v.ssh == -1 && 0 <= fd
    ensures v.session == 0 && Holds(PlusSocket(m, fd, Ssh), v.(ssh := fd))
  {
  }

  lemma OpenLocalHolds(m: Monitor, v: View, fd: int)
    requires MonitorOk(m) && Holds(m, v) && fd !in m.open && v.local == -1 && 0 <= fd
    ensures Holds(PlusSocket(m, fd, Listener), v.(local := fd))
  {
  }

  lemma SessionUpHolds(m: Monitor, v: View)
    requires MonitorOk(m) && Holds(m, v) && v.ssh != -1 && v.session == 0
    ensures v.ssh in m.open && m.open[v.ssh].kind.Ssh?
    ensures Holds(PlusSession(m, v.ssh), v.(session := m.nextHandle))
  {
  }

  lemma FreeSessionHolds(m: Monitor, v: View)
    requires MonitorOk(m) && Holds(m, v) && v.chans == [] && v.session != 0
    ensures v.session in m.sessions && NoChannelOf(m, v.session)
    ensures Holds(MinusSession(m, v.session), v.(session := 0))
  {
    assert forall ch :: ch in m.live ==> Holder(v.chans, ch);
  }

  lemma CloseSshHolds(m: Monitor, v: View)
    requires MonitorOk(m) && Holds(m, v) && v.session == 0 && v.ssh != -1
    ensures v.ssh in m.open && NoSessionOn(m, v.ssh)
    ensures Holds(MinusSocket(m, v.ssh), v.(ssh := -1))
  {
    assert v.chans == [] || ChanOk(m, v.chans[0]);
  }

  lemma CloseLocalHolds(m: Monitor, v: View)
    requires MonitorOk(m) && Holds(m, v) && v.local != -1
    ensures v.local in m.open && NoSessionOn(m, v.local)
    ensures Holds(MinusSocket(m, v.local), v.(local := -1))
  {
    NotClientMinus(m, v.chans, v.local);
    hide ChannelsHeld;
  }

  /** Closing a socket that is not a client's takes no channel away. */
  lemma NotClientMinus(m: Monitor, chans: seq<Chan>, fd: int)
    requires ChannelsHeld(m, chans) && fd in m.open && !m.open[fd].kind.Client?
    ensures ChannelsHeld(MinusSocket(m, fd), chans)
  {
    forall i | 0 <= i < |chans| ensures ChanOk(MinusSocket(m, fd), chans[i]) {
      assert ChanOk(m, chans[i]);
    }
  }

  lemma SocketsWithout(chans: seq<Chan>, k: nat)
    requires Distinct(chans) && k < |chans|
    ensures Sockets(Without(chans, k)) == Sockets(chans) - {chans[k].socket}
  {
    var rest := Without(chans, k);
    forall fd | fd in Sockets(chans) && fd != chans[k].socket ensures fd in Sockets(rest) {
      var i :| 0 <= i < |chans| && chans[i].socket == fd;
      assert rest[if i < k then i else i - 1] == chans[i];
    }
    forall c | c in rest ensures c in chans && c.socket != chans[k].socket {
      var i :| 0 <= i < |rest| && rest[i] == c;
      assert rest[i] == chans[if i < k then i else i + 1];
    }
  }

  // The select loop's own variables.

  /** The master set of the loop against the session's channels. */
  ghost predicate MasterOk(v: View, master: set<int>, fdmax: int) {
    && (forall fd :: fd in master ==> fd <= fdmax)
    && v.local <= fdmax && v.ssh <= fdmax
    && master - {v.local, v.ssh} == Sockets(v.chans)
    && (v.local in master <==> v.ssh in master)
  }

  lemma SelectOkHere(m: Monitor, v: View, master: set<int>, fdmax: int)
    requires MonitorOk(m) && Holds(m, v) && Balanced(m) && ScanDone(m) && MasterOk(v, master, fdmax)
    requires v.local != -1 && v.session != 0 && v.local in master && !m.idle
    ensures SelectOk(m, master, fdmax)
  {
    assert v.local in m.open && m.open[v.local].kind == Listener;
    assert v.ssh in m.open && m.open[v.ssh].kind == Ssh;
    forall fd | fd in master ensures fd in m.open && fd <= fdmax {
      if fd != v.local && fd != v.ssh {
        assert fd in Sockets(v.chans);
        var i :| 0 <= i < |v.chans| && v.chans[i].socket == fd;
        assert ChanOk(m, v.chans[i]);
      }
    }
    forall fd | fd in m.open
      ensures fd in master <==> (m.open[fd].kind.Client? ==> Serves(m, m.open[fd].conn))
    {
      if m.open[fd].kind.Client? {
        ServedIffHeld(m, v, fd);
      }
    }
  }

  /** A client socket is served by a live channel exactly when a channel of the
      session owns it. */
  lemma ServedIffHeld(m: Monitor, v: View, fd: int)
    requires MonitorOk(m) && Holds(m, v) && fd in m.open && m.open[fd].kind.Client?
    ensures Serves(m, m.open[fd].conn) <==> fd in Sockets(v.chans)
  {
    if fd in Sockets(v.chans) {
      var i :| 0 <= i < |v.chans| && v.chans[i].socket == fd;
      assert ChanOk(m, v.chans[i]);
    }
    if Serves(m, m.open[fd].conn) {
      var ch := m.laneOf[m.open[fd].conn];
      assert Holder(v.chans, ch);
      var i :| 0 <= i < |v.chans| && v.chans[i].handle == ch;
      assert ChanOk(m, v.chans[i]);
      assert m.open[v.chans[i].socket].conn == m.lanes[ch].conn == m.open[fd].conn;
      assert v.chans[i].socket == fd;
    }
  }
}
