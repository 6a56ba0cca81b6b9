/**
 The record a tunnel leaves behind and the rules it has to obey.

 A run of the tunnel engine is a sequence of events: every system call and every
 libssh2 call whose effect matters, plus the decisions of the select loop.  The
 monitor below is written from the point of view of the operating system and of
 libssh2: it knows which descriptors, sessions and channels are alive and which
 bytes went where, and it says which events are legal next.  It knows nothing of
 the engine's own data structures.
 */
module TunnelTrace {
  import opened Wrappers
  import opened TunnelEvents

  /** What has passed over one libssh2 channel and the client connection it serves. */
  datatype Lane = Lane(
    conn: nat,
    received: seq<Byte>,  // from the client
    written: seq<Byte>,   // to the channel
    read: seq<Byte>,      // from the channel
    sent: seq<Byte>,      // to the client
    pending: seq<Byte>,   // read, not yet sent and not given up
    lost: nat,            // read and given up after a failed send
    asked: bool)          // asked for the end of its stream since the last chunk

  datatype Monitor = Monitor(
    open: map<int, Sock>,
    nextConn: nat,
    nextHandle: nat,           // libssh2 handles are numbered from 1; 0 is NULL
    sessions: map<nat, int>,   // live libssh2 sessions and the descriptor each runs over
    live: map<nat, nat>,       // live libssh2 channels and the session of each
    lanes: map<nat, Lane>,
    laneOf: map<nat, nat>,     // client connection -> channel
    base: nat,                 // handles from here on belong to the current tunnel
    ready: map<int, Sock>,     // sockets the last select reported, as they were then
    dispatched: seq<int>,      // those handed to a handler since
    current: Option<Dispatch>, // the dispatch going on
    order: seq<nat>,           // the live channels that are paired, in the order of pairing
    agains: nat,
    lastRc: int,
    idle: bool,                // some dispatch of the current tunnel ended without a live channel
    broken: bool)              // select failed in the current tunnel

  const START := Monitor(map[], 0, 1, map[], map[], map[], map[], 1, map[], [], None, [], 0, 0, false, false)

  predicate Serves(m: Monitor, conn: nat) {
    conn in m.laneOf && m.laneOf[conn] in m.lanes && m.laneOf[conn] in m.live
  }

  predicate OnSocket(m: Monitor, fd: int, conn: nat) {
    fd in m.open && m.open[fd].conn == conn && Serves(m, conn)
  }

  /** That client is being dispatched. */
  predicate Serving(m: Monitor, fd: int, conn: nat) {
    m.current.Some? && m.current.value.fd == fd && m.current.value.sock == Sock(conn, Client)
  }

  predicate OnChannel(m: Monitor, ch: nat) {
    ch in m.live && ch in m.lanes
  }

  predicate Settled(l: Lane) {
    l.written == l.received && l.pending == [] && l.asked
  }

  /** Nothing received or read by the current tunnel is still on its way. */
  ghost predicate Balanced(m: Monitor) {
    forall ch :: ch in m.lanes && m.base <= ch ==> Settled(m.lanes[ch])
  }

  /** Every socket the last select reported has been dealt with. */
  ghost predicate ScanDone(m: Monitor) {
    m.current.None? && forall fd :: fd in m.ready ==> fd in m.dispatched
  }

  /** The state in which the engine may call select: the set it passes holds the
      listener, the SSH socket and exactly the clients served by a live channel.  It does
      not select again once it has been idle. */
  ghost predicate SelectOk(m: Monitor, master: set<int>, fdmax: int) {
    && (forall fd :: fd in master ==> fd in m.open && fd <= fdmax)
    && (forall fd :: fd in m.open ==>
          (fd in master <==> (m.open[fd].kind.Client? ==> Serves(m, m.open[fd].conn))))
    && HasKind(m, master, Listener) && HasKind(m, master, Ssh)
    && Balanced(m) && ScanDone(m) && !m.idle
  }

  ghost predicate HasKind(m: Monitor, master: set<int>, kind: Kind) {
    exists fd :: fd in master && fd in m.open && m.open[fd].kind == kind
  }

  /** Legality of an event that moves bytes, as far as its own lane goes. */
  predicate LaneLegal(l: Lane, e: Event) {
    match e
    case Received(_, _, data) => data != []
    case Written(_, data) => l.written + data <= l.received
    case Read(_, _) => l.pending == [] && l.asked
    case EofAsked(_, _) => l.pending == []
    case Sent(_, _, data) => data != [] && data <= l.pending
    case SendFailed(_, _) => l.pending != []
    case _ => false
  }

  function LaneNext(l: Lane, e: Event): Lane
    requires LaneLegal(l, e)
  {
    match e
    case Received(_, _, data) => l.(received := l.received + data)
    case Written(_, data) => l.(written := l.written + data)
    case Read(_, data) => l.(read := l.read + data, pending := data, asked := false)
    case EofAsked(_, _) => l.(asked := true)
    case Sent(_, _, data) => l.(sent := l.sent + data, pending := l.pending[|data|..])
    case SendFailed(_, _) => l.(pending := [], lost := l.lost + |l.pending|)
  }

  function WithLane(m: Monitor, ch: nat, e: Event): Monitor
    requires ch in m.lanes && LaneLegal(m.lanes[ch], e)
  {
    PutLane(m, ch, LaneNext(m.lanes[ch], e))
  }

  // Conditions and effects of the single events.

  ghost predicate NoSessionOn(m: Monitor, fd: int) {
    forall s :: s in m.sessions ==> m.sessions[s] != fd
  }

  ghost predicate NoChannelOf(m: Monitor, s: nat) {
    forall ch :: ch in m.live ==> m.live[ch] != s
  }

  ghost predicate NotConnected(m: Monitor, conn: nat) {
    forall fd :: fd in m.open ==> m.open[fd].conn != conn
  }

  ghost predicate CanFree(m: Monitor, ch: nat) {
    ch in m.live && (ch in m.lanes ==> NotConnected(m, m.lanes[ch].conn))
  }

  predicate CanPair(m: Monitor, ch: nat, fd: int) {
    && ch in m.live && ch !in m.lanes
    && fd in m.open && m.open[fd].kind.Client? && m.open[fd].conn !in m.laneOf
  }

  ghost predicate CanDispatch(m: Monitor, fd: int) {
    && m.current.None? && fd in m.ready && fd in m.open && m.open[fd] == m.ready[fd]
    && (m.open[fd].kind.Client? ==> Serves(m, m.open[fd].conn))
    && forall x :: x in m.dispatched ==> x < fd
  }

  /** A sequence without a given number. */
  function Others(s: seq<nat>, x: nat): seq<nat> {
    if s == [] then [] else Others(s[..|s| - 1], x) + if s[|s| - 1] == x then [] else [s[|s| - 1]]
  }

  function PlusSocket(m: Monitor, fd: int, kind: Kind): Monitor {
    m.(open := m.open[fd := Sock(m.nextConn, kind)], nextConn := m.nextConn + 1)
  }

  function MinusSocket(m: Monitor, fd: int): Monitor {
    m.(open := m.open - {fd})
  }

  function PlusSession(m: Monitor, fd: int): Monitor {
    m.(sessions := m.sessions[m.nextHandle := fd], nextHandle := m.nextHandle + 1)
  }

  function MinusSession(m: Monitor, s: nat): Monitor {
    m.(sessions := m.sessions - {s})
  }

  function PlusChannel(m: Monitor, s: nat): Monitor {
    m.(live := m.live[m.nextHandle := s], nextHandle := m.nextHandle + 1)
  }

  function MinusChannel(m: Monitor, ch: nat): Monitor {
    m.(live := m.live - {ch}, order := Others(m.order, ch))
  }

  function PlusLane(m: Monitor, ch: nat, conn: nat): Monitor {
    m.(lanes := m.lanes[ch := Lane(conn, [], [], [], [], [], 0, true)], laneOf := m.laneOf[conn := ch],
       order := m.order + [ch])
  }

  function PutLane(m: Monitor, ch: nat, l: Lane): Monitor {
    m.(lanes := m.lanes[ch := l])
  }

  function Begun(m: Monitor): Monitor {
    m.(base := m.nextHandle, ready := map[], dispatched := [], current := None, agains := 0, lastRc := 0,
        idle := false, broken := false)
  }

  function Reported(m: Monitor, ready: set<int>): Monitor {
    m.(ready := map fd | fd in ready && fd in m.open :: m.open[fd], dispatched := [], current := None)
  }

  /** The channel of a connection, or 0. */
  function ChannelOf(m: Monitor, conn: nat): nat {
    if conn in m.laneOf then m.laneOf[conn] else 0
  }

  function Handed(m: Monitor, fd: int): Monitor {
    m.(dispatched := m.dispatched + [fd],
       current := if fd in m.open then Some(Dispatch(fd, m.open[fd], ChannelOf(m, m.open[fd].conn), m.order)) else None)
  }

  function Finished(m: Monitor, rc: int): Monitor {
    m.(agains := if rc == AGAIN then m.agains + 1 else 0, lastRc := rc, current := None,
       idle := m.idle || m.live == map[])
  }

  function Broken(m: Monitor): Monitor {
    m.(broken := true)
  }

  ghost predicate Legal(m: Monitor, e: Event) {
    match e
    case Opened(fd, conn, kind) => 0 <= fd && fd !in m.open && conn == m.nextConn
    case NotOpened(_) => true
    case Closed(fd, conn) => fd in m.open && m.open[fd].conn == conn && NoSessionOn(m, fd)
    case SessionUp(s, fd) => s == m.nextHandle && fd in m.open && m.open[fd].kind.Ssh?
    case SessionFailed(fd) => fd in m.open && m.open[fd].kind.Ssh?
    case SessionFreed(s) => s in m.sessions && NoChannelOf(m, s)
    case ChannelUp(ch, s) => ch == m.nextHandle && s in m.sessions
    case ChannelRefused(s, _) => s in m.sessions
    case ChannelFreed(ch) => CanFree(m, ch)
    case Paired(ch, fd, conn) => CanPair(m, ch, fd) && m.open[fd].conn == conn
    case Received(fd, conn, _) =>
      OnSocket(m, fd, conn) && Serving(m, fd, conn) && LaneLegal(m.lanes[m.laneOf[conn]], e)
    case ClientGone(fd, conn, _) => OnSocket(m, fd, conn) && Serving(m, fd, conn)
    case Written(ch, _) => OnChannel(m, ch) && LaneLegal(m.lanes[ch], e)
    case WriteAgain(ch) => OnChannel(m, ch)
    case WriteFailed(ch) => OnChannel(m, ch)
    case Read(ch, _) => OnChannel(m, ch) && LaneLegal(m.lanes[ch], e)
    case ReadAgain(ch) => OnChannel(m, ch) && m.lanes[ch].pending == [] && m.lanes[ch].asked
    case ReadFailed(ch) => OnChannel(m, ch) && m.lanes[ch].pending == [] && m.lanes[ch].asked
    case EofAsked(ch, _) => OnChannel(m, ch) && LaneLegal(m.lanes[ch], e)
    case Sent(fd, conn, _) => OnSocket(m, fd, conn) && LaneLegal(m.lanes[m.laneOf[conn]], e)
    case SendFailed(fd, conn) => OnSocket(m, fd, conn) && LaneLegal(m.lanes[m.laneOf[conn]], e)
    case TunnelStart => m.live == map[]
    case Selected(master, fdmax, ready) => SelectOk(m, master, fdmax) && ready <= master
    case SelectFailed(master, fdmax) => SelectOk(m, master, fdmax)
    case Dispatching(fd) => CanDispatch(m, fd)
    case Dispatched(rc) => m.current.Some? && (rc == AGAIN ==> m.agains < MAX_ERRORS)
  }

  function Next(m: Monitor, e: Event): Monitor
    requires Legal(m, e)
  {
    match e
    case Opened(fd, _, kind) => PlusSocket(m, fd, kind)
    case NotOpened(_) => m
    case Closed(fd, _) => MinusSocket(m, fd)
    case SessionUp(_, fd) => PlusSession(m, fd)
    case SessionFailed(_) => m
    case SessionFreed(s) => MinusSession(m, s)
    case ChannelUp(_, s) => PlusChannel(m, s)
    case ChannelRefused(_, _) => m
    case ChannelFreed(ch) => MinusChannel(m, ch)
    case Paired(ch, _, conn) => PlusLane(m, ch, conn)
    case Received(_, conn, _) => WithLane(m, m.laneOf[conn], e)
    case ClientGone(_, _, _) => m
    case Written(ch, _) => WithLane(m, ch, e)
    case WriteAgain(_) => m
    case WriteFailed(_) => m
    case Read(ch, _) => WithLane(m, ch, e)
    case ReadAgain(_) => m
    case ReadFailed(_) => m
    case EofAsked(ch, _) => WithLane(m, ch, e)
    case Sent(_, conn, _) => WithLane(m, m.laneOf[conn], e)
    case SendFailed(_, conn) => WithLane(m, m.laneOf[conn], e)
    case TunnelStart => Begun(m)
    case Selected(_, _, ready) => Reported(m, ready)
    case SelectFailed(_, _) => Broken(m)
    case Dispatching(fd) => Handed(m, fd)
    case Dispatched(rc) => Finished(m, rc)
  }

  /** A result may be booked only when the calls since the socket was handed out are the ones
      the dispatch owes, and decide that result. */
  ghost predicate Booked(past: seq<Event>, m: Monitor, e: Event) {
    e.Dispatched? ==> m.current.Some? && Answered(m.current.value, Work(past), e.rc)
  }

  /** The monitor after a log, unless some event in it was illegal. */
  ghost function Run(log: seq<Event>): Option<Monitor> {
    if |log| == 0 then Some(START)
    else
      var before := Run(log[..|log| - 1]);
      var e := log[|log| - 1];
      if before.Some? && Legal(before.value, e) && Booked(log[..|log| - 1], before.value, e)
      then Some(Next(before.value, e)) else None
  }

  ghost predicate Accepted(log: seq<Event>) {
    Run(log).Some?
  }

  ghost function After(log: seq<Event>): Monitor
    requires Accepted(log)
  {
    Run(log).value
  }

  lemma AcceptedSnoc(log: seq<Event>, e: Event)
    requires Accepted(log) && Legal(After(log), e) && Booked(log, After(log), e)
    ensures Accepted(log + [e]) && After(log + [e]) == Next(After(log), e)
  {
    assert (log + [e])[..|log|] == log;
  }

  /** Every prefix of an accepted log is accepted, so what holds of accepted logs
      holds at every moment of a run. */
  lemma {:induction false} AcceptedPrefix(log: seq<Event>, k: nat)
    requires Accepted(log) && k <= |log|
    ensures Accepted(log[..k])
    decreases |log| - k
  {
    if k == |log| {
      assert log[..k] == log;
    } else {
      AcceptedPrefix(log, k + 1);
      assert log[..k + 1][..k] == log[..k];
    }
  }

  // What the monitor's bookkeeping keeps true, whatever the legal events are.

  ghost predicate LaneOk(l: Lane) {
    && l.written <= l.received
    && |l.read| == |l.sent| + l.lost + |l.pending|
    && (l.lost == 0 ==> l.read == l.sent + l.pending)
  }

  ghost predicate SocketsOk(m: Monitor) {
    && (forall fd :: fd in m.open ==> 0 <= fd && m.open[fd].conn < m.nextConn)
    && (forall fd, fd' :: fd in m.open && fd' in m.open && m.open[fd].conn == m.open[fd'].conn ==> fd == fd')
  }

  ghost predicate HandlesOk(m: Monitor) {
    && 0 < m.base <= m.nextHandle
    && (forall s :: s in m.sessions ==>
          0 < s < m.nextHandle && m.sessions[s] in m.open && m.open[m.sessions[s]].kind.Ssh?)
    && (forall ch :: ch in m.live ==> m.base <= ch < m.nextHandle && m.live[ch] in m.sessions)
  }

  ghost predicate LanesOk(m: Monitor) {
    && (forall ch :: ch in m.lanes ==>
          && 0 < ch < m.nextHandle && m.lanes[ch].conn < m.nextConn && LaneOk(m.lanes[ch])
          && m.lanes[ch].conn in m.laneOf && m.laneOf[m.lanes[ch].conn] == ch)
    && (forall conn :: conn in m.laneOf ==> m.laneOf[conn] in m.lanes && m.lanes[m.laneOf[conn]].conn == conn)
  }

  /** A channel is freed only after its client was closed. */
  ghost predicate ClientsOk(m: Monitor) {
    forall ch, fd :: ch in m.lanes && fd in m.open && m.open[fd].conn == m.lanes[ch].conn ==> ch in m.live
  }

  ghost predicate MonitorOk(m: Monitor) {
    SocketsOk(m) && HandlesOk(m) && LanesOk(m) && ClientsOk(m) && m.agains <= MAX_ERRORS
  }

  lemma LaneNextOk(l: Lane, e: Event)
    requires LaneOk(l) && LaneLegal(l, e)
    ensures LaneOk(LaneNext(l, e)) && LaneNext(l, e).conn == l.conn
  {
    if e.Sent? {
      assert l.pending == e.data + LaneNext(l, e).pending;
      assert l.sent + l.pending == (l.sent + e.data) + LaneNext(l, e).pending;
    }
  }

  lemma WithLaneOk(m: Monitor, ch: nat, e: Event)
    requires MonitorOk(m) && ch in m.lanes && LaneLegal(m.lanes[ch], e)
    ensures MonitorOk(WithLane(m, ch, e))
  {
    LaneNextOk(m.lanes[ch], e);
  }

  lemma PlusLaneOk(m: Monitor, ch: nat, fd: int)
    requires MonitorOk(m) && CanPair(m, ch, fd)
    ensures MonitorOk(PlusLane(m, ch, m.open[fd].conn))
  {
    assert LaneOk(PlusLane(m, ch, m.open[fd].conn).lanes[ch]);
  }

  lemma PlusSessionOk(m: Monitor, fd: int)
    requires MonitorOk(m) && fd in m.open && m.open[fd].kind.Ssh?
    ensures MonitorOk(PlusSession(m, fd))
  {
  }

  lemma MinusSessionOk(m: Monitor, s: nat)
    requires MonitorOk(m) && NoChannelOf(m, s)
    ensures MonitorOk(MinusSession(m, s))
  {
  }

  lemma PlusChannelOk(m: Monitor, s: nat)
    requires MonitorOk(m) && s in m.sessions
    ensures MonitorOk(PlusChannel(m, s))
  {
  }

  lemma MinusChannelOk(m: Monitor, ch: nat)
    requires MonitorOk(m) && CanFree(m, ch)
    ensures MonitorOk(MinusChannel(m, ch))
  {
  }

  lemma PlusSocketOk(m: Monitor, fd: int, kind: Kind)
    requires MonitorOk(m) && 0 <= fd && fd !in m.open
    ensures MonitorOk(PlusSocket(m, fd, kind))
  {
  }

  lemma MinusSocketOk(m: Monitor, fd: int)
    requires MonitorOk(m) && NoSessionOn(m, fd)
    ensures MonitorOk(MinusSocket(m, fd))
  {
  }

  lemma SameBooksOk(m: Monitor, m': Monitor)
    requires MonitorOk(m) && m'.agains <= MAX_ERRORS
    requires m'.open == m.open && m'.nextConn == m.nextConn && m'.nextHandle == m.nextHandle
          && m'.sessions == m.sessions
    requires m'.live == m.live && m'.lanes == m.lanes && m'.laneOf == m.laneOf
    requires m'.base == m.base || (m'.base == m.nextHandle && m.live == map[])
    ensures MonitorOk(m')
  {
  }

  /** The events of the loop leave the books alone. */
  lemma LoopOk(m: Monitor, ready: set<int>, fd: int, rc: int)
    requires MonitorOk(m) && (rc == AGAIN ==> m.agains < MAX_ERRORS)
    ensures MonitorOk(Reported(m, ready)) && MonitorOk(Handed(m, fd)) && MonitorOk(Broken(m))
          && MonitorOk(Finished(m, rc))
    ensures m.live == map[] ==> MonitorOk(Begun(m))
  {
    assert m.agains <= MAX_ERRORS;
    hide MonitorOk;
    SameBooksOk(m, Reported(m, ready));
    SameBooksOk(m, Handed(m, fd));
    SameBooksOk(m, Broken(m));
    SameBooksOk(m, Finished(m, rc));
    if m.live == map[] {
      SameBooksOk(m, Begun(m));
    }
  }

  /** The events that move bytes of one channel. */
  predicate Moves(e: Event) {
    e.Written? || e.Read? || e.EofAsked? || e.Received? || e.Sent? || e.SendFailed?
  }

  /** The channel whose lane such an event touches. */
  ghost function Target(m: Monitor, e: Event): nat
    requires Moves(e) && Legal(m, e)
  {
    if e.Written? || e.Read? || e.EofAsked? then e.ch else m.laneOf[e.conn]
  }

  lemma MovesOne(m: Monitor, e: Event)
    requires Moves(e) && Legal(m, e)
    ensures Target(m, e) in m.lanes && LaneLegal(m.lanes[Target(m, e)], e)
    ensures Next(m, e) == WithLane(m, Target(m, e), e)
  {
  }

  /** The events that only report. */
  predicate Reports(e: Event) {
    || e.NotOpened? || e.SessionFailed? || e.ChannelRefused? || e.ClientGone?
    || e.WriteAgain? || e.WriteFailed? || e.ReadAgain? || e.ReadFailed?
  }

  lemma ReportsNothing(m: Monitor, e: Event)
    requires Reports(e) && Legal(m, e)
    ensures Next(m, e) == m
  {
  }

  /** No legal event can break the monitor's own bookkeeping: in particular, at every
      moment what was written is a prefix of what was received, and every byte read is
      sent, still pending or counted as lost. */
  lemma NextOk(m: Monitor, e: Event)
    requires MonitorOk(m) && Legal(m, e)
    ensures MonitorOk(Next(m, e))
  {
    hide MonitorOk, SelectOk, CanDispatch, NoSessionOn, NoChannelOf, CanFree, LaneLegal, LaneNext;
    if Moves(e) {
      MovesOne(m, e);
      WithLaneOk(m, Target(m, e), e);
    } else if Reports(e) {
      ReportsNothing(m, e);
    } else {
      StructureOk(m, e);
    }
  }

  lemma StructureOk(m: Monitor, e: Event)
    requires MonitorOk(m) && Legal(m, e) && !Moves(e) && !Reports(e)
    ensures MonitorOk(Next(m, e))
  {
    hide MonitorOk, SelectOk, CanDispatch, NoSessionOn, NoChannelOf, CanFree, LaneLegal, LaneNext;
    match e
    case Opened(fd, _, kind) => PlusSocketOk(m, fd, kind);
    case Closed(fd, _) => MinusSocketOk(m, fd);
    case SessionUp(_, fd) => PlusSessionOk(m, fd);
    case SessionFreed(s) => MinusSessionOk(m, s);
    case ChannelUp(_, s) => PlusChannelOk(m, s);
    case ChannelFreed(ch) => MinusChannelOk(m, ch);
    case Paired(ch, fd, _) => PlusLaneOk(m, ch, fd);
    case TunnelStart => LoopOk(m, {}, 0, 0);
    case Selected(_, _, ready) => LoopOk(m, ready, 0, 0);
    case SelectFailed(_, _) => LoopOk(m, {}, 0, 0);
    case Dispatching(fd) => LoopOk(m, {}, fd, 0);
    case Dispatched(rc) => LoopOk(m, {}, 0, rc);
  }

  lemma {:induction false} AfterOk(log: seq<Event>)
    requires Accepted(log)
    ensures MonitorOk(After(log))
  {
    if |log| == 0 {
    } else {
      AfterOk(log[..|log| - 1]);
      NextOk(After(log[..|log| - 1]), log[|log| - 1]);
    }
  }
}
