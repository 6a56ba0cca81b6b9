/**
 What an accepted log means, said without the monitor: statements about the events
 alone, for every log the engine can produce and at every moment of it.
 */
module TunnelTheorems {
  import opened TunnelTrace
  import opened TunnelEvents
  import opened TunnelState
  import opened Wrappers

  // The four byte streams, read off a log.

  datatype Stream = ToChannel(ch: nat) | FromChannel(ch: nat) | FromClient(conn: nat) | ToClient(conn: nat)

  function Part(e: Event, s: Stream): seq<Byte> {
    match s
    case ToChannel(ch) => if e.Written? && e.ch == ch then e.data else []
    case FromChannel(ch) => if e.Read? && e.ch == ch then e.data else []
    case FromClient(conn) => if e.Received? && e.conn == conn then e.data else []
    case ToClient(conn) => if e.Sent? && e.conn == conn then e.data else []
  }

  function Bytes(log: seq<Event>, s: Stream): seq<Byte> {
    if log == [] then [] else Bytes(log[..|log| - 1], s) + Part(log[|log| - 1], s)
  }

  function FailedSends(log: seq<Event>, conn: nat): nat {
    if log == [] then 0
    else
      var e := log[|log| - 1];
      FailedSends(log[..|log| - 1], conn) + if e.SendFailed? && e.conn == conn then 1 else 0
  }

  /** Splits an accepted log before its last event. */
  lemma LastStep(log: seq<Event>)
    requires Accepted(log) && log != []
    ensures Accepted(log[..|log| - 1])
    ensures Legal(After(log[..|log| - 1]), log[|log| - 1])
    ensures After(log) == Next(After(log[..|log| - 1]), log[|log| - 1])
    ensures Booked(log[..|log| - 1], After(log[..|log| - 1]), log[|log| - 1])
  {
  }

  /** What an event does to the lane of a channel. */
  predicate Grows(l: Lane, l': Lane, e: Event, ch: nat) {
    && l'.conn == l.conn
    && l'.written == l.written + Part(e, ToChannel(ch))
    && l'.read == l.read + Part(e, FromChannel(ch))
    && l'.received == l.received + Part(e, FromClient(l.conn))
    && l'.sent == l.sent + Part(e, ToClient(l.conn))
    && (l'.lost > 0 <==> l.lost > 0 || (e.SendFailed? && e.conn == l.conn))
  }

  predicate Concerns(e: Event, l: Lane, ch: nat) {
    || ((e.Written? || e.Read? || e.EofAsked?) && e.ch == ch)
    || ((e.Received? || e.Sent? || e.SendFailed?) && e.conn == l.conn)
  }

  lemma GrowsOwn(l: Lane, e: Event, ch: nat)
    requires LaneLegal(l, e) && Concerns(e, l, ch)
    ensures Grows(l, LaneNext(l, e), e, ch)
  {
  }

  lemma GrowsOther(l: Lane, e: Event, ch: nat)
    requires !Concerns(e, l, ch)
    ensures Grows(l, l, e, ch)
  {
  }

  lemma StaysPut(m: Monitor, e: Event, ch: nat)
    requires !Moves(e) && Legal(m, e) && ch in m.lanes
    ensures ch in Next(m, e).lanes && Next(m, e).lanes[ch] == m.lanes[ch]
  {
    hide SelectOk, Balanced, NoSessionOn, NoChannelOf, CanFree, CanDispatch, LaneLegal, LaneNext;
  }

  lemma LaneOfIff(m: Monitor, conn: nat, ch: nat)
    requires LanesOk(m) && conn in m.laneOf && ch in m.lanes
    ensures m.laneOf[conn] == ch <==> m.lanes[ch].conn == conn
  {
  }

  lemma TargetIff(m: Monitor, e: Event, ch: nat)
    requires LanesOk(m) && Moves(e) && Legal(m, e) && ch in m.lanes
    ensures Target(m, e) == ch <==> Concerns(e, m.lanes[ch], ch)
  {
    hide LanesOk, LaneLegal;
    if e.Received? || e.Sent? || e.SendFailed? {
      LaneOfIff(m, e.conn, ch);
    }
  }

  lemma LaneAfter(m: Monitor, e: Event, ch: nat)
    requires LanesOk(m) && Legal(m, e) && ch in m.lanes
    ensures ch in Next(m, e).lanes && Grows(m.lanes[ch], Next(m, e).lanes[ch], e, ch)
  {
    hide Next, LaneNext, Grows, LanesOk, Concerns;
    var l := m.lanes[ch];
    if Moves(e) {
      MovesOne(m, e);
      TargetIff(m, e, ch);
      if Target(m, e) == ch {
        GrowsOwn(l, e, ch);
      } else {
        GrowsOther(l, e, ch);
      }
    } else {
      StaysPut(m, e, ch);
      NotConcerned(e, l, ch);
      GrowsOther(l, e, ch);
    }
  }

  lemma NotConcerned(e: Event, l: Lane, ch: nat)
    requires !Moves(e)
    ensures !Concerns(e, l, ch)
  {
  }

  lemma NoLaneNoBytes(m: Monitor, e: Event, ch: nat)
    requires Legal(m, e) && ch !in m.lanes
    ensures Part(e, ToChannel(ch)) == [] && Part(e, FromChannel(ch)) == []
  {
    hide SelectOk, Balanced, NoSessionOn, NoChannelOf, CanFree, CanDispatch;
  }

  lemma NoLaneAfter(m: Monitor, e: Event, ch: nat)
    requires LanesOk(m) && Legal(m, e) && ch !in m.lanes
    ensures Part(e, ToChannel(ch)) == [] && Part(e, FromChannel(ch)) == []
    ensures
      var m' := Next(m, e);
      ch in m'.lanes ==> e.Paired? && e.ch == ch && e.conn !in m.laneOf
                         && m'.lanes[ch] == Lane(e.conn, [], [], [], [], [], 0, true)
  {
    NoLaneNoBytes(m, e, ch);
    if Moves(e) {
      MovesOne(m, e);
      hide Next, Legal, LaneNext;
    } else {
      hide SelectOk, Balanced, NoSessionOn, NoChannelOf, CanFree, CanDispatch, LanesOk, LaneLegal, LaneNext, Part;
    }
  }

  /** A connection without a channel neither gives nor takes a byte. */
  lemma UnpairedAfter(m: Monitor, e: Event, conn: nat)
    requires Legal(m, e) && conn !in Next(m, e).laneOf
    ensures conn !in m.laneOf && Part(e, FromClient(conn)) == [] && Part(e, ToClient(conn)) == []
    ensures !(e.SendFailed? && e.conn == conn)
  {
    hide SelectOk, Balanced, NoSessionOn, NoChannelOf, CanFree, CanDispatch, Others;
  }

  lemma {:induction false} UnpairedStreams(log: seq<Event>, conn: nat)
    requires Accepted(log) && conn !in After(log).laneOf
    ensures Bytes(log, FromClient(conn)) == [] && Bytes(log, ToClient(conn)) == [] && FailedSends(log, conn) == 0
  {
    hide Legal, Next;
    if log == [] {
    } else {
      LastStep(log);
      UnpairedAfter(After(log[..|log| - 1]), log[|log| - 1], conn);
      UnpairedStreams(log[..|log| - 1], conn);
    }
  }

  ghost predicate LaneIs(l: Lane, log: seq<Event>, ch: nat) {
    && l.written == Bytes(log, ToChannel(ch)) && l.read == Bytes(log, FromChannel(ch))
    && l.received == Bytes(log, FromClient(l.conn)) && l.sent == Bytes(log, ToClient(l.conn))
    && (l.lost > 0 <==> FailedSends(log, l.conn) > 0)
  }

  /** The monitor's lanes are the streams of the log. */
  lemma {:induction false} Streams(log: seq<Event>, ch: nat)
    requires Accepted(log)
    ensures if ch in After(log).lanes then LaneIs(After(log).lanes[ch], log, ch)
            else Bytes(log, ToChannel(ch)) == [] && Bytes(log, FromChannel(ch)) == []
  {
    hide Legal, Next, MonitorOk;
    if log == [] {
    } else {
      var before, e := log[..|log| - 1], log[|log| - 1];
      LastStep(log);
      assert LanesOk(After(before)) by { AfterOk(before); MonitorLanes(After(before)); }
      Streams(before, ch);
      if ch in After(before).lanes {
        LaneAfter(After(before), e, ch);
      } else {
        NoLaneAfter(After(before), e, ch);
        if ch in After(log).lanes {
          UnpairedStreams(before, e.conn);
        }
      }
    }
  }

  lemma MonitorLanes(m: Monitor)
    requires MonitorOk(m)
    ensures LanesOk(m)
  {
  }

  /** A pairing lasts: the channel keeps its lane and its connection. */
  lemma {:induction false} PairedLane(log: seq<Event>, i: nat)
    requires Accepted(log) && i < |log| && log[i].Paired?
    ensures log[i].ch in After(log).lanes && After(log).lanes[log[i].ch].conn == log[i].conn
  {
    hide MonitorOk;
    var before, e := log[..|log| - 1], log[|log| - 1];
    LastStep(log);
    assert LanesOk(After(before)) by { AfterOk(before); MonitorLanes(After(before)); }
    if i == |log| - 1 {
    } else {
      hide Legal, Next;
      PairedLane(before, i);
      LaneAfter(After(before), e, log[i].ch);
    }
  }

  /** Client to server: at every moment of every run, what was written to a channel is a
      prefix of what was received from the client that channel was opened for. */
  lemma UpstreamPrefix(log: seq<Event>, i: nat, k: nat)
    requires Accepted(log) && i < k <= |log| && log[i].Paired?
    ensures Bytes(log[..k], ToChannel(log[i].ch)) <= Bytes(log[..k], FromClient(log[i].conn))
  {
    hide Legal, Next, Run;
    AcceptedPrefix(log, k);
    PairedLane(log[..k], i);
    Streams(log[..k], log[i].ch);
    AfterOk(log[..k]);
  }

  lemma {:induction false} BaseSince(log: seq<Event>, i: nat)
    requires Accepted(log) && i < |log| && log[i].Paired?
    requires forall j :: i < j < |log| ==> !log[j].TunnelStart?
    ensures After(log).base <= log[i].ch
  {
    hide SelectOk, Balanced, NoSessionOn, NoChannelOf, CanFree, CanDispatch;
    var before := log[..|log| - 1];
    LastStep(log);
    if i < |log| - 1 {
      BaseSince(before, i);
    } else {
      AfterOk(before);
    }
  }

  /** A call of select, whether it succeeds or not. */
  predicate Selects(e: Event) {
    e.Selected? || e.SelectFailed?
  }

  /** Whenever the loop calls select, every client of the current tunnel, gone or not, is
      caught up with in both directions: upstream all of its bytes have been written,
      downstream all bytes have been delivered exactly when no send to it ever failed. */
  lemma CaughtUpAtSelect(log: seq<Event>, i: nat, k: nat)
    requires Accepted(log) && i < k < |log| && log[i].Paired? && Selects(log[k])
    requires forall j :: i < j < k ==> !log[j].TunnelStart?
    ensures
      var ch, conn, past := log[i].ch, log[i].conn, log[..k];
      && Bytes(past, ToChannel(ch)) == Bytes(past, FromClient(conn))
      && (Bytes(past, FromChannel(ch)) == Bytes(past, ToClient(conn)) <==> FailedSends(past, conn) == 0)
      && |Bytes(past, ToClient(conn))| <= |Bytes(past, FromChannel(ch))|
  {
    hide Next, Run, SelectOk;
    var past, ch := log[..k], log[i].ch;
    AcceptedPrefix(log, k + 1);
    assert log[..k + 1][..k] == past;
    LastStep(log[..k + 1]);
    var m := After(past);
    PairedLane(past, i);
    BaseSince(past, i);
    Streams(past, ch);
    AfterOk(past);
    assert Settled(m.lanes[ch]) by { SelectSettles(m, log[k], ch); }
  }

  lemma SelectSettles(m: Monitor, e: Event, ch: nat)
    requires Selects(e) && Legal(m, e) && ch in m.lanes && m.base <= ch
    ensures Settled(m.lanes[ch])
  {
  }

  /** Server to client: as long as no send to a client failed, what it was sent is a prefix
      of what was read from its channel, and whole before the channel is read again. */
  lemma DownstreamOrdered(log: seq<Event>, i: nat, k: nat)
    requires Accepted(log) && i < k <= |log| && log[i].Paired?
    requires FailedSends(log[..k], log[i].conn) == 0
    ensures Bytes(log[..k], ToClient(log[i].conn)) <= Bytes(log[..k], FromChannel(log[i].ch))
    ensures k < |log| && ReadsFrom(log[k], log[i].ch) ==>
              Bytes(log[..k], ToClient(log[i].conn)) == Bytes(log[..k], FromChannel(log[i].ch))
  {
    hide Legal, Next, Run, Bytes, FailedSends;
    var past, ch := log[..k], log[i].ch;
    AcceptedPrefix(log, k);
    PairedLane(past, i);
    Streams(past, ch);
    AfterOk(past);
    LaneDown(After(past), ch);
    hide MonitorOk;
    if k < |log| {
      AcceptedPrefix(log, k + 1);
      assert log[..k + 1][..k] == past;
      LastStep(log[..k + 1]);
      if ReadsFrom(log[k], ch) {
        NothingPending(After(past), log[k], ch);
      }
    }
  }

  lemma LaneDown(m: Monitor, ch: nat)
    requires MonitorOk(m) && ch in m.lanes && m.lanes[ch].lost == 0
    ensures
      var l := m.lanes[ch];
      l.sent <= l.read && (l.pending == [] ==> l.sent == l.read)
  {
    assert LaneOk(m.lanes[ch]);
  }

  /** A read of a channel, whatever it brings. */
  predicate ReadsFrom(e: Event, ch: nat) {
    (e.Read? || e.ReadAgain? || e.ReadFailed?) && e.ch == ch
  }

  lemma NothingPending(m: Monitor, e: Event, ch: nat)
    requires Legal(m, e) && (ReadsFrom(e, ch) || (e.EofAsked? && e.ch == ch))
    ensures ch in m.lanes && m.lanes[ch].pending == []
  {
  }

  // Server to client, chunk by chunk, whether sends fail or not.

  lemma LaneStep(m: Monitor, e: Event, ch: nat)
    requires Legal(m, e) && ch in m.lanes
    ensures ch in Next(m, e).lanes
    ensures
      if Moves(e) && Target(m, e) == ch then
        LaneLegal(m.lanes[ch], e) && Next(m, e).lanes[ch] == LaneNext(m.lanes[ch], e)
      else Next(m, e).lanes[ch] == m.lanes[ch]
  {
    if Moves(e) {
      MovesOne(m, e);
    } else {
      StaysPut(m, e, ch);
    }
  }

  /** A send to the connection failed after position r. */
  ghost predicate FailedAfter(log: seq<Event>, r: nat, conn: nat) {
    exists j :: r < j < |log| && log[j].SendFailed? && log[j].conn == conn
  }

  /** Of a chunk read when `sent` had been sent, the first n bytes have followed; the rest
      is on its way, or was given up. */
  predicate Partly(sent: seq<Byte>, l: Lane, chunk: seq<Byte>, n: nat, failed: bool) {
    && n <= |chunk| && l.sent == sent + chunk[..n]
    && if failed then l.pending == [] && n < |chunk| else l.pending == chunk[n..]
  }

  lemma PartlyStep(sent: seq<Byte>, l: Lane, e: Event, chunk: seq<Byte>, n: nat, failed: bool) returns (n': nat)
    requires Partly(sent, l, chunk, n, failed) && LaneLegal(l, e) && !e.Read?
    ensures Partly(sent, LaneNext(l, e), chunk, n', failed || e.SendFailed?)
  {
    n' := if e.Sent? then n + |e.data| else n;
    if e.Sent? {
      assert chunk[n..][..|e.data|] == e.data;
      assert chunk[..n'] == chunk[..n] + e.data;
    }
  }

  lemma {:induction false} ChunkSince(log: seq<Event>, r: nat) returns (n: nat)
    requires Accepted(log) && r < |log| && log[r].Read? && Accepted(log[..r])
    requires forall j :: r < j < |log| ==> !(log[j].Read? && log[j].ch == log[r].ch)
    ensures
      var m0, m, ch := After(log[..r]), After(log), log[r].ch;
      && ch in m0.lanes && ch in m.lanes && m.lanes[ch].conn == m0.lanes[ch].conn
      && Partly(m0.lanes[ch].sent, m.lanes[ch], log[r].data, n, FailedAfter(log, r, m0.lanes[ch].conn))
  {
    LastStep(log);
    hide Run, Next, Legal, LanesOk;
    var before, e, ch := log[..|log| - 1], log[|log| - 1], log[r].ch;
    var m := After(before);
    AfterOk(before);
    MonitorLanes(m);
    hide MonitorOk;
    if r == |log| - 1 {
      n := 0;
      NothingPending(m, e, ch);
      LaneStep(m, e, ch);
      assert log[r].data[..0] == [];
    } else {
      assert before[..r] == log[..r];
      n := ChunkSince(before, r);
      LaneStep(m, e, ch);
      var l, conn := m.lanes[ch], m.lanes[ch].conn;
      var failed := FailedAfter(before, r, conn);
      if Moves(e) && Target(m, e) == ch {
        TargetIff(m, e, ch);
        n := PartlyStep(After(log[..r]).lanes[ch].sent, l, e, log[r].data, n, failed);
      } else if e.SendFailed? && e.conn == conn {
        TargetIff(m, e, ch);
      }
      FailedSnoc(before, e, r, conn);
      assert log == before + [e];
    }
  }

  lemma FailedSnoc(log: seq<Event>, e: Event, r: nat, conn: nat)
    requires r < |log|
    ensures FailedAfter(log + [e], r, conn) <==> FailedAfter(log, r, conn) || (e.SendFailed? && e.conn == conn)
  {
    var all := log + [e];
    assert all[|log|] == e;
    if FailedAfter(log, r, conn) {
      var j :| r < j < |log| && log[j].SendFailed? && log[j].conn == conn;
      assert all[j] == log[j];
    }
  }

  /** In every run, whether sends fail or not: of each chunk read from a channel its client
      is sent a first part, right after what it was sent before the chunk.  By the next read
      of the channel, or question for its end, that part is the whole chunk exactly when no
      send to the client failed meanwhile.  So the client's stream is what was read, in
      order, without the unsent rest of each chunk whose send failed. */
  lemma ChunkDelivered(log: seq<Event>, i: nat, r: nat, k: nat) returns (n: nat)
    requires Accepted(log) && i < r < k <= |log| && log[i].Paired? && log[r].Read? && log[r].ch == log[i].ch
    requires forall j :: r < j < k ==> !(log[j].Read? && log[j].ch == log[r].ch)
    ensures n <= |log[r].data|
    ensures Bytes(log[..k], ToClient(log[i].conn)) == Bytes(log[..r], ToClient(log[i].conn)) + log[r].data[..n]
    ensures k < |log| && (ReadsFrom(log[k], log[r].ch) || (log[k].EofAsked? && log[k].ch == log[r].ch)) ==>
              (n == |log[r].data| <==> !FailedAfter(log[..k], r, log[i].conn))
  {
    hide Legal, Next, Run, Bytes, FailedAfter;
    var past, ch := log[..k], log[r].ch;
    AcceptedPrefix(log, k);
    AcceptedPrefix(log, r);
    assert past[..r] == log[..r];
    PairedLane(log[..r], i);
    Streams(log[..r], ch);
    PairedLane(past, i);
    Streams(past, ch);
    n := ChunkSince(past, r);
    if k < |log| && (ReadsFrom(log[k], ch) || (log[k].EofAsked? && log[k].ch == ch)) {
      AcceptedPrefix(log, k + 1);
      assert log[..k + 1][..k] == past;
      LastStep(log[..k + 1]);
      NothingPending(After(past), log[k], ch);
    }
  }

  /** Before the first chunk its client is sent nothing. */
  lemma NothingBeforeRead(log: seq<Event>, i: nat, k: nat)
    requires Accepted(log) && i < k <= |log| && log[i].Paired?
    requires Bytes(log[..k], FromChannel(log[i].ch)) == []
    ensures Bytes(log[..k], ToClient(log[i].conn)) == []
  {
    hide Legal, Next, Run, Bytes;
    var past, ch := log[..k], log[i].ch;
    AcceptedPrefix(log, k);
    PairedLane(past, i);
    Streams(past, ch);
    AfterOk(past);
    assert LaneOk(After(past).lanes[ch]);
  }

  // Who is open, alive and paired, read off a log.

  predicate OpenAs(log: seq<Event>, fd: int, sock: Sock) {
    if log == [] then false
    else
      var e := log[|log| - 1];
      if e.Opened? && e.fd == fd then sock == Sock(e.conn, e.kind)
      else if e.Closed? && e.fd == fd then false
      else OpenAs(log[..|log| - 1], fd, sock)
  }

  predicate LiveIn(log: seq<Event>, ch: nat) {
    if log == [] then false
    else
      var e := log[|log| - 1];
      if e.ChannelUp? && e.ch == ch then true
      else if e.ChannelFreed? && e.ch == ch then false
      else LiveIn(log[..|log| - 1], ch)
  }

  predicate PairedIn(log: seq<Event>, ch: nat, conn: nat) {
    if log == [] then false
    else
      var e := log[|log| - 1];
      (e.Paired? && e.ch == ch && e.conn == conn) || PairedIn(log[..|log| - 1], ch, conn)
  }

  lemma {:induction false} OpenAsIff(log: seq<Event>, fd: int, sock: Sock)
    requires Accepted(log)
    ensures fd in After(log).open && After(log).open[fd] == sock <==> OpenAs(log, fd, sock)
  {
    hide SelectOk, Balanced, NoSessionOn, NoChannelOf, CanFree, CanDispatch, LaneLegal, LaneNext;
    if log == [] {
    } else {
      LastStep(log);
      OpenAsIff(log[..|log| - 1], fd, sock);
    }
  }

  lemma {:induction false} LiveInIff(log: seq<Event>, ch: nat)
    requires Accepted(log)
    ensures ch in After(log).live <==> LiveIn(log, ch)
  {
    hide SelectOk, Balanced, NoSessionOn, NoChannelOf, CanFree, CanDispatch, LaneLegal, LaneNext;
    if log == [] {
    } else {
      LastStep(log);
      LiveInIff(log[..|log| - 1], ch);
    }
  }

  lemma {:induction false} PairedInIff(log: seq<Event>, ch: nat, conn: nat)
    requires Accepted(log)
    ensures conn in After(log).laneOf && After(log).laneOf[conn] == ch <==> PairedIn(log, ch, conn)
  {
    hide SelectOk, Balanced, NoSessionOn, NoChannelOf, CanFree, CanDispatch, LaneLegal, LaneNext;
    if log == [] {
    } else {
      LastStep(log);
      PairedInIff(log[..|log| - 1], ch, conn);
    }
  }

  ghost predicate Served(log: seq<Event>, conn: nat) {
    exists ch :: PairedIn(log, ch, conn) && LiveIn(log, ch)
  }

  /** Whenever the loop calls select, a descriptor is in the set it passes exactly when it
      is open and, if it is a client's, paired with a channel that has not been freed;
      and no member is above fdmax. */
  lemma MasterIsExact(log: seq<Event>, k: nat, fd: int)
    requires Accepted(log) && k < |log| && Selects(log[k])
    ensures fd in log[k].master <==>
              exists sock :: OpenAs(log[..k], fd, sock) && (sock.kind.Client? ==> Served(log[..k], sock.conn))
    ensures fd in log[k].master ==> 0 <= fd <= log[k].fdmax
  {
    hide Next, Run;
    var past := log[..k];
    AcceptedPrefix(log, k + 1);
    assert log[..k + 1][..k] == past;
    LastStep(log[..k + 1]);
    AfterOk(past);
    var m := After(past);
    forall sock ensures fd in m.open && m.open[fd] == sock <==> OpenAs(past, fd, sock) {
      OpenAsIff(past, fd, sock);
    }
    forall conn ensures Serves(m, conn) <==> Served(past, conn) {
      ServesIff(past, conn);
    }
    assert fd in m.open ==> OpenAs(past, fd, m.open[fd]);
  }

  /** Every select is on a listener and on an SSH socket, together. */
  lemma BothSocketsSelected(log: seq<Event>, k: nat)
    requires Accepted(log) && k < |log| && Selects(log[k])
    ensures exists fd, conn :: fd in log[k].master && OpenAs(log[..k], fd, Sock(conn, Listener))
    ensures exists fd, conn :: fd in log[k].master && OpenAs(log[..k], fd, Sock(conn, Ssh))
  {
    hide Next, Run;
    var past := log[..k];
    AcceptedPrefix(log, k + 1);
    assert log[..k + 1][..k] == past;
    LastStep(log[..k + 1]);
    SelectedKind(past, log[k].master, Listener);
    SelectedKind(past, log[k].master, Ssh);
  }

  lemma SelectedKind(log: seq<Event>, master: set<int>, kind: Kind)
    requires Accepted(log) && HasKind(After(log), master, kind)
    ensures exists fd, conn :: fd in master && OpenAs(log, fd, Sock(conn, kind))
  {
    hide Run;
    var m := After(log);
    var fd :| fd in master && fd in m.open && m.open[fd].kind == kind;
    OpenAsIff(log, fd, m.open[fd]);
    assert OpenAs(log, fd, Sock(m.open[fd].conn, kind));
  }

  lemma ServesIff(log: seq<Event>, conn: nat)
    requires Accepted(log)
    ensures Serves(After(log), conn) <==> Served(log, conn)
  {
    hide Next, Run, Legal;
    var m := After(log);
    AfterOk(log);
    forall ch
      ensures PairedIn(log, ch, conn) && LiveIn(log, ch) <==> conn in m.laneOf && m.laneOf[conn] == ch && ch in m.live
    {
      PairedInIff(log, ch, conn);
      LiveInIff(log, ch);
    }
    assert conn in m.laneOf && m.laneOf[conn] in m.live ==> PairedIn(log, m.laneOf[conn], conn);
  }

  // Stale readiness bits.

  lemma {:induction false} NumbersGrow(log: seq<Event>, k: nat)
    requires Accepted(log) && k <= |log|
    ensures Accepted(log[..k]) && After(log[..k]).nextConn <= After(log).nextConn
  {
    hide SelectOk, Balanced, NoSessionOn, NoChannelOf, CanFree, CanDispatch, LaneLegal, LaneNext;
    if k == |log| {
      assert log[..k] == log;
    } else {
      LastStep(log);
      NumbersGrow(log[..|log| - 1], k);
      assert log[..|log| - 1][..k] == log[..k];
    }
  }

  /** A descriptor that is the same connection at two moments was not closed in between. */
  lemma {:induction false} SameSocketNotClosed(log: seq<Event>, k: nat, fd: int, t: nat)
    requires Accepted(log) && k <= t < |log| && Accepted(log[..k])
    requires fd in After(log[..k]).open && fd in After(log).open && After(log).open[fd] == After(log[..k]).open[fd]
    ensures !(log[t].Closed? && log[t].fd == fd)
  {
    hide SelectOk, Balanced, NoSessionOn, NoChannelOf, CanFree, CanDispatch, LaneLegal, LaneNext;
    var before := log[..|log| - 1];
    LastStep(log);
    assert before[..k] == log[..k];
    if t == |log| - 1 {
    } else {
      NumbersGrow(before, k);
      AfterOk(log[..k]);
      SameSocketNotClosed(before, k, fd, t);
    }
  }

  lemma {:induction false} ReadySince(log: seq<Event>, j: nat, fd: int)
    requires Accepted(log) && j < |log| && log[j].Selected? && Accepted(log[..j])
    requires forall i :: j < i < |log| ==> !log[i].Selected?
    requires fd in After(log).ready
    ensures fd in log[j].ready && fd in After(log[..j]).open && After(log).ready[fd] == After(log[..j]).open[fd]
  {
    hide SelectOk, Balanced, NoSessionOn, NoChannelOf, CanFree, CanDispatch, LaneLegal, LaneNext;
    var before := log[..|log| - 1];
    LastStep(log);
    if j == |log| - 1 {
    } else {
      assert before[..j] == log[..j];
      ReadySince(before, j, fd);
    }
  }

  /** A readiness bit is never handed to a connection that took over the descriptor: a
      dispatched descriptor was reported by the last select and has not been closed since,
      and a dispatched client is served by a live channel. */
  lemma FreshDispatch(log: seq<Event>, j: nat, k: nat)
    requires Accepted(log) && j < k < |log| && log[j].Selected? && log[k].Dispatching?
    requires forall t :: j < t < k ==> !log[t].Selected?
    ensures log[k].fd in log[j].ready
    ensures forall i :: j < i < k ==> !(log[i].Closed? && log[i].fd == log[k].fd)
    ensures exists sock :: OpenAs(log[..k], log[k].fd, sock) && (sock.kind.Client? ==> Served(log[..k], sock.conn))
  {
    hide Next, Run, SelectOk;
    var past, fd := log[..k], log[k].fd;
    AcceptedPrefix(log, k + 1);
    assert log[..k + 1][..k] == past;
    LastStep(log[..k + 1]);
    AcceptedPrefix(log, j);
    assert past[..j] == log[..j];
    var m := After(past);
    ReadySince(past, j, fd);
    forall i | j < i < k ensures !(log[i].Closed? && log[i].fd == fd) {
      SameSocketNotClosed(past, j, fd, i);
    }
    OpenAsIff(past, fd, m.open[fd]);
    ServesIff(past, m.open[fd].conn);
  }

  /** The sockets handed to a handler since the last select, in order. */
  function Handouts(log: seq<Event>): seq<int> {
    if log == [] then []
    else
      var e := log[|log| - 1];
      if e.Selected? || e.TunnelStart? then []
      else Handouts(log[..|log| - 1]) + if e.Dispatching? then [e.fd] else []
  }

  predicate Ascending(s: seq<int>) {
    forall i, j :: 0 <= i < j < |s| ==> s[i] < s[j]
  }

  lemma {:induction false} HandoutsAscend(log: seq<Event>)
    requires Accepted(log)
    ensures After(log).dispatched == Handouts(log) && Ascending(Handouts(log))
  {
    hide SelectOk, Balanced, NoSessionOn, NoChannelOf, CanFree, LaneLegal, LaneNext;
    if log == [] {
    } else {
      LastStep(log);
      HandoutsAscend(log[..|log| - 1]);
      var h := Handouts(log[..|log| - 1]);
      assert forall i :: 0 <= i < |h| ==> h[i] in h;
    }
  }

  lemma {:induction false} ReportedSince(log: seq<Event>, j: nat)
    requires Accepted(log) && j < |log| && log[j].Selected?
    requires forall t :: j < t < |log| ==> !log[t].Selected? && !log[t].TunnelStart?
    ensures After(log).ready.Keys == log[j].ready
    ensures forall fd :: fd in After(log).dispatched ==> fd in log[j].ready
  {
    hide Balanced, NoSessionOn, NoChannelOf, CanFree, LaneLegal, LaneNext, ScanDone;
    LastStep(log);
    if j < |log| - 1 {
      ReportedSince(log[..|log| - 1], j);
    } else {
      ReportedKeys(After(log[..j]), log[j].master, log[j].fdmax, log[j].ready);
    }
  }

  lemma ReportedKeys(m: Monitor, master: set<int>, fdmax: int, ready: set<int>)
    requires SelectOk(m, master, fdmax) && ready <= master
    ensures Reported(m, ready).ready.Keys == ready
  {
    forall fd | fd in ready ensures fd in Reported(m, ready).ready {
      assert fd in master;
    }
  }

  /** Between two selects the loop hands out exactly the sockets the first one reported,
      each once and in ascending order. */
  lemma EveryReadyDispatched(log: seq<Event>, j: nat, k: nat)
    requires Accepted(log) && j < k < |log| && log[j].Selected? && Selects(log[k])
    requires forall t :: j < t < k ==> !log[t].Selected? && !log[t].TunnelStart?
    ensures Ascending(Handouts(log[..k]))
    ensures forall fd :: fd in Handouts(log[..k]) <==> fd in log[j].ready
  {
    hide Next, Run;
    AcceptedPrefix(log, k + 1);
    assert log[..k + 1][..k] == log[..k];
    LastStep(log[..k + 1]);
    HandoutsAscend(log[..k]);
    ReportedSince(log[..k], j);
  }

  // When the loop stops.

  lemma {:induction false} IdleSince(log: seq<Event>, i: nat)
    requires Accepted(log) && i < |log| && log[i].Dispatched? && Accepted(log[..i]) && After(log[..i]).live == map[]
    requires forall t :: i < t < |log| ==> !log[t].TunnelStart?
    ensures After(log).idle
  {
    hide SelectOk, Balanced, NoSessionOn, NoChannelOf, CanFree, CanDispatch, LaneLegal, LaneNext;
    LastStep(log);
    if i == |log| - 1 {
    } else {
      assert log[..|log| - 1][..i] == log[..i];
      IdleSince(log[..|log| - 1], i);
    }
  }

  /** Once a dispatch has ended without a live channel, the tunnel does not select again. */
  lemma NoSelectAfterIdle(log: seq<Event>, i: nat, k: nat)
    requires Accepted(log) && i < k < |log| && log[i].Dispatched? && (forall ch :: !LiveIn(log[..i], ch))
    requires forall t :: i < t < k ==> !log[t].TunnelStart?
    ensures !Selects(log[k])
  {
    hide Next, Run;
    NothingLive(log, i);
    AcceptedPrefix(log, k + 1);
    assert log[..k + 1][..k] == log[..k] && log[..k][..i] == log[..i];
    LastStep(log[..k + 1]);
    IdleSince(log[..k], i);
  }

  // A client that comes too late.

  /** Clients that select reported had a channel. */
  lemma {:induction false} ReadyPaired(log: seq<Event>)
    requires Accepted(log)
    ensures
      var m := After(log);
      forall fd :: fd in m.ready && m.ready[fd].kind.Client? ==> m.ready[fd].conn in m.laneOf
  {
    hide Balanced, ScanDone, NoSessionOn, NoChannelOf, CanFree, CanDispatch, LaneLegal, LaneNext;
    if log == [] {
    } else {
      LastStep(log);
      ReadyPaired(log[..|log| - 1]);
    }
  }

  lemma PairedKept(m: Monitor, e: Event)
    requires Legal(m, e)
    ensures m.laneOf.Keys <= Next(m, e).laneOf.Keys
    ensures e.Paired? ==> e.conn !in m.laneOf
    ensures e.Received? ==> Serving(m, e.fd, e.conn)
  {
    hide SelectOk, Balanced, NoSessionOn, NoChannelOf, CanFree, CanDispatch, LaneLegal, LaneNext;
  }

  /** From an idle dispatch on, only clients are served that had a channel by then. */
  ghost predicate Closing(m: Monitor, had: set<nat>) {
    && m.idle && had <= m.laneOf.Keys
    && (forall fd :: fd in m.ready && m.ready[fd].kind.Client? ==> m.ready[fd].conn in had)
    && (m.current.Some? && m.current.value.sock.kind.Client? ==> m.current.value.sock.conn in had)
  }

  lemma ClosingStep(m: Monitor, e: Event, had: set<nat>)
    requires Closing(m, had) && Legal(m, e) && !e.TunnelStart?
    ensures Closing(Next(m, e), had)
  {
    PairedKept(m, e);
    hide Balanced, ScanDone, NoSessionOn, NoChannelOf, CanFree, LaneLegal, LaneNext, HasKind;
  }

  lemma {:induction false} ClosingSince(log: seq<Event>, i: nat) returns (had: set<nat>)
    requires Accepted(log) && i < |log| && log[i].Dispatched? && Accepted(log[..i]) && After(log[..i]).live == map[]
    requires forall t :: i < t < |log| ==> !log[t].TunnelStart?
    ensures Closing(After(log), had) && had == After(log[..i]).laneOf.Keys
  {
    LastStep(log);
    var before := log[..|log| - 1];
    if i == |log| - 1 {
      ReadyPaired(before);
      had := After(before).laneOf.Keys;
      hide SelectOk, Balanced, NoSessionOn, NoChannelOf, CanFree, CanDispatch, LaneLegal, LaneNext;
    } else {
      hide Legal, Next, Run, Closing;
      assert before[..i] == log[..i];
      had := ClosingSince(before, i);
      ClosingStep(After(before), log[|log| - 1], had);
    }
  }

  /** A client paired after a dispatch that ended without a live channel is never listened
      to in that tunnel: nothing is received from it before it is closed with the rest. */
  lemma LateClientUnheard(log: seq<Event>, i: nat, p: nat, k: nat)
    requires Accepted(log) && i < p < k < |log| && log[i].Dispatched? && (forall ch :: !LiveIn(log[..i], ch))
    requires log[p].Paired? && forall t :: i < t < k ==> !log[t].TunnelStart?
    ensures !(log[k].Received? && log[k].conn == log[p].conn)
  {
    hide Legal, Next, Run;
    NothingLive(log, i);
    AcceptedPrefix(log, p + 1);
    AcceptedPrefix(log, k + 1);
    assert log[..p + 1][..p] == log[..p] && log[..p][..i] == log[..i];
    assert log[..k + 1][..k] == log[..k] && log[..k][..i] == log[..i];
    LastStep(log[..p + 1]);
    LastStep(log[..k + 1]);
    var had := ClosingSince(log[..p], i);
    var had' := ClosingSince(log[..k], i);
    PairedKept(After(log[..p]), log[p]);
    PairedKept(After(log[..k]), log[k]);
  }

  // Such a client can come: a run in which the SSH socket and the listener are reported
  // together while there is no channel.

  const SET_UP := Begun(PlusSession(PlusSocket(PlusSocket(START, 3, Ssh), 4, Listener), 3))
  const FOUND_IDLE := Finished(Handed(Reported(SET_UP, {3, 4}), 3), 0)
  const JOINED := PlusLane(PlusChannel(PlusSocket(Handed(FOUND_IDLE, 4), 5, Client), 1), 2, 2)

  const UNTIL_SET_UP := [Opened(3, 0, Ssh)] + [Opened(4, 1, Listener)] + [SessionUp(1, 3)] + [TunnelStart]
  const UNTIL_IDLE := UNTIL_SET_UP + [Selected({3, 4}, 4, {3, 4})] + [Dispatching(3)] + [Dispatched(0)]
  const LATE_CLIENT := UNTIL_IDLE + [Dispatching(4)] + [Opened(5, 2, Client)] + [ChannelUp(2, 1)] + [Paired(2, 5, 2)]

  lemma SetUpLegal()
    ensures Accepted(UNTIL_SET_UP) && After(UNTIL_SET_UP) == SET_UP
  {
    hide Run;
    StartAccepted();
    AcceptedSnoc([], Opened(3, 0, Ssh));
    assert [] + [Opened(3, 0, Ssh)] == [Opened(3, 0, Ssh)];
    AcceptedSnoc([Opened(3, 0, Ssh)], Opened(4, 1, Listener));
    AcceptedSnoc([Opened(3, 0, Ssh)] + [Opened(4, 1, Listener)], SessionUp(1, 3));
    AcceptedSnoc([Opened(3, 0, Ssh)] + [Opened(4, 1, Listener)] + [SessionUp(1, 3)], TunnelStart);
  }

  lemma StartAccepted()
    ensures Accepted([]) && After([]) == START
  {
  }

  lemma SetUpSelects()
    ensures SelectOk(SET_UP, {3, 4}, 4)
  {
    assert SET_UP.open == map[3 := Sock(0, Ssh), 4 := Sock(1, Listener)];
  }

  lemma IdleLegal()
    ensures Accepted(UNTIL_IDLE) && After(UNTIL_IDLE) == FOUND_IDLE
  {
    SetUpLegal();
    SetUpSelects();
    hide Run, SelectOk;
    AcceptedSnoc(UNTIL_SET_UP, Selected({3, 4}, 4, {3, 4}));
    var m := Reported(SET_UP, {3, 4});
    assert m.ready == map[3 := Sock(0, Ssh), 4 := Sock(1, Listener)];
    AcceptedSnoc(UNTIL_SET_UP + [Selected({3, 4}, 4, {3, 4})], Dispatching(3));
    WorkIs(UNTIL_SET_UP + [Selected({3, 4}, 4, {3, 4})], 3, []);
    assert UNTIL_SET_UP + [Selected({3, 4}, 4, {3, 4})] + [Dispatching(3)] + []
        == UNTIL_SET_UP + [Selected({3, 4}, 4, {3, 4})] + [Dispatching(3)];
    AcceptedSnoc(UNTIL_SET_UP + [Selected({3, 4}, 4, {3, 4})] + [Dispatching(3)], Dispatched(0));
  }

  lemma JoinLegal()
    ensures Accepted(LATE_CLIENT) && After(LATE_CLIENT) == JOINED
  {
    IdleLegal();
    hide Run, SelectOk;
    assert FOUND_IDLE.ready == map[3 := Sock(0, Ssh), 4 := Sock(1, Listener)];
    assert FOUND_IDLE.open == map[3 := Sock(0, Ssh), 4 := Sock(1, Listener)];
    AcceptedSnoc(UNTIL_IDLE, Dispatching(4));
    AcceptedSnoc(UNTIL_IDLE + [Dispatching(4)], Opened(5, 2, Client));
    AcceptedSnoc(UNTIL_IDLE + [Dispatching(4)] + [Opened(5, 2, Client)], ChannelUp(2, 1));
    AcceptedSnoc(UNTIL_IDLE + [Dispatching(4)] + [Opened(5, 2, Client)] + [ChannelUp(2, 1)], Paired(2, 5, 2));
  }

  /** A legal run with a client that comes too late: it is paired at 10, after the dispatch
      that ended at 6 without a live channel. */
  lemma LateClientHappens()
    ensures Accepted(LATE_CLIENT) && |LATE_CLIENT| == 11 && LATE_CLIENT[6].Dispatched? && LATE_CLIENT[10].Paired?
    ensures forall ch :: !LiveIn(LATE_CLIENT[..6], ch)
    ensures forall t :: 6 < t < 11 ==> !LATE_CLIENT[t].TunnelStart?
  {
    JoinLegal();
    hide Run;
    var past := LATE_CLIENT[..6];
    forall ch ensures !LiveIn(past, ch) {
      NeverUp(past, ch);
    }
  }

  lemma {:induction false} NeverUp(log: seq<Event>, ch: nat)
    requires forall i :: 0 <= i < |log| ==> !log[i].ChannelUp?
    ensures !LiveIn(log, ch)
  {
    if log == [] {
    } else {
      NeverUp(log[..|log| - 1], ch);
    }
  }

  lemma NothingLive(log: seq<Event>, i: nat)
    requires Accepted(log) && i <= |log| && forall ch :: !LiveIn(log[..i], ch)
    ensures Accepted(log[..i]) && After(log[..i]).live == map[]
  {
    hide Run;
    AcceptedPrefix(log, i);
    forall ch ensures ch !in After(log[..i]).live {
      LiveInIff(log[..i], ch);
    }
  }

  lemma {:induction false} UnaskedSince(log: seq<Event>, i: nat)
    requires Accepted(log) && i < |log| && log[i].Read?
    requires forall j :: i < j < |log| ==> !(log[j].EofAsked? && log[j].ch == log[i].ch)
    ensures log[i].ch in After(log).lanes && !After(log).lanes[log[i].ch].asked
  {
    hide SelectOk, Balanced, NoSessionOn, NoChannelOf, CanFree, CanDispatch;
    LastStep(log);
    if i == |log| - 1 {
    } else {
      UnaskedSince(log[..|log| - 1], i);
    }
  }

  /** After a chunk was read, a channel is read again only after it was asked whether its
      stream has ended. */
  lemma AskedBetweenReads(log: seq<Event>, i: nat, k: nat)
    requires Accepted(log) && i < k < |log| && log[i].Read? && ReadsFrom(log[k], log[i].ch)
    ensures exists j :: i < j < k && log[j].EofAsked? && log[j].ch == log[i].ch
  {
    hide Next, Run;
    AcceptedPrefix(log, k + 1);
    assert log[..k + 1][..k] == log[..k];
    LastStep(log[..k + 1]);
    if forall j :: i < j < k ==> !(log[j].EofAsked? && log[j].ch == log[i].ch) {
      UnaskedSince(log[..k], i);
      assert false;
    }
  }

  // The error counter.

  /** Length of the run of AGAIN results the dispatches of the current tunnel end with. */
  function TrailingAgains(log: seq<Event>): nat {
    if log == [] then 0
    else
      var e := log[|log| - 1];
      if e.TunnelStart? || (e.Dispatched? && e.rc != AGAIN) then 0
      else TrailingAgains(log[..|log| - 1]) + if e.Dispatched? then 1 else 0
  }

  /** The counter of the loop is that length, and never passes 25. */
  lemma {:induction false} ErrorsAreTrailingAgains(log: seq<Event>)
    requires Accepted(log)
    ensures After(log).agains == TrailingAgains(log) <= 25
  {
    hide SelectOk, Balanced, NoSessionOn, NoChannelOf, CanFree, CanDispatch, LaneLegal, LaneNext;
    if log == [] {
    } else {
      LastStep(log);
      ErrorsAreTrailingAgains(log[..|log| - 1]);
    }
  }

  // Everything is given back exactly once.

  datatype Resource = Connection(conn: nat) | SshSession(s: nat) | SshChannel(ch: nat)

  predicate Acquires(e: Event, r: Resource) {
    match r
    case Connection(conn) => e.Opened? && e.conn == conn
    case SshSession(s) => e.SessionUp? && e.s == s
    case SshChannel(ch) => e.ChannelUp? && e.ch == ch
  }

  predicate Releases(e: Event, r: Resource) {
    match r
    case Connection(conn) => e.Closed? && e.conn == conn
    case SshSession(s) => e.SessionFreed? && e.s == s
    case SshChannel(ch) => e.ChannelFreed? && e.ch == ch
  }

  function Acquisitions(log: seq<Event>, r: Resource): nat {
    if log == [] then 0
    else Acquisitions(log[..|log| - 1], r) + if Acquires(log[|log| - 1], r) then 1 else 0
  }

  function ReleaseCount(log: seq<Event>, r: Resource): nat {
    if log == [] then 0
    else ReleaseCount(log[..|log| - 1], r) + if Releases(log[|log| - 1], r) then 1 else 0
  }

  ghost predicate Has(m: Monitor, r: Resource) {
    match r
    case Connection(conn) => exists fd :: fd in m.open && m.open[fd].conn == conn
    case SshSession(s) => s in m.sessions
    case SshChannel(ch) => ch in m.live
  }

  predicate Numbered(m: Monitor, r: Resource) {
    match r
    case Connection(conn) => conn < m.nextConn
    case SshSession(s) => s < m.nextHandle
    case SshChannel(ch) => ch < m.nextHandle
  }

  ghost function Bit(b: bool): nat {
    if b then 1 else 0
  }

  lemma SocketsAfter(m: Monitor, e: Event)
    requires Legal(m, e)
    ensures
      var m' := Next(m, e);
      && m'.open == (if e.Opened? then m.open[e.fd := Sock(e.conn, e.kind)]
                     else if e.Closed? then m.open - {e.fd} else m.open)
      && m'.nextConn == m.nextConn + (if e.Opened? then 1 else 0)
      && (e.Opened? ==> e.fd !in m.open && e.conn == m.nextConn)
      && (e.Closed? ==> e.fd in m.open && m.open[e.fd].conn == e.conn)
  {
    hide SelectOk, NoSessionOn, NoChannelOf, CanFree, CanDispatch, LaneLegal, LaneNext, Others;
    if Moves(e) {
      MovesOne(m, e);
    } else if Reports(e) {
      ReportsNothing(m, e);
    }
  }

  lemma SessionsAfter(m: Monitor, e: Event)
    requires Legal(m, e)
    ensures
      var m' := Next(m, e);
      && m'.nextHandle == m.nextHandle + (if e.SessionUp? || e.ChannelUp? then 1 else 0)
      && m'.sessions == (if e.SessionUp? then m.sessions[e.s := e.fd]
                         else if e.SessionFreed? then m.sessions - {e.s} else m.sessions)
      && (e.SessionUp? ==> e.s == m.nextHandle) && (e.SessionFreed? ==> e.s in m.sessions)
  {
    hide SelectOk, NoSessionOn, NoChannelOf, CanFree, CanDispatch, LaneLegal, LaneNext, Others;
    if Moves(e) {
      MovesOne(m, e);
    } else if Reports(e) {
      ReportsNothing(m, e);
    }
  }

  lemma ChannelsAfter(m: Monitor, e: Event)
    requires Legal(m, e)
    ensures
      var m' := Next(m, e);
      && m'.live == (if e.ChannelUp? then m.live[e.ch := e.s] else if e.ChannelFreed? then m.live - {e.ch} else m.live)
      && (e.ChannelUp? ==> e.ch == m.nextHandle) && (e.ChannelFreed? ==> e.ch in m.live)
  {
    hide SelectOk, NoSessionOn, NoChannelOf, NotConnected, CanDispatch, LaneLegal, LaneNext, Others;
    if Moves(e) {
      MovesOne(m, e);
    } else if Reports(e) {
      ReportsNothing(m, e);
    }
  }

  lemma ResourceStep(m: Monitor, e: Event, r: Resource)
    requires MonitorOk(m) && Legal(m, e)
    ensures Bit(Has(Next(m, e), r)) == Bit(Has(m, r)) + Bit(Acquires(e, r)) - Bit(Releases(e, r))
    ensures Acquires(e, r) ==> !Numbered(m, r)
    ensures Numbered(m, r) || Acquires(e, r) ==> Numbered(Next(m, e), r)
  {
    SocketsAfter(m, e);
    SessionsAfter(m, e);
    ChannelsAfter(m, e);
    hide Legal, Next, LanesOk, ClientsOk;
    if r.Connection? {
      ConnectionStep(m, e, Next(m, e), r.conn);
      hide Has;
    }
  }

  lemma ConnectionStep(m: Monitor, e: Event, m': Monitor, conn: nat)
    requires SocketsOk(m)
    requires m'.open == if e.Opened? then m.open[e.fd := Sock(e.conn, e.kind)]
                         else if e.Closed? then m.open - {e.fd} else m.open
    requires e.Opened? ==> e.fd !in m.open && e.conn == m.nextConn
    requires e.Closed? ==> e.fd in m.open && m.open[e.fd].conn == e.conn
    ensures
      var r := Connection(conn);
      && (Has(m', r) <==> (Has(m, r) && !Releases(e, r)) || Acquires(e, r))
      && (Releases(e, r) ==> Has(m, r)) && (Acquires(e, r) ==> !Has(m, r) && !Releases(e, r))
  {
    if e.Opened? {
      assert m'.open[e.fd] == Sock(e.conn, e.kind);
    }
    forall fd | fd in m.open && m.open[fd].conn == conn && !Releases(e, Connection(conn))
      ensures fd in m'.open && m'.open[fd].conn == conn
    {
    }
  }

  /** In every run a connection, libssh2 session or channel is acquired at most once and
      released as often as it was acquired, unless it is still held. */
  lemma {:induction false} ResourceBalance(log: seq<Event>, r: Resource)
    requires Accepted(log)
    ensures Acquisitions(log, r) == ReleaseCount(log, r) + Bit(Has(After(log), r))
    ensures Acquisitions(log, r) <= Bit(Numbered(After(log), r))
  {
    hide Legal, Next, Has, MonitorOk;
    if log == [] {
      NothingAtStart(r);
    } else {
      var before := log[..|log| - 1];
      LastStep(log);
      ResourceBalance(before, r);
      AfterOk(before);
      ResourceStep(After(before), log[|log| - 1], r);
    }
  }

  lemma NothingAtStart(r: Resource)
    ensures !Has(START, r)
  {
  }

  lemma {:induction false} AcquiredCounts(log: seq<Event>, i: nat, r: Resource)
    requires i < |log| && Acquires(log[i], r)
    ensures Acquisitions(log, r) >= 1
  {
    if i == |log| - 1 {
    } else {
      AcquiredCounts(log[..|log| - 1], i, r);
    }
  }

  /** While a connection is open it is what it was opened as. */
  lemma {:induction false} OpenedAs(log: seq<Event>, i: nat, fd: int)
    requires Accepted(log) && i < |log| && log[i].Opened?
    requires fd in After(log).open && After(log).open[fd].conn == log[i].conn
    ensures After(log).open[fd].kind == log[i].kind
  {
    hide SelectOk, Balanced, NoSessionOn, NoChannelOf, CanFree, CanDispatch, LaneLegal, LaneNext;
    var before := log[..|log| - 1];
    LastStep(log);
    if i < |log| - 1 {
      NumbersGrow(before, i + 1);
      LastStep(before[..i + 1]);
      assert before[..i + 1][i] == log[i];
      OpenedAs(before, i, fd);
    } else {
      AfterOk(before);
    }
  }

  /** Once everything is released, each libssh2 session and channel of the run has been
      freed exactly once and each connection closed exactly once, except clients that
      never got a channel. */
  lemma ReleasedExactlyOnce(log: seq<Event>, i: nat, r: Resource)
    requires Accepted(log) && Released(After(log))
    requires i < |log| && Acquires(log[i], r)
    requires r.Connection? && log[i].kind.Client? ==> exists ch :: PairedIn(log, ch, r.conn)
    ensures Acquisitions(log, r) == 1 && ReleaseCount(log, r) == 1
  {
    hide Legal, Next, Run, MonitorOk;
    ResourceBalance(log, r);
    AcquiredCounts(log, i, r);
    var m := After(log);
    if r.Connection? && Has(m, r) {
      var fd :| fd in m.open && m.open[fd].conn == r.conn;
      OpenedAs(log, i, fd);
      var ch :| PairedIn(log, ch, r.conn);
      PairedInIff(log, ch, r.conn);
      assert false;
    }
  }

  /** A libssh2 session is freed only after every channel opened on it was. */
  lemma ChannelsBeforeSession(log: seq<Event>, i: nat, k: nat)
    requires Accepted(log) && i < k < |log| && log[i].ChannelUp? && log[k] == SessionFreed(log[i].s)
    ensures ReleaseCount(log[..k], SshChannel(log[i].ch)) == 1
  {
    hide Next, Run, MonitorOk;
    var past, r := log[..k], SshChannel(log[i].ch);
    AcceptedPrefix(log, k + 1);
    assert log[..k + 1][..k] == past;
    LastStep(log[..k + 1]);
    ResourceBalance(past, r);
    AcquiredCounts(past, i, r);
    if log[i].ch in After(past).live {
      SessionOf(past, i);
      assert false;
    }
  }

  lemma {:induction false} SessionOf(log: seq<Event>, i: nat)
    requires Accepted(log) && i < |log| && log[i].ChannelUp? && log[i].ch in After(log).live
    ensures After(log).live[log[i].ch] == log[i].s
  {
    hide SelectOk, Balanced, NoSessionOn, NoChannelOf, CanDispatch, LaneLegal, LaneNext;
    var before := log[..|log| - 1];
    LastStep(log);
    if i == |log| - 1 {
    } else {
      HandlesGrow(before, i);
      SessionOf(before, i);
    }
  }

  lemma {:induction false} HandlesGrow(log: seq<Event>, i: nat)
    requires Accepted(log) && i < |log| && log[i].ChannelUp?
    ensures log[i].ch < After(log).nextHandle
  {
    hide SelectOk, Balanced, NoSessionOn, NoChannelOf, CanFree, CanDispatch, LaneLegal, LaneNext;
    LastStep(log);
    if i == |log| - 1 {
    } else {
      HandlesGrow(log[..|log| - 1], i);
    }
  }

  lemma {:induction false} SocketOf(log: seq<Event>, i: nat)
    requires Accepted(log) && i < |log| && log[i].SessionUp?
    ensures log[i].s < After(log).nextHandle
    ensures log[i].s in After(log).sessions ==> After(log).sessions[log[i].s] == log[i].fd
  {
    hide SelectOk, Balanced, NoSessionOn, NoChannelOf, CanFree, CanDispatch, LaneLegal, LaneNext;
    LastStep(log);
    if i == |log| - 1 {
    } else {
      SocketOf(log[..|log| - 1], i);
    }
  }

  /** The descriptor a libssh2 session runs over is closed only after the session was freed. */
  lemma SessionBeforeSocket(log: seq<Event>, i: nat, k: nat)
    requires Accepted(log) && i < k < |log| && log[i].SessionUp? && log[k].Closed? && log[k].fd == log[i].fd
    ensures ReleaseCount(log[..k], SshSession(log[i].s)) == 1
  {
    hide Next, Run, MonitorOk;
    var past, r := log[..k], SshSession(log[i].s);
    AcceptedPrefix(log, k + 1);
    assert log[..k + 1][..k] == past;
    LastStep(log[..k + 1]);
    ResourceBalance(past, r);
    AcquiredCounts(past, i, r);
    SocketOf(past, i);
  }
}
