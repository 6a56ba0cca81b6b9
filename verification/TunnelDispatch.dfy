/**
 What a dispatch does, said about the log alone: a socket handed to its handler has been
 served by the time the result is booked, and the result is the one its events decide.
 */
module TunnelDispatch {
  import opened TunnelTrace
  import opened TunnelEvents
  import opened TunnelTheorems
  import opened Wrappers

  // The channel list, read off a log.

  predicate PairedAt(log: seq<Event>, i: nat, ch: nat) {
    i < |log| && log[i].Paired? && log[i].ch == ch
  }

  ghost predicate Unpaired(log: seq<Event>, ch: nat) {
    forall i :: !PairedAt(log, i, ch)
  }

  ghost predicate Before(log: seq<Event>, x: nat, y: nat) {
    forall i, j :: PairedAt(log, i, x) && PairedAt(log, j, y) ==> i < j
  }

  ghost predicate Sorted(log: seq<Event>, order: seq<nat>) {
    forall a, b :: 0 <= a < b < |order| ==> Before(log, order[a], order[b])
  }

  ghost predicate Member(log: seq<Event>, ch: nat) {
    LiveIn(log, ch) && exists i :: PairedAt(log, i, ch)
  }

  /** The channels that have a client and were not freed, in the order of pairing. */
  ghost predicate InPairingOrder(log: seq<Event>, order: seq<nat>) {
    (forall ch :: ch in order <==> Member(log, ch)) && Sorted(log, order)
  }

  lemma {:induction false} OthersHas(s: seq<nat>, x: nat)
    ensures forall y :: y in Others(s, x) <==> y in s && y != x
  {
    if s == [] {
    } else {
      var n := |s| - 1;
      OthersHas(s[..n], x);
      assert s == s[..n] + [s[n]];
    }
  }

  lemma {:induction false} OthersSorted(log: seq<Event>, s: seq<nat>, x: nat)
    requires Sorted(log, s)
    ensures Sorted(log, Others(s, x))
  {
    if s == [] {
    } else {
      var n := |s| - 1;
      OthersHas(s[..n], x);
      OthersSorted(log, s[..n], x);
      var rest := Others(s[..n], x);
      forall a | 0 <= a < |rest| ensures Before(log, rest[a], s[n]) {
        assert rest[a] in s[..n];
      }
    }
  }

  lemma {:induction false} PairedLanes(log: seq<Event>, i: nat, ch: nat)
    requires Accepted(log) && PairedAt(log, i, ch)
    ensures ch in After(log).lanes
  {
    hide SelectOk, Balanced, NoSessionOn, NoChannelOf, CanFree, CanDispatch, LaneLegal, LaneNext;
    LastStep(log);
    if i == |log| - 1 {
    } else {
      PairedLanes(log[..|log| - 1], i, ch);
    }
  }

  lemma OrderAfter(m: Monitor, e: Event)
    requires Legal(m, e)
    ensures Next(m, e).order ==
              if e.Paired? then m.order + [e.ch] else if e.ChannelFreed? then Others(m.order, e.ch) else m.order
    ensures e.Paired? ==> e.ch in m.live && e.ch !in m.lanes
    ensures e.ChannelUp? ==> e.ch == m.nextHandle
  {
    hide SelectOk, Balanced, NoSessionOn, NoChannelOf, CanFree, CanDispatch, LaneLegal, LaneNext, Others;
  }

  lemma PairedAtSnoc(log: seq<Event>, i: nat, ch: nat)
    requires log != []
    ensures
      var n := |log| - 1;
      PairedAt(log, i, ch) <==> PairedAt(log[..n], i, ch) || (i == n && log[n].Paired? && log[n].ch == ch)
  {
  }

  lemma SortedSnoc(log: seq<Event>, s: seq<nat>)
    requires log != [] && Sorted(log[..|log| - 1], s)
    requires log[|log| - 1].Paired? ==> log[|log| - 1].ch !in s
    ensures Sorted(log, s)
  {
    var past := log[..|log| - 1];
    forall a, b | 0 <= a < b < |s| ensures Before(log, s[a], s[b]) {
      assert Before(past, s[a], s[b]);
      forall i, j | PairedAt(log, i, s[a]) && PairedAt(log, j, s[b]) ensures i < j {
        PairedAtSnoc(log, i, s[a]);
        PairedAtSnoc(log, j, s[b]);
        assert s[a] in s && s[b] in s;
      }
    }
  }

  lemma SortedJoin(log: seq<Event>, s: seq<nat>)
    requires log != [] && Sorted(log[..|log| - 1], s) && log[|log| - 1].Paired?
    requires Unpaired(log[..|log| - 1], log[|log| - 1].ch)
    requires log[|log| - 1].ch !in s
    ensures Sorted(log, s + [log[|log| - 1].ch])
  {
    var n := |log| - 1;
    var ch := log[n].ch;
    SortedSnoc(log, s);
    forall a | 0 <= a < |s| ensures Before(log, s[a], ch) {
      forall i, j | PairedAt(log, i, s[a]) && PairedAt(log, j, ch) ensures i < j {
        PairedAtSnoc(log, i, s[a]);
        PairedAtSnoc(log, j, ch);
        assert s[a] in s;
      }
    }
  }

  lemma MemberSnoc(log: seq<Event>, ch: nat)
    requires log != []
    ensures
      var n := |log| - 1;
      var e := log[n];
      Member(log, ch) <==>
        && LiveIn(log, ch)
        && ((e.Paired? && e.ch == ch) || exists i :: PairedAt(log[..n], i, ch))
  {
    var n := |log| - 1;
    forall i: nat
      ensures PairedAt(log, i, ch) <==> PairedAt(log[..n], i, ch) || (i == n && log[n].Paired? && log[n].ch == ch)
    {
      PairedAtSnoc(log, i, ch);
    }
    assert log[n].Paired? && log[n].ch == ch ==> PairedAt(log, n, ch);
  }

  /** The monitor's order is that order. */
  lemma {:induction false} OrderIs(log: seq<Event>)
    requires Accepted(log)
    ensures InPairingOrder(log, After(log).order)
  {
    hide Legal, Next, Run, MonitorOk, Sorted, Others;
    if log == [] {
      EmptyOrder();
    } else {
      var past, e := log[..|log| - 1], log[|log| - 1];
      LastStep(log);
      OrderIs(past);
      OrderStep(log);
    }
  }

  lemma EmptyOrder()
    ensures Accepted([]) && InPairingOrder([], After([]).order)
  {
  }

  lemma OrderStep(log: seq<Event>)
    requires Accepted(log) && log != [] && Accepted(log[..|log| - 1])
    requires InPairingOrder(log[..|log| - 1], After(log[..|log| - 1]).order)
    ensures InPairingOrder(log, After(log).order)
  {
    hide Legal, Next, Run, MonitorOk, Sorted, Others, Member, PairedAt;
    var past, e := log[..|log| - 1], log[|log| - 1];
    var m := After(past);
    LastStep(log);
    OrderAfter(m, e);
    if e.Paired? {
      forall i ensures !PairedAt(past, i, e.ch) {
        if PairedAt(past, i, e.ch) {
          PairedLanes(past, i, e.ch);
        }
      }
      JoinMember(log);
      SortedJoin(log, m.order);
    } else if e.ChannelFreed? {
      OthersHas(m.order, e.ch);
      OthersSorted(past, m.order, e.ch);
      SortedSnoc(log, Others(m.order, e.ch));
      forall ch ensures ch in After(log).order <==> Member(log, ch) {
        FreedMember(log, ch);
      }
    } else {
      SortedSnoc(log, m.order);
      forall ch ensures ch in m.order <==> Member(log, ch) {
        OtherMember(log, ch);
      }
    }
  }

  lemma JoinMember(log: seq<Event>)
    requires Accepted(log) && log != [] && Accepted(log[..|log| - 1]) && log[|log| - 1].Paired?
    requires InPairingOrder(log[..|log| - 1], After(log[..|log| - 1]).order)
    requires Unpaired(log[..|log| - 1], log[|log| - 1].ch)
    ensures log[|log| - 1].ch !in After(log[..|log| - 1]).order
    ensures forall ch :: ch in After(log[..|log| - 1]).order + [log[|log| - 1].ch] <==> Member(log, ch)
  {
    hide Legal, Next, Run, MonitorOk, Sorted, Others, PairedAt;
    var past, e := log[..|log| - 1], log[|log| - 1];
    LastStep(log);
    OrderAfter(After(past), e);
    LiveInIff(past, e.ch);
    forall ch ensures Member(log, ch) <==> Member(past, ch) || ch == e.ch {
      MemberSnoc(log, ch);
    }
  }

  lemma FreedMember(log: seq<Event>, ch: nat)
    requires log != [] && log[|log| - 1].ChannelFreed?
    ensures Member(log, ch) <==> Member(log[..|log| - 1], ch) && ch != log[|log| - 1].ch
  {
    MemberSnoc(log, ch);
  }

  lemma OtherMember(log: seq<Event>, ch: nat)
    requires Accepted(log) && log != [] && !log[|log| - 1].ChannelFreed? && !log[|log| - 1].Paired?
    ensures Member(log, ch) <==> Member(log[..|log| - 1], ch)
  {
    hide Legal, Next, Run, PairedAt;
    var past, e := log[..|log| - 1], log[|log| - 1];
    LastStep(log);
    OrderAfter(After(past), e);
    MemberSnoc(log, ch);
    if e.ChannelUp? && e.ch == ch && exists i :: PairedAt(past, i, ch) {
      var i :| PairedAt(past, i, ch);
      PairedLanes(past, i, ch);
      AfterOk(past);
      assert false;
    }
  }

  // Between Dispatching and Dispatched.

  lemma CurrentAfter(m: Monitor, e: Event)
    requires Legal(m, e)
    ensures
      var m' := Next(m, e);
      if e.Dispatching? then e.fd in m.open && m'.current == Handed(m, e.fd).current && m.current.None?
      else
        || (m'.current == m.current && !e.Dispatched?)
        || (m'.current.None? && (e.Dispatched? || e.TunnelStart? || m.current.None?))
    ensures Selects(e) ==> m.current.None?
    ensures e.Dispatched? ==> m.current.Some?
  {
    hide Balanced, NoSessionOn, NoChannelOf, CanFree, LaneLegal, LaneNext, Others;
  }

  lemma {:induction false} CurrentSince(log: seq<Event>, d: nat)
    requires Accepted(log) && d < |log| && log[d].Dispatching? && Accepted(log[..d])
    requires forall t :: d < t < |log| ==> !log[t].Dispatching?
    ensures
      var m := After(log[..d]);
      After(log).current.None? || (log[d].fd in m.open && After(log).current == Handed(m, log[d].fd).current)
  {
    hide Legal, Next, Run;
    LastStep(log);
    CurrentAfter(After(log[..|log| - 1]), log[|log| - 1]);
    if d < |log| - 1 {
      assert log[..|log| - 1][..d] == log[..d];
      CurrentSince(log[..|log| - 1], d);
    }
  }

  lemma {:induction false} CurrentStays(log: seq<Event>, d: nat)
    requires Accepted(log) && d < |log| && log[d].Dispatching?
    requires forall t :: d < t < |log| ==> !log[t].Dispatched? && !log[t].TunnelStart?
    ensures After(log).current.Some?
  {
    hide Legal, Next, Run;
    LastStep(log);
    CurrentAfter(After(log[..|log| - 1]), log[|log| - 1]);
    if d < |log| - 1 {
      CurrentStays(log[..|log| - 1], d);
    }
  }

  /** A dispatch ends before the next socket is handed out and before the next select. */
  lemma EveryDispatchEnds(log: seq<Event>, d: nat, k: nat)
    requires Accepted(log) && d < k < |log| && log[d].Dispatching? && (log[k].Dispatching? || Selects(log[k]))
    requires forall t :: d < t < k ==> !log[t].TunnelStart?
    ensures exists t :: d < t < k && log[t].Dispatched?
  {
    hide Legal, Next, Run;
    AcceptedPrefix(log, k + 1);
    assert log[..k + 1][..k] == log[..k];
    LastStep(log[..k + 1]);
    CurrentAfter(After(log[..k]), log[k]);
    if forall t :: d < t < k ==> !log[t].Dispatched? {
      CurrentStays(log[..k], d);
      assert false;
    }
  }

  /** By the time its result is booked at k, the socket handed out at d has been served as its
      kind asks, and the result is the one the events in between decide. */
  lemma DispatchServed(log: seq<Event>, d: nat, k: nat) returns (o: Dispatch)
    requires Accepted(log) && d < k < |log| && log[d].Dispatching? && log[k].Dispatched?
    requires forall t :: d < t < k ==> !log[t].Dispatching?
    ensures o.fd == log[d].fd && OpenAs(log[..d], o.fd, o.sock) && InPairingOrder(log[..d], o.order)
    ensures forall ch :: PairedIn(log[..d], ch, o.sock.conn) ==> o.ch == ch
    ensures Answered(o, log[d + 1..k], log[k].rc)
  {
    hide Legal, Next, Run, Answered, InPairingOrder;
    AcceptedPrefix(log, k + 1);
    AcceptedPrefix(log, d);
    assert log[..k + 1][..k] == log[..k] && log[..k][..d] == log[..d];
    LastStep(log[..k + 1]);
    CurrentAfter(After(log[..k]), log[k]);
    CurrentSince(log[..k], d);
    o := After(log[..k]).current.value;
    OpenAsIff(log[..d], o.fd, o.sock);
    OrderIs(log[..d]);
    forall ch | PairedIn(log[..d], ch, o.sock.conn) ensures o.ch == ch {
      PairedInIff(log[..d], ch, o.sock.conn);
    }
    assert log[..k] == log[..d] + [Dispatching(log[d].fd)] + log[d + 1..k];
    WorkIs(log[..d], log[d].fd, log[d + 1..k]);
  }

  /** A client that is ready is received from.  Without bytes it is closed and its channel freed,
      and the dispatch fails exactly when the receive did.  With bytes, all that follows are
      writes to its channel, and the dispatch fails exactly when the last of them failed or a
      write was put off 101 times. */
  lemma ClientServed(log: seq<Event>, d: nat, k: nat, conn: nat, ch: nat)
    requires Accepted(log) && d < k < |log| && log[d].Dispatching? && log[k].Dispatched?
    requires forall t :: d < t < k ==> !log[t].Dispatching?
    requires OpenAs(log[..d], log[d].fd, Sock(conn, Client)) && PairedIn(log[..d], ch, conn)
    ensures d + 1 < k
    ensures
      var e, rc := log[d + 1], log[k].rc;
      || (&& e.ClientGone? && e.fd == log[d].fd && e.conn == conn && k == d + 4
          && log[d + 2] == Closed(log[d].fd, conn) && log[d + 3] == ChannelFreed(ch)
          && rc == if e.failed then -1 else 0)
      || (&& e.Received? && e.fd == log[d].fd && e.conn == conn
          && (forall t :: d + 1 < t < k ==>
                (log[t].Written? || log[t].WriteAgain? || log[t].WriteFailed?) && log[t].ch == ch)
          && rc == if Agains(log[d + 2..k]) == 101 || log[k - 1].WriteFailed? then -1 else 0)
  {
    hide Run, Legal, Next;
    var o := DispatchServed(log, d, k);
    SameSocket(log[..d], log[d].fd, o.sock, Sock(conn, Client));
    var work := log[d + 1..k];
    assert work[0] == log[d + 1] && work[1..] == log[d + 2..k];
    if log[d + 1].ClientGone? {
      assert work[1..][0] == log[d + 2] && work[1..][1] == log[d + 3];
    } else {
      forall t | d + 1 < t < k ensures IsWrite(log[t], ch) {
        assert log[t] == work[1..][t - d - 2];
      }
    }
  }

  /** A listener that is ready is accepted from.  The dispatch fails when the accept does.
      Otherwise the new client is paired with a new channel, or the last of at most 25 requests
      for one was refused and there is none. */
  lemma ListenerServed(log: seq<Event>, d: nat, k: nat, conn: nat)
    requires Accepted(log) && d < k < |log| && log[d].Dispatching? && log[k].Dispatched?
    requires forall t :: d < t < k ==> !log[t].Dispatching?
    requires OpenAs(log[..d], log[d].fd, Sock(conn, Listener))
    ensures d + 1 < k
    ensures
      var e, rc, last := log[d + 1], log[k].rc, log[k - 1];
      || (e == NotOpened(Client) && k == d + 2 && rc == -1)
      || (&& e.Opened? && e.kind.Client? && last.Paired? && last.fd == e.fd && last.conn == e.conn && rc == 0
          && log[k - 2].ChannelUp? && log[k - 2].ch == last.ch && d + 3 < k <= d + 28
          && forall t :: d + 1 < t < k - 2 ==> log[t].ChannelRefused? && log[t].again)
      || (&& e.Opened? && e.kind.Client? && rc == -10 && d + 2 < k <= d + 27
          && (forall t :: d + 1 < t < k ==> log[t].ChannelRefused?)
          && (forall t :: d + 1 < t < k - 1 ==> log[t].again)
          && (last.again ==> k == d + 27))
  {
    hide Run, Legal, Next;
    var o := DispatchServed(log, d, k);
    SameSocket(log[..d], log[d].fd, o.sock, Sock(conn, Listener));
    var work, rc := log[d + 1..k], log[k].rc;
    assert ListenerAnswer(work, rc);
    if work != [NotOpened(Client)] {
      var fd, conn', s, ch, again :| JoinAnswer(work, rc, fd, conn', s, ch, again);
      JoinShape(work, rc, fd, conn', s, ch, again);
    }
    forall t | d < t < k ensures log[t] == work[t - d - 1] {
    }
  }

  lemma JoinShape(work: seq<Event>, rc: int, fd: int, conn: nat, s: nat, ch: nat, again: nat)
    requires JoinAnswer(work, rc, fd, conn, s, ch, again)
    ensures |work| > 1 && work[0] == Opened(fd, conn, Client)
    ensures if ch != 0 then
              && 3 <= |work| <= 27 && rc == 0 && work[|work| - 1] == Paired(ch, fd, conn)
              && work[|work| - 2] == ChannelUp(ch, s)
              && forall t :: 0 < t < |work| - 2 ==> work[t] == ChannelRefused(s, true)
            else
              && |work| <= 26 && rc == -10
              && (forall t :: 0 < t < |work| - 1 ==> work[t] == ChannelRefused(s, true))
              && (work[|work| - 1] == ChannelRefused(s, false)
                  || (work[|work| - 1] == ChannelRefused(s, true) && |work| == 26))
  {
  }

  /** When the SSH socket is ready and there are channels, each of them is read, in the order of
      pairing, until it has no more data or its stream ends, unless a read failed before.  The
      dispatch is put off exactly when no channel had data; it fails exactly when a send or
      read failed and no stream ended after that.  Without channels nothing is done. */
  lemma SshServed(log: seq<Event>, d: nat, k: nat, conn: nat) returns (order: seq<nat>)
    requires Accepted(log) && d < k < |log| && log[d].Dispatching? && log[k].Dispatched?
    requires forall t :: d < t < k ==> !log[t].Dispatching?
    requires OpenAs(log[..d], log[d].fd, Sock(conn, Ssh))
    ensures InPairingOrder(log[..d], order)
    ensures order == [] ==> k == d + 1 && log[k].rc == 0
    ensures order != [] ==>
              var work, rc := log[d + 1..k], log[k].rc;
              && Pumps(work) && Stopped(work) <= order && (Stopped(work) == order || log[k - 1].ReadFailed?)
              && (rc == -2 <==> work == AllAgain(order))
              && (rc != -2 ==> (rc == -1 <==> exists f :: FailsForGood(work, f)) && (rc == -1 || rc == 0))
  {
    hide Run, Legal, Next, InPairingOrder, Pumps, Stopped, Verdict, AllAgain, FailsForGood;
    var o := DispatchServed(log, d, k);
    SameSocket(log[..d], log[d].fd, o.sock, Sock(conn, Ssh));
    order := o.order;
    var work := log[d + 1..k];
    if order != [] {
      ErrorIff(work);
      VerdictRange(work, SUCCESS);
      NonEmptyStop(work, order);
    }
  }

  lemma NonEmptyStop(work: seq<Event>, order: seq<nat>)
    requires order != [] && (Stopped(work) == order || Failed(work))
    ensures work != []
  {
  }

  /** Every channel in the list is read up to such an answer. */
  lemma {:induction false} StoppedHas(work: seq<Event>, ch: nat)
    requires ch in Stopped(work)
    ensures exists t :: 0 <= t < |work| && Stops(work[t]) && work[t].ch == ch
  {
    var n := |work| - 1;
    if Stops(work[n]) && work[n].ch == ch {
    } else {
      StoppedHas(work[..n], ch);
      var t :| 0 <= t < n && Stops(work[..n][t]) && work[..n][t].ch == ch;
      assert work[t] == work[..n][t];
    }
  }

  lemma {:induction false} SameSocket(log: seq<Event>, fd: int, a: Sock, b: Sock)
    requires OpenAs(log, fd, a) && OpenAs(log, fd, b)
    ensures a == b
  {
    if log == [] {
    } else {
      var e := log[|log| - 1];
      if !(e.Opened? && e.fd == fd) {
        SameSocket(log[..|log| - 1], fd, a, b);
      }
    }
  }
}
