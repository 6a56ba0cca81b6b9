/**
 The handlers of the select loop and the loop itself.
 */
module TunnelEngine {
  import opened TunnelTrace
  import opened TunnelEvents
  import opened TunnelWorld
  import opened TunnelState
  import opened TunnelSession
  import opened Wrappers

  /** Only the lane of one channel changed, and there only what concerns the bytes
      coming from the server. */
  ghost predicate DownOnly(m: Monitor, m': Monitor, h: nat) {
    && h in m.lanes && h in m'.lanes && m' == PutLane(m, h, m'.lanes[h])
    && m'.lanes[h].conn == m.lanes[h].conn
    && m'.lanes[h].received == m.lanes[h].received && m'.lanes[h].written == m.lanes[h].written
  }

  lemma DownOnlyTrans(m: Monitor, m': Monitor, m'': Monitor, h: nat)
    requires DownOnly(m, m', h) && DownOnly(m', m'', h)
    ensures DownOnly(m, m'', h)
  {
  }

  lemma DownOnlyChan(m: Monitor, m': Monitor, c: Chan, h: nat)
    requires DownOnly(m, m', h) && ChanOk(m, c)
    ensures ChanOk(m', c)
  {
  }

  /** The first `wr` bytes of a chunk that was pending at `m` have been sent. */
  ghost predicate SentSoFar(m: Monitor, m': Monitor, h: nat, chunk: seq<Byte>, wr: nat) {
    && h in m.lanes && wr <= |chunk|
    && var l := m.lanes[h];
       m' == PutLane(m, h, l.(sent := l.sent + chunk[..wr], pending := chunk[wr..]))
  }

  lemma SentNothing(m: Monitor, h: nat, chunk: seq<Byte>)
    requires h in m.lanes && m.lanes[h].pending == chunk
    ensures SentSoFar(m, m, h, chunk, 0)
  {
    var l := m.lanes[h];
    assert l == l.(sent := l.sent + chunk[..0], pending := chunk[0..]);
    assert m.lanes[h := l] == m.lanes;
  }

  lemma SentMore(m: Monitor, m1: Monitor, m2: Monitor, h: nat, chunk: seq<Byte>, wr: nat, n: nat)
    requires SentSoFar(m, m1, h, chunk, wr) && wr + n <= |chunk|
    requires
      var l := m1.lanes[h];
      m2 == PutLane(m1, h, l.(sent := l.sent + chunk[wr..wr + n], pending := chunk[wr + n..]))
    ensures SentSoFar(m, m2, h, chunk, wr + n)
  {
    var l := m.lanes[h];
    assert l.sent + chunk[..wr] + chunk[wr..wr + n] == l.sent + chunk[..wr + n];
  }

  lemma SentUse(m: Monitor, m': Monitor, c: Chan, chunk: seq<Byte>, wr: nat)
    requires ChanOk(m, c) && SentSoFar(m, m', c.handle, chunk, wr)
    ensures ChanOk(m', c) && DownOnly(m, m', c.handle)
    ensures
      var l, l' := m.lanes[c.handle], m'.lanes[c.handle];
      l'.pending == chunk[wr..] && l'.read == l.read && l'.sent == l.sent + chunk[..wr] && l'.lost == l.lost
  {
  }

  lemma SentFailed(m: Monitor, m1: Monitor, c: Chan, chunk: seq<Byte>, wr: nat)
    requires ChanOk(m, c) && SentSoFar(m, m1, c.handle, chunk, wr)
    ensures
      var l := m1.lanes[c.handle];
      var m2 := PutLane(m1, c.handle, l.(pending := [], lost := l.lost + (|chunk| - wr)));
      && DownOnly(m, m2, c.handle)
      && m2.lanes[c.handle] == l.(pending := [], lost := m.lanes[c.handle].lost + (|chunk| - wr))
      && l.read == m.lanes[c.handle].read
  {
  }

  /** The inner loop of handle_ssh_connections that hands one chunk read from a
      channel to its client. */
  method ForwardChunk(world: World, c: Chan, outbuf: array<Byte>, len: nat, ghost start: int)
    returns (ok: bool, ghost events: seq<Event>)
    requires world.Valid() && ChanOk(world.mon, c) && len <= outbuf.Length
    requires world.mon.lanes[c.handle].pending == outbuf[..len]
    modifies world`mon, world`log
    ensures world.Valid() && world.log == old(world.log) + events
    ensures Verdict(events, start) == (if ok then start else ERROR) && Stopped(events) == [] && Pumps(events)
    ensures DownOnly(old(world.mon), world.mon, c.handle)
    ensures
      var l, l' := old(world.mon).lanes[c.handle], world.mon.lanes[c.handle];
      && l'.pending == [] && l'.read == l.read
      && (if ok then l'.sent == l.sent + outbuf[..len] && l'.lost == l.lost else l'.lost > l.lost)
  {
    hide MonitorOk, Verdict, Stopped, Pumps, SentSoFar, DownOnly, Run, Accepted, After;
    var wr := 0;
    events := [];
    VerdictOfNone(start);
    ghost var m, log0, chunk := world.mon, world.log, outbuf[..len];
    SentNothing(m, c.handle, chunk);
    while wr < len
      invariant 0 <= wr <= len && world.Valid()
      invariant world.log == log0 + events && Verdict(events, start) == start && Stopped(events) == [] && Pumps(events)
      invariant SentSoFar(m, world.mon, c.handle, chunk, wr)
    {
      SentUse(m, world.mon, c, chunk, wr);
      assert chunk[wr..] == outbuf[wr..len];
      ghost var m1, log1 := world.mon, world.log;
      var rc := world.Send(c.socket, outbuf, wr, len);
      ghost var e := world.log[|log1|];
      Assoc(log0, events, [e]);
      VerdictSnoc(events, e, start);
      StoppedSnoc(events, e);
      events := events + [e];
      if rc <= 0 {
        SentFailed(m, m1, c, chunk, wr);
        return false, events;
      }
      assert chunk[wr..wr + rc] == outbuf[wr..wr + rc] && chunk[wr + rc..] == outbuf[wr + rc..len];
      SentMore(m, m1, world.mon, c.handle, chunk, wr, rc);
      wr := wr + rc;
    }
    SentUse(m, world.mon, c, chunk, wr);
    return true, events;
  }

  /** The loop of handle_ssh_connections over one channel: read until EAGAIN, an error
      or the end of the stream, forwarding every chunk before the next read.  `again`
      says that the first read already was EAGAIN. */
  method PumpChannel(world: World, context: Channel, result: int)
    returns (result': int, again: bool, fatal: bool, ghost events: seq<Event>)
    requires world.Valid() && ChanOk(world.mon, Chan(context.socket, context.handle))
    requires context.outbuf.Length == BUFSIZE && Rests(world.mon.lanes[context.handle])
    modifies world`mon, world`log, world`readsLeft, context.outbuf
    ensures world.Valid() && DownOnly(old(world.mon), world.mon, context.handle)
    ensures Rests(world.mon.lanes[context.handle])
    ensures world.log == old(world.log) + events && result' == Verdict(events, result)
    ensures events != [] && Ended(events) && Stopped(events) == [context.handle] && Pumps(events)
    ensures fatal <==> Failed(events)
    ensures again ==> events == [ReadAgain(context.handle)] && world.mon == old(world.mon)
    ensures !again ==> !events[0].ReadAgain?
  {
    hide MonitorOk, DownOnly, Verdict, Stopped, Pumps, Ended, Failed, Run, Accepted, After;
    result', again, fatal, events := result, false, false, [];
    ghost var c := Chan(context.socket, context.handle);
    ghost var m, log0 := world.mon, world.log;
    DownOnlyRefl(m, c.handle);
    VerdictOfNone(result);
    var firstflag := true;
    while true
      invariant world.Valid() && DownOnly(m, world.mon, c.handle) && ChanOk(world.mon, c)
      invariant Rests(world.mon.lanes[c.handle])
      invariant world.log == log0 + events && result' == Verdict(events, result)
      invariant Stopped(events) == [] && Pumps(events)
      invariant firstflag ==> world.mon == m && events == []
      invariant !firstflag ==> events != [] && !events[0].ReadAgain?
      decreases world.readsLeft
    {
      ghost var m0, log1 := world.mon, world.log;
      var len := world.ChannelRead(context.handle, context.outbuf, BUFSIZE);
      ghost var e := world.log[|log1|];
      Assoc(log0, events, [e]);
      VerdictSnoc(events, e, result);
      StoppedSnoc(events, e);
      events := events + [e];
      if len == EAGAIN {
        again := firstflag;
        break;
      } else if len < 0 {
        result', fatal := ERROR, true;
        break;
      }
      firstflag := false;
      DownOnlyRead(m, m0, world.mon, c.handle);
      var ok, eof;
      ghost var more;
      ok, eof, more := DeliverChunk(world, context, len, result', m);
      Assoc(log0, events, more);
      VerdictConcat(events, more, result);
      StoppedConcat(events, more);
      events := events + more;
      if !ok {
        result' := ERROR;
      }
      if eof {
        result' := SUCCESS;
        break;
      }
    }
  }

  /** One chunk is forwarded, then the channel is asked for the end of its stream. */
  method DeliverChunk(world: World, context: Channel, len: nat, ghost start: int, ghost m: Monitor)
    returns (ok: bool, eof: bool, ghost events: seq<Event>)
    requires world.Valid() && ChanOk(world.mon, Chan(context.socket, context.handle)) && len <= context.outbuf.Length
    requires world.mon.lanes[context.handle].pending == context.outbuf[..len]
    requires DownOnly(m, world.mon, context.handle)
    modifies world`mon, world`log
    ensures world.Valid() && ChanOk(world.mon, Chan(context.socket, context.handle))
    ensures DownOnly(m, world.mon, context.handle) && Rests(world.mon.lanes[context.handle])
    ensures world.log == old(world.log) + events && events != []
    ensures Ended(events) == eof && !Failed(events) && Pumps(events)
    ensures Verdict(events, start) == if eof then SUCCESS else if ok then start else ERROR
    ensures Stopped(events) == if eof then [context.handle] else []
  {
    hide MonitorOk, DownOnly, Verdict, Stopped, Pumps, Ended, Failed, Run, Accepted, After;
    ghost var c, log0, m1 := Chan(context.socket, context.handle), world.log, world.mon;
    ok, events := ForwardChunk(world, Chan(context.socket, context.handle), context.outbuf, len, start);
    DownOnlyTrans(m, m1, world.mon, c.handle);
    DownOnlyChan(m1, world.mon, c, c.handle);
    ghost var m2 := world.mon;
    eof := world.Eof(context.handle);
    DownOnlyAsked(m, m2, c);
    ghost var e := EofAsked(context.handle, eof);
    Assoc(log0, events, [e]);
    VerdictSnoc(events, e, start);
    StoppedSnoc(events, e);
    events := events + [e];
  }

  /** Nothing read is on its way, and the channel may be read. */
  predicate Rests(l: Lane) {
    l.pending == [] && l.asked
  }

  lemma DownOnlyAsked(m: Monitor, m1: Monitor, c: Chan)
    requires DownOnly(m, m1, c.handle) && ChanOk(m1, c)
    ensures
      var m2 := PutLane(m1, c.handle, m1.lanes[c.handle].(asked := true));
      DownOnly(m, m2, c.handle) && ChanOk(m2, c)
  {
  }

  lemma DownOnlyRefl(m: Monitor, h: nat)
    requires h in m.lanes
    ensures DownOnly(m, m, h)
  {
    assert m.lanes[h := m.lanes[h]] == m.lanes;
  }

  lemma DownOnlyRead(m: Monitor, m0: Monitor, m1: Monitor, h: nat)
    requires DownOnly(m, m0, h) && h in m1.lanes && m1 == PutLane(m0, h, m1.lanes[h])
    requires m1.lanes[h] == m0.lanes[h].(read := m1.lanes[h].read, pending := m1.lanes[h].pending, asked := false)
    ensures DownOnly(m, m1, h)
  {
  }

  lemma HandlesSnoc(chans: seq<Chan>, s: nat)
    requires s < |chans|
    ensures Handles(chans[..s + 1]) == Handles(chans[..s]) + [chans[s].handle]
  {
  }

  lemma HandlesPrefix(chans: seq<Chan>, s: nat)
    requires s <= |chans|
    ensures Handles(chans[..s]) <= Handles(chans) && (s == |chans| ==> Handles(chans[..s]) == Handles(chans))
  {
  }

  predicate OnlyAgain(events: seq<Event>, chans: seq<Chan>) {
    events == AllAgain(Handles(chans))
  }

  /** What `s` rounds have logged: nothing but EAGAIN, or something else in one of the
      first `s` places. */
  ghost predicate RoundsLog(events: seq<Event>, chans: seq<Chan>, s: nat, all: bool) {
    && s <= |chans|
    && if all then events == AllAgain(Handles(chans[..s]))
       else exists k :: 0 <= k < |events| && k < s && !events[k].ReadAgain?
  }

  lemma RoundsLogStep(events: seq<Event>, more: seq<Event>, chans: seq<Chan>, s: nat, all: bool, again: bool)
    requires RoundsLog(events, chans, s, all) && s < |chans| && more != []
    requires if again then more == [ReadAgain(chans[s].handle)] else !more[0].ReadAgain?
    ensures RoundsLog(events + more, chans, s + 1, all && again)
  {
    if all && again {
      HandlesSnoc(chans, s);
      assert AllAgain(Handles(chans[..s])) + [ReadAgain(chans[s].handle)] == AllAgain(Handles(chans[..s + 1]));
    } else if all {
      assert (events + more)[s] == more[0];
    } else {
      var k :| 0 <= k < |events| && k < s && !events[k].ReadAgain?;
      assert (events + more)[k] == events[k];
    }
  }

  lemma RoundsLogEnd(events: seq<Event>, chans: seq<Chan>, s: nat, all: bool)
    requires RoundsLog(events, chans, s, all) && (all ==> s == |chans|)
    ensures OnlyAgain(events, chans) <==> all
  {
    if all {
      assert chans[..s] == chans;
    } else {
      var k :| 0 <= k < |events| && k < s && !events[k].ReadAgain?;
    }
  }

  ghost predicate Quiet(m: Monitor, chans: seq<Chan>) {
    forall i :: 0 <= i < |chans| ==> ChanOk(m, chans[i]) && Rests(m.lanes[chans[i].handle])
  }

  lemma QuietAtStart(m: Monitor, v: View)
    requires MonitorOk(m) && Holds(m, v) && Balanced(m)
    ensures Quiet(m, v.chans)
  {
    forall i | 0 <= i < |v.chans| ensures ChanOk(m, v.chans[i]) && Rests(m.lanes[v.chans[i].handle]) {
      assert ChanOk(m, v.chans[i]);
      assert Settled(m.lanes[v.chans[i].handle]);
    }
  }

  /** What a pump over any channels leaves untouched. */
  ghost predicate DownStep(m: Monitor, m': Monitor) {
    && SameShape(m, m') && m'.nextHandle == m.nextHandle && m'.lastRc == m.lastRc
    && forall ch :: ch in m.lanes ==>
         && m'.lanes[ch].received == m.lanes[ch].received && m'.lanes[ch].written == m.lanes[ch].written
         && (Rests(m.lanes[ch]) ==> Rests(m'.lanes[ch]))
  }

  lemma DownStepOne(m: Monitor, m1: Monitor, m2: Monitor, chans: seq<Chan>, h: nat)
    requires DownStep(m, m1) && Quiet(m1, chans) && DownOnly(m1, m2, h) && Rests(m2.lanes[h])
    ensures DownStep(m, m2) && Quiet(m2, chans)
  {
    forall i | 0 <= i < |chans| ensures ChanOk(m2, chans[i]) && Rests(m2.lanes[chans[i].handle]) {
      assert ChanOk(m1, chans[i]);
      DownOnlyChan(m1, m2, chans[i], h);
    }
  }

  lemma DownStepKeeps(m: Monitor, m': Monitor, v: View)
    requires Holds(m, v) && DownStep(m, m')
    ensures Holds(m', v) && (Balanced(m) ==> Balanced(m'))
  {
    HoldsShape(m, m', v);
  }

  /** One round of the outer loop of handle_ssh_connections. */
  method PumpAt(connection: Session, s: nat, result: int, ghost m: Monitor)
    returns (result': int, again: bool, fatal: bool, ghost more: seq<Event>)
    requires connection.Linked() && s < connection.channelssize
    requires connection.world.Valid() && Quiet(connection.world.mon, connection.chans)
    requires DownStep(m, connection.world.mon)
    modifies connection.world`mon, connection.world`log, connection.world`readsLeft, connection.OutBufs()
    ensures connection.Linked()
    ensures connection.world.Valid() && Quiet(connection.world.mon, connection.chans)
    ensures DownStep(m, connection.world.mon)
    ensures connection.world.log == old(connection.world.log) + more && result' == Verdict(more, result)
    ensures more != [] && Stopped(more) == [connection.chans[s].handle] && Pumps(more)
    ensures fatal <==> Failed(more)
    ensures again ==> !fatal && connection.world.mon == old(connection.world.mon)
    ensures if again then more == [ReadAgain(connection.chans[s].handle)] else !more[0].ReadAgain?
  {
    var context := connection.channels[s];
    assert connection.Entry(context, connection.chans[s]);
    assert context.outbuf in connection.OutBufs();
    ghost var m1 := connection.world.mon;
    result', again, fatal, more := PumpChannel(connection.world, context, result);
    DownStepOne(m, m1, connection.world.mon, connection.chans, context.handle);
    assert forall i :: 0 <= i < connection.channelssize ==>
        connection.Entry(connection.channels[i], connection.chans[i]);
  }

  /** What the log shows after `s` rounds. */
  ghost predicate Rounds(log0: seq<Event>, log: seq<Event>, events: seq<Event>, chans: seq<Chan>, s: nat, all: bool) {
    && log == log0 + events && RoundsLog(events, chans, s, all)
    && Stopped(events) == Handles(chans[..s]) && Pumps(events) && (s > 0 ==> events != [])
  }

  lemma RoundsStart(log: seq<Event>, chans: seq<Chan>)
    ensures Rounds(log, log, [], chans, 0, true)
  {
    assert RoundsLog([], chans, 0, true) && Handles(chans[..0]) == [];
  }

  lemma RoundsStep(log0: seq<Event>, log: seq<Event>, events: seq<Event>, more: seq<Event>, chans: seq<Chan>, s: nat,
                   all: bool, again: bool)
    requires Rounds(log0, log, events, chans, s, all) && s < |chans| && more != []
    requires Stopped(more) == [chans[s].handle] && Pumps(more)
    requires if again then more == [ReadAgain(chans[s].handle)] else !more[0].ReadAgain?
    ensures Rounds(log0, log + more, events + more, chans, s + 1, all && again)
    ensures Verdict(events + more, SUCCESS) == Verdict(more, Verdict(events, SUCCESS))
    ensures Failed(events + more) == Failed(more)
  {
    hide RoundsLog, Stopped, Pumps, Handles, Verdict, Failed;
    RoundsLogStep(events, more, chans, s, all, again);
    Assoc(log0, events, more);
    VerdictConcat(events, more, SUCCESS);
    StoppedConcat(events, more);
    HandlesSnoc(chans, s);
  }

  lemma RoundsEnd(log0: seq<Event>, log: seq<Event>, events: seq<Event>, chans: seq<Chan>, s: nat, all: bool)
    requires Rounds(log0, log, events, chans, s, all) && s <= |chans| && (all ==> s == |chans|)
    ensures log == log0 + events && Pumps(events) && (s > 0 ==> events != []) && (OnlyAgain(events, chans) <==> all)
    ensures Stopped(events) <= Handles(chans) && (s == |chans| ==> Stopped(events) == Handles(chans))
  {
    hide RoundsLog, Stopped, Pumps, Handles, OnlyAgain;
    RoundsLogEnd(events, chans, s, all);
    HandlesPrefix(chans, s);
  }

  /** The pump after `s` rounds of a dispatch that began with `m` and `log0`. */
  ghost predicate Pumping(connection: Session, m: Monitor, log0: seq<Event>, events: seq<Event>, s: nat, all: bool)
    reads connection, connection.world
  {
    var world := connection.world;
    && world.Valid() && DownStep(m, world.mon) && Quiet(world.mon, connection.chans)
    && Rounds(log0, world.log, events, connection.chans, s, all) && (all ==> world.mon == m)
  }

  lemma PumpingStart(connection: Session)
    requires connection.world.Valid() && Quiet(connection.world.mon, connection.chans)
    ensures Pumping(connection, connection.world.mon, connection.world.log, [], 0, true)
  {
    RoundsStart(connection.world.log, connection.chans);
  }

  /** The same round, seen from the start of the dispatch. */
  method PumpNext(connection: Session, s: nat, result: int, ghost m: Monitor, ghost log0: seq<Event>,
                  ghost events: seq<Event>, ghost all: bool)
    returns (result': int, again: bool, fatal: bool, ghost events': seq<Event>)
    requires connection.Linked() && s < connection.channelssize
    requires Pumping(connection, m, log0, events, s, all) && result == Verdict(events, SUCCESS)
    modifies connection.world`mon, connection.world`log, connection.world`readsLeft, connection.OutBufs()
    ensures connection.Linked() && Pumping(connection, m, log0, events', s + 1, all && again)
    ensures result' == Verdict(events', SUCCESS) && (fatal <==> Failed(events')) && !(again && fatal)
  {
    hide DownStep, Quiet, Rounds, Verdict, Stopped, Pumps, Failed;
    ghost var log, more := connection.world.log, [];
    result', again, fatal, more := PumpAt(connection, s, result, m);
    RoundsStep(log0, log, events, more, connection.chans, s, all, again);
    events' := events + more;
  }

  /** The outer loop of handle_ssh_connections.  `rounds` channels were looked at, and
      `all` says that every one of them was without data. */
  method PumpRounds(connection: Session, ghost m: Monitor, ghost log0: seq<Event>)
    returns (result: int, ghost events: seq<Event>, ghost rounds: nat, ghost all: bool)
    requires connection.Linked() && connection.channelssize > 0 && Pumping(connection, m, log0, [], 0, true)
    modifies connection.world`mon, connection.world`log, connection.world`readsLeft, connection.OutBufs()
    ensures connection.Linked()
    ensures Pumping(connection, m, log0, events, rounds, all)
    ensures 0 < rounds <= |connection.chans| && (rounds == |connection.chans| || (Failed(events) && !all))
    ensures result == if all then AGAIN else Verdict(events, SUCCESS)
  {
    assert |connection.chans| == connection.channelssize;
    hide Pumping, Verdict, Failed, Session.Linked, Session.Entry;
    var s, eagain := 0, 0;
    result, events, all := SUCCESS, [], true;
    VerdictOfNone(SUCCESS);
    while s < connection.channelssize
      invariant 0 <= s <= connection.channelssize && 0 <= eagain <= s
      invariant connection.Linked() && Pumping(connection, m, log0, events, s, all) && (all <==> eagain == s)
      invariant result == if eagain == connection.channelssize then AGAIN else Verdict(events, SUCCESS)
    {
      var again, fatal;
      result, again, fatal, events := PumpNext(connection, s, result, m, log0, events, all);
      all, s := all && again, s + 1;
      if again {
        eagain := eagain + 1;
        if eagain == connection.channelssize {
          result := AGAIN;
        }
      }
      if fatal {
        break;
      }
    }
    rounds := s;
  }

  lemma SshAnswerHere(chans: seq<Chan>, d: Dispatch, events: seq<Event>, rc: int)
    requires d.order == Handles(chans)
    requires if chans == [] then events == [] && rc == SUCCESS else
               && Pumps(events) && Stopped(events) <= Handles(chans)
               && (Stopped(events) == Handles(chans) || Failed(events))
               && rc == if OnlyAgain(events, chans) then AGAIN else Verdict(events, SUCCESS)
    ensures SshAnswer(d, events, rc)
  {
  }

  /** handle_ssh_connections: returns AGAIN exactly when there are channels and all it
      did was to find each of them without data; otherwise the verdict of its events. */
  method HandleSsh(connection: Session, master: set<int>, ghost fdmax: int, ghost d: Dispatch)
    returns (rc: int, master': set<int>, ghost events: seq<Event>)
    requires connection.Valid() && Balanced(connection.world.mon) && d.order == Handles(connection.chans)
    requires MasterOk(connection.V(), master, fdmax)
    modifies connection.world`mon, connection.world`log, connection.world`readsLeft, connection.OutBufs()
    ensures connection.Valid() && Balanced(connection.world.mon)
    ensures DownStep(old(connection.world.mon), connection.world.mon)
    ensures MasterOk(connection.V(), master', fdmax)
    ensures connection.world.log == old(connection.world.log) + events && SshAnswer(d, events, rc)
    ensures rc == AGAIN <==> connection.chans != [] && OnlyAgain(events, connection.chans)
    ensures rc == AGAIN || rc == Verdict(events, SUCCESS)
    ensures rc == SUCCESS || rc == ERROR || rc == AGAIN
    ensures rc != AGAIN ==> (rc == ERROR <==> exists k :: FailsForGood(events, k))
    ensures rc == AGAIN || connection.chans == [] ==> connection.world.mon == old(connection.world.mon)
    ensures connection.chans == [] ==> events == []
    ensures connection.chans != [] ==>
              && events != [] && Stopped(events) <= Handles(connection.chans)
              && (Stopped(events) == Handles(connection.chans) || Failed(events))
    ensures master' == if connection.chans == [] then master - {connection.localsocket, connection.sshsocket}
          else master
  {
    assert DownStep(connection.world.mon, connection.world.mon);
    hide MonitorOk, Holds, DownStep, Quiet, Balanced, OnlyAgain, Stopped, Pumps, Handles, Failed, Rounds, FailsForGood;
    hide SshAnswer;
    if connection.channelssize == 0 {
      ErrorIff([]);
      SshAnswerHere(connection.chans, d, [], SUCCESS);
      return SUCCESS, master - {connection.localsocket} - {connection.sshsocket}, [];
    }
    ghost var m := connection.world.mon;
    connection.world.Consistent();
    QuietAtStart(m, connection.V());
    master' := master;
    ghost var log0 := connection.world.log;
    ghost var rounds, all;
    PumpingStart(connection);
    rc, events, rounds, all := PumpRounds(connection, m, log0);
    RoundsEnd(log0, connection.world.log, events, connection.chans, rounds, all);
    VerdictRange(events, SUCCESS);
    ErrorIff(events);
    SshAnswerHere(connection.chans, d, events, rc);
    DownStepKeeps(m, connection.world.mon, connection.V());
  }

  /** Only the lane of one channel changed, and there only what came from the client. */
  ghost predicate UpOnly(m: Monitor, m': Monitor, h: nat) {
    && h in m.lanes && h in m'.lanes && m' == PutLane(m, h, m'.lanes[h])
    && m'.lanes[h] == m.lanes[h].(received := m'.lanes[h].received, written := m'.lanes[h].written)
  }

  /** The first `wr` bytes of a chunk received before `m` have been written. */
  ghost predicate WrittenSoFar(m: Monitor, m': Monitor, h: nat, chunk: seq<Byte>, wr: nat) {
    && h in m.lanes && wr <= |chunk|
    && var l := m.lanes[h];
       l.written + chunk == l.received && m' == PutLane(m, h, l.(written := l.written + chunk[..wr]))
  }

  lemma WrittenNothing(m: Monitor, h: nat, chunk: seq<Byte>)
    requires h in m.lanes && m.lanes[h].written + chunk == m.lanes[h].received
    ensures WrittenSoFar(m, m, h, chunk, 0)
  {
    var l := m.lanes[h];
    assert l == l.(written := l.written + chunk[..0]);
    assert m.lanes[h := l] == m.lanes;
  }

  lemma WrittenMore(m: Monitor, m1: Monitor, m2: Monitor, h: nat, chunk: seq<Byte>, wr: nat, n: nat)
    requires WrittenSoFar(m, m1, h, chunk, wr) && wr + n <= |chunk|
    requires m2 == PutLane(m1, h, m1.lanes[h].(written := m1.lanes[h].written + chunk[wr..wr + n]))
    ensures WrittenSoFar(m, m2, h, chunk, wr + n)
  {
    var l := m.lanes[h];
    assert l.written + chunk[..wr] + chunk[wr..wr + n] == l.written + chunk[..wr + n];
  }

  lemma WrittenUse(m: Monitor, m': Monitor, c: Chan, chunk: seq<Byte>, wr: nat)
    requires ChanOk(m, c) && WrittenSoFar(m, m', c.handle, chunk, wr)
    ensures ChanOk(m', c) && UpOnly(m, m', c.handle)
    ensures
      var l := m'.lanes[c.handle];
      && l.received == m.lanes[c.handle].received && l.written + chunk[wr..] == l.received
      && (l.written == l.received <==> wr == |chunk|)
  {
    assert chunk[..wr] + chunk[wr..] == chunk;
    assert m.lanes[c.handle].written + chunk[..wr] + chunk[wr..] == m.lanes[c.handle].written + chunk;
  }

  /** The loop of handle_client_connections that writes what was received to the
      channel.  It gives up on a hard error and on the 101st EAGAIN, and only then. */
  method WriteAll(world: World, c: Chan, inbuf: array<Byte>, nbytes: nat) returns (rc: int, ghost events: seq<Event>)
    requires world.Valid() && ChanOk(world.mon, c) && nbytes <= inbuf.Length
    requires
      var l := world.mon.lanes[c.handle];
      l.written + inbuf[..nbytes] == l.received
    modifies world`mon, world`log, world`stallsLeft
    ensures world.Valid() && UpOnly(old(world.mon), world.mon, c.handle)
    ensures world.log == old(world.log) + events && Writes(events, c.handle)
    ensures world.mon.lanes[c.handle].received == old(world.mon).lanes[c.handle].received
    ensures rc == SUCCESS || rc == ERROR
    ensures rc == SUCCESS <==> world.mon.lanes[c.handle].written == world.mon.lanes[c.handle].received
    ensures Agains(events) <= 101
    ensures rc == ERROR <==> GaveUp(events)
    ensures |events| <= nbytes + 101 + (old(world.stallsLeft) - world.stallsLeft)
  {
    hide MonitorOk, Agains, GaveUp, WrittenSoFar, UpOnly, Writes, Run, Accepted, After;
    AgainsOfNone(c.handle);
    var again, wr := 0, 0;
    events := [];
    ghost var m, h, log0, stalls, chunk := world.mon, c.handle, world.log, world.stallsLeft, inbuf[..nbytes];
    WrittenNothing(m, h, chunk);
    while wr < nbytes
      invariant 0 <= wr <= nbytes && 0 <= again == Agains(events) <= 100 && world.stallsLeft <= stalls
      invariant world.Valid() && world.log == log0 + events
      invariant WrittenSoFar(m, world.mon, h, chunk, wr)
      invariant |events| <= wr + again + (stalls - world.stallsLeft)
      invariant !GaveUp(events) && Writes(events, h)
      decreases nbytes - wr, world.stallsLeft, 101 - again
    {
      WrittenUse(m, world.mon, c, chunk, wr);
      assert chunk[wr..] == inbuf[wr..nbytes];
      ghost var m1, log1 := world.mon, world.log;
      var n := world.ChannelWrite(c.handle, inbuf, wr, nbytes);
      ghost var e := world.log[|log1|];
      Assoc(log0, events, [e]);
      AgainsSnoc(events, e);
      events := events + [e];
      if n == EAGAIN {
        again := again + 1;
        if again > 100 {
          return ERROR, events;
        }
        continue;
      }
      if n < 0 {
        return ERROR, events;
      }
      assert chunk[wr..wr + n] == inbuf[wr..wr + n];
      WrittenMore(m, m1, world.mon, h, chunk, wr, n);
      wr := wr + n;
    }
    WrittenUse(m, world.mon, c, chunk, wr);
    return SUCCESS, events;
  }

  lemma HeldSettled(m: Monitor, v: View, k: nat)
    requires MonitorOk(m) && Holds(m, v) && Balanced(m) && k < |v.chans|
    ensures ChanOk(m, v.chans[k]) && Settled(m.lanes[v.chans[k].handle])
  {
    assert ChanOk(m, v.chans[k]);
  }

  lemma UpOnlyKeeps(m: Monitor, m': Monitor, v: View, h: nat)
    requires Holds(m, v) && UpOnly(m, m', h)
    ensures Holds(m', v) && SameLoop(m, m') && m'.open == m.open
    ensures Balanced(m) && Settled(m'.lanes[h]) ==> Balanced(m')
  {
    HoldsShape(m, m', v);
  }

  /** A client socket without a channel; the loop never dispatches one. */
  lemma StrayHolds(m: Monitor, v: View, fd: int)
    requires MonitorOk(m) && Holds(m, v) && fd in m.open && m.open[fd].kind.Client? && fd !in Sockets(v.chans)
    ensures NoSessionOn(m, fd) && Holds(MinusSocket(m, fd), v)
  {
    forall i | 0 <= i < |v.chans| ensures ChanOk(MinusSocket(m, fd), v.chans[i]) {
      assert ChanOk(m, v.chans[i]);
      assert v.chans[i] in v.chans;
    }
  }

  lemma DropMaster(v: View, k: nat, master: set<int>, fdmax: int)
    requires MasterOk(v, master, fdmax) && k < |v.chans| && Distinct(v.chans)
    requires v.chans[k].socket != v.local && v.chans[k].socket != v.ssh
    ensures
      var v' := v.(chans := Without(v.chans, k));
      var rest := master - {v.chans[k].socket};
      MasterOk(v', rest, fdmax) && MasterOk(v', rest - {v.local, v.ssh}, fdmax)
      && Sockets(v'.chans) == Sockets(v.chans) - {v.chans[k].socket}
  {
    SocketsWithout(v.chans, k);
  }

  lemma ClientSocket(m: Monitor, v: View, k: nat)
    requires MonitorOk(m) && Holds(m, v) && k < |v.chans|
    ensures Distinct(v.chans) && v.chans[k].socket != v.local && v.chans[k].socket != v.ssh
    ensures ChanOk(m, v.chans[k]) && v.chans[k].socket in Sockets(v.chans)
  {
    assert ChanOk(m, v.chans[k]);
    assert v.chans[k] in v.chans;
  }

  /** The client is gone: close its channel, and stop listening after the last one. */
  method DropClient(connection: Session, context: Channel, ghost k: nat, master: set<int>, ghost fdmax: int)
    returns (master': set<int>)
    requires connection.Valid() && Balanced(connection.world.mon)
    requires k < connection.channelssize && connection.channels[k] == context
    requires MasterOk(connection.V(), master, fdmax)
    modifies connection.Repr
    ensures connection.Valid() && fresh(connection.Repr - old(connection.Repr))
    ensures connection.V() == old(connection.V()).(chans := Without(old(connection.chans), k))
    ensures Sockets(connection.chans) == Sockets(old(connection.chans)) - {old(context.socket)}
    ensures MasterOk(connection.V(), master', fdmax) && Balanced(connection.world.mon)
    ensures connection.localsocket in master' <==> connection.localsocket in master && connection.chans != []
    ensures KeepsSockets(old(connection.world.mon), connection.world.mon, old(context.socket))
    ensures SameLoop(old(connection.world.mon), connection.world.mon)
    ensures connection.world.selectsLeft == old(connection.world.selectsLeft)
    ensures connection.world.log == old(connection.world.log)
              + [Closed(old(context.socket), ConnOf(old(connection.world.mon), old(context.socket))),
                 ChannelFreed(old(context.handle))]
  {
    hide MonitorOk, Holds, MasterOk, Distinct, Run, Accepted, After;
    connection.world.Consistent();
    ClientSocket(connection.world.mon, connection.V(), k);
    DropMaster(connection.V(), k, master, fdmax);
    assert connection.Entry(context, connection.chans[k]);
    master' := master - {context.socket};
    connection.CloseChannel(context, k);
    if connection.channelssize == 0 {
      assert master' - {connection.localsocket} - {connection.sshsocket}
          == master' - {connection.localsocket, connection.sshsocket};
      master' := master' - {connection.localsocket} - {connection.sshsocket};
    }
  }

  lemma UpOnlyTrans(m: Monitor, m1: Monitor, m2: Monitor, h: nat)
    requires UpOnly(m, m1, h) && UpOnly(m1, m2, h)
    ensures UpOnly(m, m2, h)
  {
  }

  /** Receiving on a client's socket and, if bytes came, writing them to its channel. */
  method ServeClient(connection: Session, context: Channel, ghost k: nat, ghost d: Dispatch)
    returns (rc: int, nbytes: int, ghost events: seq<Event>)
    requires connection.Valid() && Balanced(connection.world.mon)
    requires k < connection.channelssize && connection.channels[k] == context
    requires connection.world.mon.current == Some(d) && d.fd == context.socket && d.ch == context.handle
    requires d.sock == Sock(ConnOf(connection.world.mon, context.socket), Client)
    modifies connection.world`mon, connection.world`log, connection.world`stallsLeft, context.inbuf
    ensures connection.Valid() && old(connection.world.log) <= connection.world.log
    ensures SameLoop(old(connection.world.mon), connection.world.mon)
    ensures connection.world.mon.open == old(connection.world.mon).open
    ensures nbytes <= 0 ==>
              && connection.world.mon == old(connection.world.mon)
              && connection.world.log == old(connection.world.log)
                 + [ClientGone(context.socket, ConnOf(connection.world.mon, context.socket), nbytes < 0)]
    ensures nbytes <= 0 ==> rc == if nbytes == 0 then SUCCESS else ERROR
    ensures rc == SUCCESS || rc == ERROR
    ensures rc == SUCCESS ==> Balanced(connection.world.mon)
    ensures nbytes > 0 ==>
              var h := connection.chans[k].handle;
              var m, m' := old(connection.world.mon), connection.world.mon;
              && h in m.lanes && UpOnly(m, m', h) && nbytes <= BUFSIZE
              && connection.world.log == old(connection.world.log)
                 + [Received(context.socket, ConnOf(m, context.socket), context.inbuf[..nbytes])] + events
              && (rc == ERROR <==> GaveUp(events)) && Writes(events, d.ch)
              && m'.lanes[h].received == m.lanes[h].received + context.inbuf[..nbytes]
              && (rc == SUCCESS <==> m'.lanes[h].written == m'.lanes[h].received)
  {
    hide MonitorOk, Holds, Balanced, GaveUp, Writes, Run, Accepted, After;
    var world := connection.world;
    ghost var m, v := world.mon, connection.V();
    world.Consistent();
    HeldSettled(m, v, k);
    assert connection.Entry(context, connection.chans[k]);
    ghost var h := context.handle;
    nbytes := world.Recv(context.socket, context.inbuf, BUFSIZE);
    assert connection.Linked() by {
      assert forall i :: 0 <= i < connection.channelssize ==>
          connection.Entry(connection.channels[i], connection.chans[i]);
    }
    if nbytes <= 0 {
      return if nbytes == 0 then SUCCESS else ERROR, nbytes, [];
    }
    ghost var m1 := world.mon;
    assert UpOnly(m, m1, h);
    rc, events := WriteAll(world, Chan(context.socket, context.handle), context.inbuf, nbytes);
    UpOnlyTrans(m, m1, world.mon, h);
    UpOnlyKeeps(m, world.mon, v, h);
  }

  /** Every channel on that socket is `ch`. */
  ghost predicate ChannelIs(chans: seq<Chan>, fd: int, ch: nat) {
    forall k :: 0 <= k < |chans| && chans[k].socket == fd ==> chans[k].handle == ch
  }

  /** handle_client_connections.  `nbytes` is what recv answered: the client is dropped
      exactly when it is not positive, and the loop stops listening after the last one. */
  method HandleClient(connection: Session, i: int, master: set<int>, ghost fdmax: int, ghost d: Dispatch)
    returns (rc: int, master': set<int>, ghost nbytes: int, ghost work: seq<Event>)
    requires connection.Valid() && Balanced(connection.world.mon)
    requires i in connection.world.mon.open && connection.world.mon.open[i].kind.Client?
    requires connection.world.mon.current == Some(d) && d.fd == i && d.sock == connection.world.mon.open[i]
    requires ChannelIs(connection.chans, i, d.ch)
    requires MasterOk(connection.V(), master, fdmax)
    modifies connection.Repr
    ensures connection.Valid() && fresh(connection.Repr - old(connection.Repr))
    ensures connection.V() == old(connection.V()).(chans := connection.chans)
    ensures rc == SUCCESS || rc == ERROR
    ensures i !in Sockets(old(connection.chans)) ==>
              && rc == ERROR && connection.chans == old(connection.chans) && master' == master - {i}
              && i !in connection.world.mon.open
              && connection.world.log == old(connection.world.log) + [Closed(i, old(connection.world.mon).open[i].conn)]
    ensures i in Sockets(old(connection.chans)) ==>
              && MasterOk(connection.V(), master', fdmax)
              && (nbytes > 0 ==> connection.chans == old(connection.chans) && master' == master)
              && ClientAnswer(d, work, rc)
              && (if nbytes > 0 then work[0].Received? && |work[0].data| == nbytes
                  else work[0].ClientGone? && work[0].failed == (nbytes < 0))
              && (nbytes <= 0 ==>
                    && Sockets(connection.chans) == Sockets(old(connection.chans)) - {i}
                    && rc == (if nbytes == 0 then SUCCESS else ERROR)
                    && (connection.localsocket in master' <==>
                          connection.localsocket in master && connection.chans != []))
    ensures Sockets(old(connection.chans)) - {i} <= Sockets(connection.chans)
    ensures rc == SUCCESS ==> Balanced(connection.world.mon)
    ensures KeepsSockets(old(connection.world.mon), connection.world.mon, i)
    ensures SameLoop(old(connection.world.mon), connection.world.mon)
    ensures connection.world.selectsLeft == old(connection.world.selectsLeft)
    ensures connection.world.log == old(connection.world.log) + work
  {
    hide MonitorOk, Holds, MasterOk, Balanced, GaveUp, Writes, ClientAnswer, Run, Accepted, After;
    var context, k := connection.FindBySocket(i);
    if context == null {
      connection.world.Consistent();
      StrayHolds(connection.world.mon, connection.V(), i);
      connection.world.CloseSocket(i);
      return ERROR, master - {i}, 0, [Closed(i, d.sock.conn)];
    }
    assert connection.Entry(context, connection.chans[k]);
    assert connection.chans[k] in connection.chans;
    ghost var log0, events := connection.world.log, [];
    var n;
    rc, n, events := ServeClient(connection, context, k, d);
    master', nbytes := master, n;
    if n <= 0 {
      ghost var gone := [ClientGone(i, d.sock.conn, n < 0)];
      master' := DropClient(connection, context, k, master, fdmax);
      work := gone + [Closed(i, d.sock.conn), ChannelFreed(d.ch)];
      Assoc(log0, gone, [Closed(i, d.sock.conn), ChannelFreed(d.ch)]);
      GoneAnswer(d, n < 0);
    } else {
      work := [Received(i, d.sock.conn, context.inbuf[..n])] + events;
      Assoc(log0, [Received(i, d.sock.conn, context.inbuf[..n])], events);
      ReceivedAnswer(d, context.inbuf[..n], events);
    }
  }

  lemma NewMaster(m: Monitor, v: View, master: set<int>, fdmax: int, c: Chan)
    requires Holds(m, v) && MasterOk(v, master, fdmax) && c.socket !in m.open && 0 <= c.socket
    ensures
      var fdmax' := if c.socket > fdmax then c.socket else fdmax;
      MasterOk(v.(chans := v.chans + [c]), master + {c.socket}, fdmax')
      && Sockets(v.chans) <= Sockets(v.chans + [c])
    ensures v.local != INVALID ==> v.local != c.socket
  {
    assert Sockets(v.chans + [c]) == Sockets(v.chans) + {c.socket} by {
      forall x | x in v.chans + [c] ensures x in v.chans || x == c {
      }
      assert (v.chans + [c])[|v.chans|] == c;
    }
  }

  /** Asking for a direct-tcpip channel, again after each EAGAIN and after nothing else,
      at most 25 times in all. */
  method OpenChannel(world: World, session: nat) returns (ch: nat, ghost again: nat)
    requires world.Valid() && session in world.mon.sessions
    modifies world`mon, world`log
    ensures world.Valid()
    ensures ch == 0 ==>
              && world.mon == old(world.mon)
              && |world.log| > |old(world.log)| && world.log[|world.log| - 1].ChannelRefused?
    ensures ch != 0 ==> ch == old(world.mon).nextHandle && world.mon == PlusChannel(old(world.mon), session)
    ensures AttemptsOk(ch, again) && world.log == old(world.log) + Attempts(session, ch, again)
  {
    ch, again := 0, 0;
    var attempts := 0;
    while attempts < 25
      invariant world.Valid() && ch == 0 && attempts == again <= 25 && world.mon == old(world.mon)
      invariant world.log == old(world.log) + Refusals(session, again)
    {
      attempts := attempts + 1;
      var lerr;
      ch, lerr := world.DirectTcpip(session);
      if ch == 0 && lerr == EAGAIN {
        assert Refusals(session, again) + [ChannelRefused(session, true)] == Refusals(session, again + 1);
        again := again + 1;
        continue;
      }
      break;
    }
  }

  method AcceptClient(world: World, ghost v: View) returns (newfd: int)
    requires world.Valid() && Holds(world.mon, v) && v.session != 0
    modifies world`mon, world`log
    ensures world.Valid() && MonitorOk(world.mon) && Holds(world.mon, v) && v.session in world.mon.sessions
    ensures Balanced(old(world.mon)) ==> Balanced(world.mon)
    ensures newfd == INVALID ==> world.mon == old(world.mon) && world.log == old(world.log) + [NotOpened(Client)]
    ensures newfd != INVALID ==>
              && 0 <= newfd && newfd !in old(world.mon).open
              && world.mon == PlusSocket(old(world.mon), newfd, Client)
                    && world.mon.open[newfd].conn !in world.mon.laneOf
              && world.log == old(world.log) + [Opened(newfd, old(world.mon).nextConn, Client)]
  {
    hide MonitorOk, Holds, Run, Accepted, After;
    world.Consistent();
    ghost var m := world.mon;
    newfd := world.OpenSocket(Client);
    if newfd != INVALID {
      OpenClientHolds(m, v, newfd);
    }
    world.Consistent();
    SessionAlive(world.mon, v);
  }

  /** An accepted client gets a channel, or 0 when none could be opened. */
  method JoinClient(connection: Session, newfd: int) returns (ch: nat, ghost again: nat)
    requires connection.Valid() && MonitorOk(connection.world.mon)
          && connection.sshsession in connection.world.mon.sessions
    requires connection.sshsession != 0
    requires newfd in connection.world.mon.open && connection.world.mon.open[newfd].kind.Client?
    requires connection.world.mon.open[newfd].conn !in connection.world.mon.laneOf
    modifies connection`channels, connection`channelssize, connection`chans, connection`Repr
    modifies connection.world`mon, connection.world`log
    ensures connection.Valid() && fresh(connection.Repr - old(connection.Repr))
    ensures connection.chans == old(connection.chans) + if ch == 0 then [] else [Chan(newfd, ch)]
    ensures connection.world.mon.open == old(connection.world.mon).open
    ensures SameLoop(old(connection.world.mon), connection.world.mon)
    ensures Balanced(old(connection.world.mon)) ==> Balanced(connection.world.mon)
    ensures AttemptsOk(ch, again)
    ensures connection.world.log == old(connection.world.log) + (Attempts(connection.sshsession, ch, again)
              + if ch != 0 then [Paired(ch, newfd, connection.world.mon.open[newfd].conn)] else [])
  {
    hide MonitorOk, Holds, Attempts, AttemptsOk, Run, Accepted, After;
    ghost var m, log0 := connection.world.mon, connection.world.log;
    ch, again := OpenChannel(connection.world, connection.sshsession);
    ghost var tries := Attempts(connection.sshsession, ch, again);
    if ch == 0 {
      assert tries + [] == tries;
      return;
    }
    Assoc(log0, tries, [Paired(ch, newfd, m.open[newfd].conn)]);
    AddChannelHolds(m, connection.V(), newfd);
    connection.CreateChannel(newfd, ch);
  }

  ghost function Joined(fd: int, conn: nat, s: nat, ch: nat, again: nat): seq<Event> {
    [Opened(fd, conn, Client)] + (Attempts(s, ch, again) + if ch != 0 then [Paired(ch, fd, conn)] else [])
  }

  lemma JoinedAnswer(log: seq<Event>, fd: int, conn: nat, s: nat, ch: nat, again: nat)
    requires AttemptsOk(ch, again)
    ensures
      var work := Joined(fd, conn, s, ch, again);
      var rest := Attempts(s, ch, again) + if ch != 0 then [Paired(ch, fd, conn)] else [];
      && log + [Opened(fd, conn, Client)] + rest == log + work
      && JoinAnswer(work, if ch != 0 then SUCCESS else CHANNEL_CREATION_ERROR, fd, conn, s, ch, again)
      && work != [NotOpened(Client)]
      && |log + work| > |log| && ((log + work)[|log + work| - 1].ChannelRefused? <==> ch == 0)
  {
    var rest := Attempts(s, ch, again) + if ch != 0 then [Paired(ch, fd, conn)] else [];
    Assoc(log, [Opened(fd, conn, Client)], rest);
    Assoc([Opened(fd, conn, Client)], Attempts(s, ch, again), if ch != 0 then [Paired(ch, fd, conn)] else []);
    assert ([Opened(fd, conn, Client)] + rest)[0] == Opened(fd, conn, Client);
  }

  /** handle_new_client_connections */
  method HandleNewClient(connection: Session, fdmax: int, master: set<int>)
    returns (rc: int, fdmax': int, master': set<int>, ghost work: seq<Event>)
    requires connection.Valid() && Balanced(connection.world.mon)
    requires connection.localsocket != INVALID && connection.sshsession != 0
    requires MasterOk(connection.V(), master, fdmax)
    modifies connection.Repr
    ensures connection.Valid() && fresh(connection.Repr - old(connection.Repr))
    ensures connection.V() == old(connection.V()).(chans := connection.chans)
    ensures rc == SUCCESS || rc == ERROR || rc == CHANNEL_CREATION_ERROR
    ensures rc != SUCCESS ==> connection.chans == old(connection.chans)
    ensures rc == ERROR <==> connection.world.log == old(connection.world.log) + [NotOpened(Client)]
    ensures rc == CHANNEL_CREATION_ERROR <==>
              var log := connection.world.log;
              |log| > |old(connection.world.log)| && log[|log| - 1].ChannelRefused?
    ensures rc == SUCCESS ==>
              && |connection.chans| == |old(connection.chans)| + 1 && old(connection.chans) < connection.chans
              && connection.chans[|old(connection.chans)|].socket !in old(connection.world.mon).open
              && MasterOk(connection.V(), master', fdmax')
              && (connection.localsocket in master' <==> connection.localsocket in master)
              && Sockets(old(connection.chans)) <= Sockets(connection.chans)
    ensures fdmax <= fdmax'
    ensures Balanced(connection.world.mon)
    ensures KeepsSockets(old(connection.world.mon), connection.world.mon, connection.localsocket)
    ensures SameLoop(old(connection.world.mon), connection.world.mon)
    ensures connection.world.selectsLeft == old(connection.world.selectsLeft)
    ensures connection.world.log == old(connection.world.log) + work && ListenerAnswer(work, rc)
  {
    hide MonitorOk, Holds, MasterOk, Balanced, Sockets, JoinAnswer, Attempts, AttemptsOk, Run, Accepted, After;
    var world := connection.world;
    world.Consistent();
    ghost var m, v := world.mon, connection.V();
    var newfd := AcceptClient(world, v);
    if newfd == INVALID {
      return ERROR, fdmax, master, [NotOpened(Client)];
    }
    master' := master + {newfd};
    fdmax' := if newfd > fdmax then newfd else fdmax;
    ghost var log0, again := old(connection.world.log), 0;
    var ch;
    ch, again := JoinClient(connection, newfd);
    work := Joined(newfd, m.nextConn, connection.sshsession, ch, again);
    JoinedAnswer(log0, newfd, m.nextConn, connection.sshsession, ch, again);
    if ch == 0 {
      return CHANNEL_CREATION_ERROR, fdmax', master', work;
    }
    NewMaster(m, v, master, fdmax, Chan(newfd, ch));
    rc := SUCCESS;
  }

  lemma SessionAlive(m: Monitor, v: View)
    requires Holds(m, v) && v.session != 0
    ensures v.session in m.sessions
  {
  }

  // The select loop.

  /** The readiness bits not yet looked at are of sockets that are what they were when
      select reported them, and each is the listener's, the SSH socket's or a channel's. */
  ghost predicate ScanOk(m: Monitor, v: View, ready: set<int>, from: int) {
    forall fd :: fd in ready && from <= fd ==>
      && fd in m.ready && fd in m.open && m.open[fd] == m.ready[fd]
      && (fd == v.local || fd == v.ssh || fd in Sockets(v.chans))
  }

  lemma ScanStep(m: Monitor, m': Monitor, v: View, v': View, ready: set<int>, i: int)
    requires ScanOk(m, v, ready, i) && v' == v.(chans := v'.chans)
    requires KeepsSockets(m, m', i) && Sockets(v.chans) - {i} <= Sockets(v'.chans)
    ensures ScanOk(m', v', ready, i + 1)
  {
  }

  /** Of the sockets reported, exactly those below `from` have been handed out. */
  ghost predicate Progress(m: Monitor, ready: set<int>, from: int) {
    && m.current.None? && m.ready.Keys == ready
    && (forall fd :: fd in m.dispatched ==> fd < from)
    && (forall fd :: fd in ready && fd < from ==> fd in m.dispatched)
  }

  ghost predicate Below(ready: set<int>, fdmax: int) {
    forall fd :: fd in ready ==> fd <= fdmax
  }

  lemma ProgressStep(m: Monitor, m': Monitor, ready: set<int>, i: int)
    requires Progress(m, ready, i) && m'.ready == m.ready
    requires if i in ready then m'.current.None? && m'.dispatched == m.dispatched + [i] else m' == m
    ensures Progress(m', ready, i + 1)
  {
    assert i in ready ==> m'.dispatched[|m.dispatched|] == i;
  }

  lemma ProgressEnd(m: Monitor, ready: set<int>, from: int, fdmax: int)
    requires Progress(m, ready, from) && Below(ready, fdmax) && fdmax < from
    ensures ScanDone(m)
  {
  }

  /** After a successful select every reported bit is good. */
  lemma ScanStart(m: Monitor, v: View, master: set<int>, fdmax: int, ready: set<int>)
    requires MonitorOk(m) && SelectOk(m, master, fdmax) && MasterOk(v, master, fdmax) && ready <= master
    ensures ScanOk(Reported(m, ready), v, ready, 0) && Progress(Reported(m, ready), ready, 0) && Below(ready, fdmax)
  {
    forall fd | fd in ready ensures 0 <= fd && fd in m.open
        && (fd == v.local || fd == v.ssh || fd in Sockets(v.chans)) {
      assert fd in master;
    }
  }

  /** A bit that is set may be dispatched; a client's belongs to a channel. */
  lemma ScanDispatch(m: Monitor, v: View, ready: set<int>, i: int)
    requires MonitorOk(m) && Holds(m, v) && ScanOk(m, v, ready, i) && Progress(m, ready, i) && i in ready
    ensures CanDispatch(m, i) && ScanOk(Handed(m, i), v, ready, i)
    ensures i in m.open && Handed(m, i).current.Some?
    ensures
      var d := Handed(m, i).current.value;
      && d.fd == i && d.sock == m.open[i] && d.order == Handles(v.chans)
      && if i == v.local then d.sock.kind.Listener? else if i == v.ssh then d.sock.kind.Ssh?
         else i in Sockets(v.chans) && d.sock.kind.Client? && ChannelIs(v.chans, i, d.ch)
  {
    forall k | 0 <= k < |v.chans| && v.chans[k].socket == i
      ensures v.chans[k].handle == ChannelOf(m, m.open[i].conn) {
      assert ChanOk(m, v.chans[k]);
    }
    if i != v.local && i != v.ssh {
      assert i in Sockets(v.chans);
      var k :| 0 <= k < |v.chans| && v.chans[k].socket == i;
      assert ChanOk(m, v.chans[k]);
    }
    if m.open[i].kind.Client? {
      ServedIffHeld(m, v, i);
    }
  }

  lemma HoldsBookkeeping(m: Monitor, v: View, rc: int, ready: set<int>)
    requires Holds(m, v)
    ensures Holds(Finished(m, rc), v) && Holds(Reported(m, ready), v) && Holds(Begun(m), v) && Holds(Broken(m), v)
    ensures Balanced(m) ==> Balanced(Finished(m, rc)) && Balanced(Reported(m, ready)) && Balanced(Broken(m))
    ensures ScanDone(m) ==> ScanDone(Broken(m))
  {
    assert Balanced(m) ==> Balanced(Finished(m, rc)) && Balanced(Reported(m, ready)) && Balanced(Broken(m));
    hide Holds, Balanced;
    HoldsSame(m, Finished(m, rc), v);
    HoldsSame(m, Reported(m, ready), v);
    HoldsSame(m, Begun(m), v);
    HoldsSame(m, Broken(m), v);
  }

  lemma HandedHolds(m: Monitor, v: View, fd: int)
    requires Holds(m, v) && Balanced(m)
    ensures Holds(Handed(m, fd), v) && Balanced(Handed(m, fd))
  {
  }

  ghost predicate Running(connection: Session)
    reads connection, connection.Repr
  {
    && connection.Valid() && connection.localsocket != INVALID && connection.sshsession != 0
  }

  /** A ready socket goes to its handler.  `work` is what the handler did: all that a dispatch
      of this socket owes, and `rc` is the result that decides. */
  method CallHandler(connection: Session, i: int, fdmax: int, master: set<int>, ghost ready: set<int>)
    returns (rc: int, fdmax': int, master': set<int>, ghost work: seq<Event>)
    requires Running(connection) && Balanced(connection.world.mon)
    requires MasterOk(connection.V(), master, fdmax)
    requires i in ready && ScanOk(connection.world.mon, connection.V(), ready, i)
    requires Progress(connection.world.mon, ready, i)
    modifies connection.Repr
    ensures Running(connection) && fresh(connection.Repr - old(connection.Repr))
    ensures connection.V() == old(connection.V()).(chans := connection.chans)
    ensures rc == SUCCESS || rc == ERROR || rc == AGAIN || rc == CHANNEL_CREATION_ERROR
    ensures rc == AGAIN ==> i == connection.sshsocket
    ensures rc == SUCCESS || rc == AGAIN ==>
              && Balanced(connection.world.mon) && MasterOk(connection.V(), master', fdmax')
              && ScanOk(connection.world.mon, connection.V(), ready, i + 1)
              && (connection.localsocket in master' <==> connection.localsocket in master && connection.chans != [])
    ensures fdmax <= fdmax' && (i != connection.localsocket ==> fdmax' == fdmax)
    ensures SameLoop(Handed(old(connection.world.mon), i), connection.world.mon)
    ensures connection.world.selectsLeft == old(connection.world.selectsLeft)
    ensures connection.world.log == old(connection.world.log) + [Dispatching(i)] + work
    ensures connection.world.mon.current.Some? && Answered(connection.world.mon.current.value, work, rc)
  {
    hide MonitorOk, Holds, MasterOk, ScanOk, CanDispatch, Progress, Balanced, ClientAnswer, ListenerAnswer, SshAnswer;
    hide Handles, ChannelIs;
    var world := connection.world;
    ghost var m, v := world.mon, connection.V();
    world.Consistent();
    ScanDispatch(m, v, ready, i);
    HandedHolds(m, v, i);
    world.Dispatch(i);
    m := world.mon;
    ghost var d := m.current.value;
    master', fdmax' := master, fdmax;
    if i == connection.localsocket {
      rc, fdmax', master', work := HandleNewClient(connection, fdmax, master);
    } else if i == connection.sshsocket {
      rc, master', work := HandleSsh(connection, master, fdmax, d);
    } else {
      assert i in Sockets(connection.chans);  // so the no-channel branch is not taken
      ghost var nbytes;
      rc, master', nbytes, work := HandleClient(connection, i, master, fdmax, d);
    }
    if rc == SUCCESS || rc == AGAIN {
      ScanStep(m, world.mon, v, connection.V(), ready, i);
    }
  }

  /** The body of the scan for one ready socket: the handler and the error counter. */
  method DispatchOne(connection: Session, i: int, fdmax: int, master: set<int>, errors: nat, ghost ready: set<int>)
    returns (rc: int, fdmax': int, master': set<int>, errors': nat)
    requires Running(connection) && Balanced(connection.world.mon)
    requires MasterOk(connection.V(), master, fdmax)
    requires i in ready && ScanOk(connection.world.mon, connection.V(), ready, i)
    requires Progress(connection.world.mon, ready, i)
    requires errors == connection.world.mon.agains && (i == connection.sshsocket ==> errors < MAX_ERRORS)
    requires connection.localsocket in master <==> !connection.world.mon.idle
    modifies connection.Repr
    ensures Running(connection) && fresh(connection.Repr - old(connection.Repr))
    ensures connection.V() == old(connection.V()).(chans := connection.chans)
    ensures rc == SUCCESS || rc == ERROR || rc == AGAIN || rc == CHANNEL_CREATION_ERROR
    ensures rc == AGAIN ==> i == connection.sshsocket
    ensures rc == SUCCESS || rc == AGAIN ==>
              && Balanced(connection.world.mon) && MasterOk(connection.V(), master', fdmax')
              && ScanOk(connection.world.mon, connection.V(), ready, i + 1)
              && (connection.localsocket in master' <==> !connection.world.mon.idle)
    ensures |connection.world.log| > |old(connection.world.log)|
    ensures connection.world.log[|connection.world.log| - 1] == Dispatched(rc)
    ensures Progress(connection.world.mon, ready, i + 1)
    ensures fdmax <= fdmax' && (i != connection.localsocket ==> fdmax' == fdmax)
    ensures errors' == connection.world.mon.agains == (if rc == AGAIN then errors + 1 else 0)
    ensures connection.world.mon.lastRc == rc
    ensures connection.world.selectsLeft == old(connection.world.selectsLeft)
    ensures old(connection.world.log) <= connection.world.log
  {
    hide MonitorOk, Holds, MasterOk, Progress, Balanced, ScanOk, Answered, Run, Accepted, After;
    ghost var m, log0, work := connection.world.mon, connection.world.log, [];
    rc, fdmax', master', work := CallHandler(connection, i, fdmax, master, ready);
    AnsweredPlain(connection.world.mon.current.value, work, rc);
    WorkIs(log0, i, work);
    errors' := if rc == AGAIN then errors + 1 else 0;
    BookResult(connection, rc, ready, i + 1);
    ProgressStep(m, connection.world.mon, ready, i);
  }

  /** The outcome of a dispatch enters the log. */
  method BookResult(connection: Session, rc: int, ghost ready: set<int>, ghost from: int)
    requires Running(connection) && (rc == AGAIN ==> connection.world.mon.agains < MAX_ERRORS)
    requires connection.world.mon.current.Some?
    requires Answered(connection.world.mon.current.value, Work(connection.world.log), rc)
    modifies connection.world`mon, connection.world`log
    ensures Running(connection) && connection.world.mon == Finished(old(connection.world.mon), rc)
    ensures connection.world.log == old(connection.world.log) + [Dispatched(rc)]
    ensures Balanced(old(connection.world.mon)) ==> Balanced(connection.world.mon)
    ensures ScanOk(old(connection.world.mon), connection.V(), ready, from) ==>
              ScanOk(connection.world.mon, connection.V(), ready, from)
    ensures connection.world.mon.idle <==> old(connection.world.mon).idle || connection.chans == []
  {
    hide MonitorOk, Holds, Balanced, ScanOk, Answered, Work, Run, Accepted, After, ScanDone;
    FinishedKeeps(connection.world.mon, connection.V(), ready, from, rc);
    connection.world.Finish(rc);
  }

  /** One pass over the descriptors after a select.  `rc` is SUCCESS when the loop goes on. */
  method Scan(connection: Session, fdmax: int, master: set<int>, errors: nat, ready: set<int>)
    returns (rc: int, fdmax': int, master': set<int>, errors': nat)
    requires Running(connection) && Balanced(connection.world.mon)
    requires MasterOk(connection.V(), master, fdmax)
    requires ScanOk(connection.world.mon, connection.V(), ready, 0)
    requires Progress(connection.world.mon, ready, 0) && Below(ready, fdmax)
    requires errors == connection.world.mon.agains && errors < MAX_ERRORS
    requires connection.localsocket in master <==> !connection.world.mon.idle
    requires connection.world.mon.lastRc == SUCCESS || connection.world.mon.lastRc == AGAIN
    modifies connection.Repr
    ensures Running(connection) && fresh(connection.Repr - old(connection.Repr))
    ensures connection.V() == old(connection.V()).(chans := connection.chans)
    ensures rc == SUCCESS || rc == ERROR || rc == CHANNEL_CREATION_ERROR
    ensures rc != SUCCESS ==> connection.world.mon.lastRc == rc && connection.world.mon.agains == 0
    ensures rc != SUCCESS ==>
              |connection.world.log| > |old(connection.world.log)|
              && connection.world.log[|connection.world.log| - 1] == Dispatched(rc)
    ensures rc == SUCCESS ==>
              && Balanced(connection.world.mon) && MasterOk(connection.V(), master', fdmax')
              && ScanDone(connection.world.mon)
              && errors' == connection.world.mon.agains <= MAX_ERRORS
              && (connection.localsocket in master' <==> !connection.world.mon.idle)
              && (connection.world.mon.lastRc == SUCCESS || connection.world.mon.lastRc == AGAIN)
    ensures connection.world.selectsLeft == old(connection.world.selectsLeft)
    ensures old(connection.world.log) <= connection.world.log
  {
    hide MonitorOk, Holds, MasterOk, ScanOk, Balanced, Progress, ScanDone, Run, Accepted, After;
    fdmax', master', errors' := fdmax, master, errors;
    var isocket := 0;
    while isocket <= fdmax'
      invariant 0 <= isocket
      invariant Running(connection) && fresh(connection.Repr - old(connection.Repr))
      invariant connection.V() == old(connection.V()).(chans := connection.chans)
      invariant Balanced(connection.world.mon) && MasterOk(connection.V(), master', fdmax')
      invariant ScanOk(connection.world.mon, connection.V(), ready, isocket)
      invariant Progress(connection.world.mon, ready, isocket) && Below(ready, fdmax')
      invariant errors' == connection.world.mon.agains <= MAX_ERRORS
      invariant isocket <= connection.sshsocket ==> errors' < MAX_ERRORS
      invariant connection.localsocket in master' <==> !connection.world.mon.idle
      invariant connection.world.mon.lastRc == SUCCESS || connection.world.mon.lastRc == AGAIN
      invariant connection.world.selectsLeft == old(connection.world.selectsLeft)
      invariant old(connection.world.log) <= connection.world.log
      decreases isocket <= connection.localsocket, fdmax' - isocket
    {
      if isocket in ready {
        rc, fdmax', master', errors' := DispatchOne(connection, isocket, fdmax', master', errors', ready);
        if rc == ERROR || rc == CHANNEL_CREATION_ERROR {
          return;
        }
      } else {
        ScanWeaken(connection.world.mon, connection.V(), ready, isocket);
        ProgressStep(connection.world.mon, connection.world.mon, ready, isocket);
      }
      isocket := isocket + 1;
    }
    ProgressEnd(connection.world.mon, ready, isocket, fdmax');
    rc := SUCCESS;
  }

  lemma FinishedKeeps(m: Monitor, v: View, ready: set<int>, i: int, rc: int)
    requires Holds(m, v)
    ensures Holds(Finished(m, rc), v) && (Balanced(m) ==> Balanced(Finished(m, rc)))
    ensures ScanOk(m, v, ready, i) ==> ScanOk(Finished(m, rc), v, ready, i)
    ensures Finished(m, rc).idle <==> m.idle || v.chans == []
  {
    LiveIffChans(m, v);
    HoldsSame(m, Finished(m, rc), v);
  }

  lemma ScanWeaken(m: Monitor, v: View, ready: set<int>, i: int)
    requires ScanOk(m, v, ready, i)
    ensures ScanOk(m, v, ready, i + 1)
  {
  }

  lemma NoChannelsAtStart(m: Monitor, v: View)
    requires MonitorOk(m) && Holds(m, v) && v.chans == [] && v.session != 0
    ensures m.live == map[] && Balanced(Begun(m)) && v.ssh != INVALID
  {
    assert forall ch :: ch in m.live ==> Holder(v.chans, ch);
    assert m.live.Keys == {};
  }

  /** One round of the loop: select, then a scan unless select failed. */
  method Round(connection: Session, fdmax: int, master: set<int>, errors: nat)
    returns (ok: bool, rc: int, fdmax': int, master': set<int>, errors': nat)
    requires Running(connection) && Balanced(connection.world.mon) && ScanDone(connection.world.mon)
    requires MasterOk(connection.V(), master, fdmax) && connection.localsocket in master
    requires errors == connection.world.mon.agains && errors < MAX_ERRORS
    requires connection.localsocket in master <==> !connection.world.mon.idle
    requires connection.world.mon.lastRc == SUCCESS || connection.world.mon.lastRc == AGAIN
    modifies connection.Repr
    ensures Running(connection) && fresh(connection.Repr - old(connection.Repr))
    ensures connection.V() == old(connection.V()).(chans := connection.chans)
    ensures rc == SUCCESS || rc == ERROR || rc == CHANNEL_CREATION_ERROR
    ensures rc != SUCCESS ==> ok && connection.world.mon.lastRc == rc && connection.world.mon.agains == 0
    ensures rc != SUCCESS ==>
              |connection.world.log| > |old(connection.world.log)|
              && connection.world.log[|connection.world.log| - 1] == Dispatched(rc)
    ensures rc == SUCCESS ==>
              && Balanced(connection.world.mon) && MasterOk(connection.V(), master', fdmax')
              && ScanDone(connection.world.mon)
              && errors' == connection.world.mon.agains <= MAX_ERRORS
              && (connection.localsocket in master' <==> !connection.world.mon.idle)
              && (connection.world.mon.lastRc == SUCCESS || connection.world.mon.lastRc == AGAIN)
    ensures !ok ==> connection.world.mon.broken && errors' == errors
    ensures !ok ==> connection.world.log == old(connection.world.log) + [SelectFailed(master, fdmax)]
    ensures ok ==> connection.world.selectsLeft < old(connection.world.selectsLeft)
    ensures !ok ==> connection.world.selectsLeft == old(connection.world.selectsLeft)
    ensures old(connection.world.log) <= connection.world.log
  {
    hide MonitorOk, Holds, Balanced, ScanOk, SelectOk, Progress, Below, MasterOk, ScanDone, Run, Accepted, After;
    var world := connection.world;
    ghost var m, v := world.mon, connection.V();
    world.Consistent();
    SelectOkHere(m, v, master, fdmax);
    var ready;
    ok, ready := world.Select(master, fdmax);
    HoldsBookkeeping(m, v, 0, ready);
    if !ok {
      return false, SUCCESS, fdmax, master, errors;
    }
    ScanStart(m, v, master, fdmax, ready);
    rc, fdmax', master', errors' := Scan(connection, fdmax, master, errors, ready);
  }

  /** The part of rbm_open_tunnel before its loop. */
  method StartLoop(connection: Session) returns (master: set<int>, fdmax: int)
    requires Running(connection) && connection.chans == []
    modifies connection.world`mon, connection.world`log
    ensures Running(connection) && Balanced(connection.world.mon) && ScanDone(connection.world.mon)
    ensures MasterOk(connection.V(), master, fdmax) && master == {connection.localsocket, connection.sshsocket}
    ensures connection.world.mon.agains == 0 && connection.world.mon.lastRc == SUCCESS && !connection.world.mon.idle
    ensures connection.world.log == old(connection.world.log) + [TunnelStart]
  {
    hide MonitorOk, Holds, Balanced, Run, Accepted, After;
    var world := connection.world;
    world.Consistent();
    NoChannelsAtStart(world.mon, connection.V());
    HoldsBookkeeping(world.mon, connection.V(), 0, {});
    world.Begin();
    master := {connection.localsocket, connection.sshsocket};
    fdmax := if connection.localsocket > connection.sshsocket then connection.localsocket else connection.sshsocket;
  }

  /** rbm_open_tunnel.  The result is decided by the last dispatch and by the run of
      EAGAIN dispatches it ended with; on SUCCESS the session has been closed. */
  method OpenTunnel(connection: Session) returns (rc: int)
    requires Running(connection) && connection.chans == []
    modifies connection.Repr
    ensures fresh(connection.Repr - old(connection.Repr)) && connection.world.Valid()
    ensures rc == SUCCESS || rc == ERROR || rc == CHANNEL_CREATION_ERROR
    ensures rc == ERROR <==>
              connection.world.mon.lastRc == ERROR || connection.world.mon.agains == 25
    ensures rc == CHANNEL_CREATION_ERROR <==> connection.world.mon.lastRc == CHANNEL_CREATION_ERROR
    ensures rc == SUCCESS ==> connection.closes == 1 && Released(connection.world.mon)
    ensures rc == SUCCESS ==> connection.world.mon.idle || connection.world.mon.broken
    ensures rc == CHANNEL_CREATION_ERROR ==> FailedSince(connection.world.log, |old(connection.world.log)|)
    ensures rc != SUCCESS ==>
              Running(connection) && connection.localsocket == old(connection.localsocket)
    ensures rc == ERROR ==> connection.world.selectsLeft < old(connection.world.selectsLeft)
    ensures old(connection.world.log) <= connection.world.log
  {
    hide MonitorOk, Holds, Balanced, ScanOk, SelectOk, Progress, Below, MasterOk, ScanDone, Run, Accepted, After;
    var world := connection.world;
    var errors := 0;
    var master, fdmax := StartLoop(connection);
    while errors < MAX_ERRORS
      invariant Running(connection) && fresh(connection.Repr - old(connection.Repr))
      invariant connection.V() == old(connection.V()).(chans := connection.chans)
      invariant Balanced(world.mon) && ScanDone(world.mon) && MasterOk(connection.V(), master, fdmax)
      invariant errors == world.mon.agains <= MAX_ERRORS
      invariant connection.localsocket in master <==> !world.mon.idle
      invariant world.mon.lastRc == SUCCESS || world.mon.lastRc == AGAIN
      invariant world.selectsLeft <= old(world.selectsLeft)
      invariant errors > 0 ==> world.selectsLeft < old(world.selectsLeft)
      invariant old(world.log) <= world.log
      decreases world.selectsLeft
    {
      if connection.localsocket !in master {
        break;
      }
      var ok;
      ok, rc, fdmax, master, errors := Round(connection, fdmax, master, errors);
      if !ok {
        break;
      }
      if rc != SUCCESS {
        return;
      }
    }
    if errors >= MAX_ERRORS {
      return ERROR;
    }
    connection.SessionClose();
    rc := SUCCESS;
  }

  /** rbm_ssh_open_tunnel: reopen the tunnel after an error until it ends in order, a
      channel cannot be created, or the reconnect fails. */
  method KeepTunnelOpen(connection: Session) returns (rc: int)
    requires Running(connection) && connection.chans == []
    modifies connection.Repr
    ensures fresh(connection.Repr - old(connection.Repr)) && connection.world.Valid()
    ensures rc == SUCCESS || rc == ERROR
    ensures rc == SUCCESS ==> connection.closes == 1 && Released(connection.world.mon)
    ensures rc == SUCCESS ==> connection.world.mon.idle || connection.world.mon.broken
    ensures rc == ERROR ==> connection.Valid() && FailedSince(connection.world.log, |old(connection.world.log)|)
    ensures old(connection.world.log) <= connection.world.log
  {
    hide MonitorOk, Holds;
    while true
      invariant Running(connection) && connection.chans == []
      invariant fresh(connection.Repr - old(connection.Repr))
      invariant old(connection.world.log) <= connection.world.log
      decreases connection.world.selectsLeft
    {
      rc := OpenTunnel(connection);
      if rc == SUCCESS {
        return;
      }
      if rc == CHANNEL_CREATION_ERROR {
        return ERROR;
      }
      connection.Cleanup();
      rc := connection.SshSetup();
      if rc == ERROR {
        return;
      }
    }
  }
}
