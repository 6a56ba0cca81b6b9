/**
 The events of a tunnel, and what a dispatch owes: which calls it has to make and which
 result those calls decide.
 */
module TunnelEvents {
  import opened Wrappers

  type Byte = bv8

  datatype Kind = Listener | Ssh | Client

  /** An open socket: `conn` numbers the connection behind the descriptor, so that
      two connections that reuse one descriptor number are told apart. */
  datatype Sock = Sock(conn: nat, kind: Kind)

  datatype Event =
    | Opened(fd: int, conn: nat, kind: Kind)
    | NotOpened(kind: Kind)
    | Closed(fd: int, conn: nat)
    | SessionUp(s: nat, fd: int)
    | SessionFailed(fd: int)
    | SessionFreed(s: nat)
    | ChannelUp(ch: nat, s: nat)
    | ChannelRefused(s: nat, again: bool)
    | ChannelFreed(ch: nat)
    | Paired(ch: nat, fd: int, conn: nat)
    | Received(fd: int, conn: nat, data: seq<Byte>)
    | ClientGone(fd: int, conn: nat, failed: bool)
    | Written(ch: nat, data: seq<Byte>)
    | WriteAgain(ch: nat)
    | WriteFailed(ch: nat)
    | Read(ch: nat, data: seq<Byte>)
    | ReadAgain(ch: nat)
    | ReadFailed(ch: nat)
    | EofAsked(ch: nat, eof: bool)
    | Sent(fd: int, conn: nat, data: seq<Byte>)
    | SendFailed(fd: int, conn: nat)
    | TunnelStart
    | Selected(master: set<int>, fdmax: int, ready: set<int>)
    | SelectFailed(master: set<int>, fdmax: int)
    | Dispatching(fd: int)
    | Dispatched(rc: int)

  const AGAIN := -2
  const MAX_ERRORS := 25

  const CHANNEL_CREATION_ERROR := -10

  // A dispatch on the SSH socket.

  /** The result a dispatch on the SSH socket ends with, read off its events: the last
      failed send or read makes it an error, the last end of stream a success again. */
  function Verdict(events: seq<Event>, start: int): int {
    if events == [] then start
    else
      var e := events[|events| - 1];
      if e.SendFailed? || e.ReadFailed? then ERROR
      else if e.EofAsked? && e.eof then SUCCESS
      else Verdict(events[..|events| - 1], start)
  }

  lemma {:induction false} VerdictConcat(a: seq<Event>, b: seq<Event>, start: int)
    ensures Verdict(a + b, start) == Verdict(b, Verdict(a, start))
  {
    if b == [] {
      assert a + b == a;
    } else {
      assert (a + b)[..|a + b| - 1] == a + b[..|b| - 1];
      VerdictConcat(a, b[..|b| - 1], start);
    }
  }

  lemma VerdictSnoc(a: seq<Event>, e: Event, start: int)
    ensures Verdict(a + [e], start) ==
              if e.SendFailed? || e.ReadFailed? then ERROR
              else if e.EofAsked? && e.eof then SUCCESS else Verdict(a, start)
  {
    assert (a + [e])[..|a|] == a;
  }

  predicate Fails(e: Event) {
    e.SendFailed? || e.ReadFailed?
  }

  predicate SeesEnd(e: Event) {
    e.EofAsked? && e.eof
  }

  /** A failure at k that no later end of a stream, of whatever channel, covers up. */
  predicate FailsForGood(events: seq<Event>, k: nat) {
    k < |events| && Fails(events[k]) && forall j :: k < j < |events| ==> !SeesEnd(events[j])
  }

  /** A dispatch ends as an error exactly when some send or read failed and no channel came
      to the end of its stream after that. */
  lemma {:induction false} ErrorIff(events: seq<Event>)
    ensures Verdict(events, SUCCESS) == ERROR <==> exists k :: FailsForGood(events, k)
  {
    if events == [] {
    } else {
      var n := |events| - 1;
      var before := events[..n];
      ErrorIff(before);
      if Fails(events[n]) {
        assert FailsForGood(events, n);
      } else if exists k :: FailsForGood(before, k) {
        var k :| FailsForGood(before, k);
        assert SeesEnd(events[n]) || FailsForGood(events, k);
      }
      if exists k :: FailsForGood(events, k) {
        var k :| FailsForGood(events, k);
        assert k == n || FailsForGood(before, k);
      }
    }
  }

  /** The answers after which a channel is not read again in the same dispatch. */
  predicate Stops(e: Event) {
    e.ReadAgain? || e.ReadFailed? || (e.EofAsked? && e.eof)
  }

  predicate Ended(events: seq<Event>) {
    events != [] && Stops(events[|events| - 1])
  }

  predicate Failed(events: seq<Event>) {
    events != [] && events[|events| - 1].ReadFailed?
  }

  /** The channels that were read until such an answer, in order. */
  function Stopped(events: seq<Event>): seq<nat> {
    if events == [] then []
    else
      var e := events[|events| - 1];
      Stopped(events[..|events| - 1]) + if Stops(e) then [e.ch] else []
  }

  lemma {:induction false} StoppedConcat(a: seq<Event>, b: seq<Event>)
    ensures Stopped(a + b) == Stopped(a) + Stopped(b) && (Pumps(a) && Pumps(b) ==> Pumps(a + b))
    ensures b != [] ==> Ended(a + b) == Ended(b) && Failed(a + b) == Failed(b)
  {
    if b == [] {
      assert a + b == a;
    } else {
      assert (a + b)[..|a + b| - 1] == a + b[..|b| - 1];
      StoppedConcat(a, b[..|b| - 1]);
    }
  }

  lemma StoppedSnoc(a: seq<Event>, e: Event)
    ensures Stopped(a + [e]) == Stopped(a) + if Stops(e) then [e.ch] else []
    ensures Ended(a + [e]) == Stops(e) && Failed(a + [e]) == e.ReadFailed?
    ensures Pumps(a) && IsPump(e) ==> Pumps(a + [e])
  {
    assert (a + [e])[..|a|] == a;
  }

  lemma VerdictOfNone(start: int)
    ensures Verdict([], start) == start && Stopped([]) == [] && Pumps([])
  {
  }

  lemma {:induction false} VerdictRange(events: seq<Event>, start: int)
    ensures Verdict(events, start) == start || Verdict(events, start) == SUCCESS || Verdict(events, start) == ERROR
  {
    if events == [] {
    } else {
      VerdictRange(events[..|events| - 1], start);
    }
  }

  /** The calls a pump consists of. */
  predicate IsPump(e: Event) {
    e.Read? || e.ReadAgain? || e.ReadFailed? || e.EofAsked? || e.Sent? || e.SendFailed?
  }

  predicate Pumps(events: seq<Event>) {
    forall i :: 0 <= i < |events| ==> IsPump(events[i])
  }

  /** The reads of a dispatch that found every channel empty. */
  function AllAgain(order: seq<nat>): seq<Event> {
    seq(|order|, i requires 0 <= i < |order| => ReadAgain(order[i]))
  }

  // A dispatch on a client.

  /** How often a write was put off. */
  function Agains(events: seq<Event>): nat {
    if events == [] then 0
    else Agains(events[..|events| - 1]) + if events[|events| - 1].WriteAgain? then 1 else 0
  }

  /** The last call failed, or was the 101st to be put off. */
  predicate GaveUp(events: seq<Event>) {
    Agains(events) == 101 || (events != [] && events[|events| - 1].WriteFailed?)
  }

  lemma AgainsOfNone(ch: nat)
    ensures Agains([]) == 0 && !GaveUp([]) && Writes([], ch)
  {
  }

  lemma AgainsSnoc(events: seq<Event>, e: Event)
    ensures Agains(events + [e]) == Agains(events) + if e.WriteAgain? then 1 else 0
    ensures GaveUp(events + [e]) <==> Agains(events + [e]) == 101 || e.WriteFailed?
    ensures forall ch :: Writes(events, ch) && IsWrite(e, ch) ==> Writes(events + [e], ch)
  {
    assert (events + [e])[..|events|] == events;
  }

  predicate IsWrite(e: Event, ch: nat) {
    (e.Written? || e.WriteAgain? || e.WriteFailed?) && e.ch == ch
  }

  predicate Writes(events: seq<Event>, ch: nat) {
    forall i :: 0 <= i < |events| ==> IsWrite(events[i], ch)
  }

  // A dispatch on the listener.

  function Refusals(s: nat, n: nat): seq<Event> {
    seq(n, _ => ChannelRefused(s, true))
  }

  /** `again` refusals to try later, then a channel, a final refusal or the last attempt. */
  function Attempts(s: nat, ch: nat, again: nat): seq<Event> {
    Refusals(s, again)
    + if ch != 0 then [ChannelUp(ch, s)] else if again < 25 then [ChannelRefused(s, false)] else []
  }

  predicate AttemptsOk(ch: nat, again: nat) {
    again <= 25 && (ch != 0 ==> again < 25)
  }

  // What is owed.

  /** A socket handed to a handler: what it was then, the channel that served it, if any,
      and the paired channels in the order of pairing. */
  datatype Dispatch = Dispatch(fd: int, sock: Sock, ch: nat, order: seq<nat>)

  /** A client: one receive.  Without bytes its socket is closed, then its channel freed, and
      the answer is an error exactly when the receive failed.  Bytes are written to its
      channel, and the answer is an error exactly when the writing gave up. */
  predicate ClientAnswer(d: Dispatch, work: seq<Event>, rc: int) {
    && work != []
    && match work[0]
       case ClientGone(fd, conn, failed) =>
         && fd == d.fd && conn == d.sock.conn
         && work[1..] == [Closed(fd, conn), ChannelFreed(d.ch)]
         && rc == if failed then ERROR else SUCCESS
       case Received(fd, conn, _) =>
         && fd == d.fd && conn == d.sock.conn && Writes(work[1..], d.ch)
         && rc == if GaveUp(work[1..]) then ERROR else SUCCESS
       case _ => false
  }

  predicate JoinAnswer(work: seq<Event>, rc: int, fd: int, conn: nat, s: nat, ch: nat, again: nat) {
    && AttemptsOk(ch, again)
    && work == [Opened(fd, conn, Client)] + Attempts(s, ch, again) + (if ch != 0 then [Paired(ch, fd, conn)] else [])
    && rc == if ch != 0 then SUCCESS else CHANNEL_CREATION_ERROR
  }

  /** The listener: one accept.  An accepted client gets a channel, or none after the attempts
      it is entitled to. */
  ghost predicate ListenerAnswer(work: seq<Event>, rc: int) {
    || (work == [NotOpened(Client)] && rc == ERROR)
    || exists fd, conn, s, ch, again :: JoinAnswer(work, rc, fd, conn, s, ch, again)
  }

  /** The SSH socket: every channel is read, in the order of pairing, to the answer it stops
      with, or up to a failed read. */
  predicate SshAnswer(d: Dispatch, work: seq<Event>, rc: int) {
    if d.order == [] then work == [] && rc == SUCCESS
    else
      && Pumps(work) && Stopped(work) <= d.order && (Stopped(work) == d.order || Failed(work))
      && rc == if work == AllAgain(d.order) then AGAIN else Verdict(work, SUCCESS)
  }

  ghost predicate Answered(d: Dispatch, work: seq<Event>, rc: int) {
    match d.sock.kind
    case Client => ClientAnswer(d, work, rc)
    case Listener => ListenerAnswer(work, rc)
    case Ssh => SshAnswer(d, work, rc)
  }

  lemma GoneAnswer(d: Dispatch, failed: bool)
    ensures ClientAnswer(d, [ClientGone(d.fd, d.sock.conn, failed)] + [Closed(d.fd, d.sock.conn), ChannelFreed(d.ch)],
                         if failed then ERROR else SUCCESS)
  {
    var closing := [Closed(d.fd, d.sock.conn), ChannelFreed(d.ch)];
    assert ([ClientGone(d.fd, d.sock.conn, failed)] + closing)[1..] == closing;
  }

  lemma ReceivedAnswer(d: Dispatch, data: seq<Byte>, events: seq<Event>)
    requires Writes(events, d.ch)
    ensures ClientAnswer(d, [Received(d.fd, d.sock.conn, data)] + events, if GaveUp(events) then ERROR else SUCCESS)
  {
    assert ([Received(d.fd, d.sock.conn, data)] + events)[1..] == events;
  }

  /** No handler hands out a socket. */
  lemma AnsweredPlain(d: Dispatch, work: seq<Event>, rc: int)
    requires Answered(d, work, rc)
    ensures forall i :: 0 <= i < |work| ==> !work[i].Dispatching?
  {
    match d.sock.kind
    case Client =>
      forall i | 0 < i < |work| ensures !work[i].Dispatching? {
        assert work[i] == work[1..][i - 1];
      }
    case Listener =>
    case Ssh =>
  }

  /** The events since a socket was last handed out. */
  function Work(log: seq<Event>): seq<Event> {
    if log == [] || log[|log| - 1].Dispatching? then [] else Work(log[..|log| - 1]) + [log[|log| - 1]]
  }

  lemma {:induction false} WorkIs(log: seq<Event>, fd: int, work: seq<Event>)
    requires forall i :: 0 <= i < |work| ==> !work[i].Dispatching?
    ensures Work(log + [Dispatching(fd)] + work) == work
  {
    var all := log + [Dispatching(fd)] + work;
    if work == [] {
      assert all[|all| - 1] == Dispatching(fd);
    } else {
      var rest := work[..|work| - 1];
      assert all[..|all| - 1] == log + [Dispatching(fd)] + rest;
      WorkIs(log, fd, rest);
    }
  }
}
