/**
 SshTunnelWorker: the two request handlers and who closes the session.
 */
module TunnelWorker {
  import opened TunnelTrace
  import opened TunnelEvents
  import opened TunnelWorld
  import opened TunnelState
  import opened TunnelSession
  import opened Wrappers
  import opened TunnelEngine

  datatype Request = Establish | Listen

  datatype Reply = Established | EstablishFailed | ListenFailed

  predicate ValidLogLevel(level: int) {
    level == 1 || level == 2 || level == 3 || level == 100
  }

  /** A session that was closed once and gave everything back. */
  ghost predicate ClosedOnce(s: Session)
    reads s, s.world
  {
    s.closes == 1 && s.world.Valid() && Released(s.world.mon)
  }

  /** rbm_ssh_session_create and rbm_ssh_session_setup, with the cleanup after a failed
      setup. */
  method NewSession() returns (session: Session, ok: bool)
    ensures fresh(session) && fresh(session.world) && fresh(session.Repr)
    ensures if ok then Running(session) && session.chans == []
            else ClosedOnce(session) && FailedSince(session.world.log, 0)
  {
    hide Holds, MonitorOk, FailedSince;
    var selects: nat, fills: nat, stalls: nat := *, *, *;
    var world := new World(selects, fills, stalls);
    session := new Session(world);
    var rc := session.SessionSetup();
    ok := rc == SUCCESS;
    if !ok {
      ghost var log := world.log;
      session.SessionClose();
      FailedStays(log, world.log, 0);
    }
  }

  class Worker {
    const logLevel: int
    var isQuiting: bool
    var sshSession: Session?
    var replies: seq<Reply>
    ghost var created: set<Session>   // every session this worker made
    ghost var lost: set<Session>      // those it forgot while they were open

    /** The worker has an open session and is still at work. */
    predicate Holding()
      reads this
    {
      !isQuiting && sshSession != null
    }

    ghost function Frame(): set<object>
      reads this, sshSession
    {
      if Holding() then sshSession.Repr + {this} else {this}
    }

    ghost predicate Valid()
      reads this, sshSession, Frame(), created, set s | s in created :: s.world
    {
      && lost <= created
      && (Holding() ==>
            && sshSession in created - lost && this !in sshSession.Repr
            && Running(sshSession) && sshSession.chans == []
            && (forall s :: s in created && s != sshSession ==> s !in sshSession.Repr && s.world !in sshSession.Repr))
      && (forall s :: s in created - lost && !(Holding() && s == sshSession) ==> ClosedOnce(s))
    }

    constructor (logLevel: int)
      ensures Valid() && !isQuiting && sshSession == null && created == {} && lost == {} && replies == []
      ensures this.logLevel == logLevel
    {
      this.logLevel := logLevel;
      isQuiting, sshSession, replies := false, null, [];
      created, lost := {}, {};
    }

    /** handle(EstablishSshConnectionRequest).  A session held at this moment is forgotten
        and will never be closed; that is the only way to lose one. */
    method HandleEstablish()
      requires Valid()
      modifies this
      ensures Valid() && fresh(Frame() - {this} - old(Frame()))
      ensures lost == old(lost) + if old(Holding()) then {old(sshSession)} else {}
      ensures fresh(created - old(created))
      ensures old(isQuiting) ==> isQuiting && replies == old(replies) && created == old(created)
      ensures !old(isQuiting) ==>
                if Holding() then replies == old(replies) + [Established]
                else isQuiting && replies == old(replies) + [EstablishFailed]
      ensures !old(isQuiting) ==> (created != old(created) <==> logLevel in {1, 2, 3, 100})
      ensures !old(isQuiting) && !Holding() ==>
                logLevel !in {1, 2, 3, 100} || exists s :: s in created - old(created) && FailedSince(s.world.log, 0)
    {
      hide Running, ClosedOnce;
      if isQuiting {
        return;
      }
      if Holding() {
        lost := lost + {sshSession};
      }
      if !ValidLogLevel(logLevel) {
        sshSession := null;
        replies := replies + [EstablishFailed];
        isQuiting := true;
        return;
      }
      var session, ok := NewSession();
      assert session !in created;
      created := created + {session};
      if !ok {
        sshSession := null;
        replies := replies + [EstablishFailed];
        isQuiting := true;
        return;
      }
      sshSession := session;
      replies := replies + [Established];
    }

    /** handle(ListenSshConnectionRequest) */
    method HandleListen()
      requires Valid()
      modifies Frame()
      ensures Valid() && !Holding()
      ensures created == old(created) && lost == old(lost)
      ensures old(Holding()) ==> isQuiting && ClosedOnce(old(sshSession))
      ensures !old(Holding()) ==>
                isQuiting == old(isQuiting) && replies == old(replies) && sshSession == old(sshSession)
      ensures old(Holding()) ==>
                replies == old(replies) + if sshSession == null then [ListenFailed] else []
      ensures old(Holding()) ==>
                var s := old(sshSession);
                if sshSession == null then FailedSince(s.world.log, |old(sshSession.world.log)|)
                else sshSession == s && (s.world.mon.idle || s.world.mon.broken)
    {
      hide FailedSince, Released, Holds, MonitorOk;
      if isQuiting {
        return;
      }
      if sshSession == null {
        return;
      }
      var session := sshSession;
      var rc := KeepTunnelOpen(session);
      if rc != SUCCESS {
        ghost var log := session.world.log;
        session.SessionClose();
        FailedStays(log, session.world.log, |old(sshSession.world.log)|);
        sshSession := null;
        replies := replies + [ListenFailed];
      }
      isQuiting := true;
    }
  }

  /** At most one of the requests asks for a tunnel. */
  predicate OneEstablish(requests: seq<Request>) {
    forall i, j :: 0 <= i < j < |requests| ==> !(requests[i].Establish? && requests[j].Establish?)
  }

  lemma QuitClosed(worker: Worker)
    requires worker.Valid() && worker.isQuiting && worker.lost == {}
    ensures forall s :: s in worker.created ==> ClosedOnce(s)
  {
  }

  /** After any listens, two requests for a tunnel in a row. */
  predicate AsksTwice(requests: seq<Request>) {
    exists i :: 0 <= i < |requests| - 1 && FirstEstablish(requests, i) && requests[i + 1].Establish?
  }

  predicate FirstEstablish(requests: seq<Request>, i: nat) {
    i < |requests| && requests[i].Establish? && forall j :: 0 <= j < i ==> requests[j].Listen?
  }

  /** What a worker has done with the first n requests, the first tunnel being asked for at
      `first`, if before n. */
  ghost predicate Progressed(worker: Worker, requests: seq<Request>, n: nat, first: nat)
    requires n <= |requests|
    reads worker
  {
    && (n <= first ==>
          && (forall j :: 0 <= j < n ==> requests[j].Listen?)
          && worker.replies == [] && !worker.isQuiting && worker.sshSession == null && worker.lost == {})
    && (first < n ==>
          && FirstEstablish(requests, first) && worker.replies != [] && (worker.Holding() || worker.isQuiting)
          && (worker.replies[0] != Established ==> worker.isQuiting && worker.lost == {}))
    && (n == first + 1 && worker.replies[0] == Established ==> worker.Holding() && worker.lost == {})
    && (first + 1 < n && worker.replies[0] == Established ==>
          if requests[first + 1].Establish? then worker.lost != {} else worker.isQuiting && worker.lost == {})
  }

  lemma LostIff(worker: Worker, requests: seq<Request>, first: nat)
    requires Progressed(worker, requests, |requests|, first)
    ensures worker.lost != {} <==> AsksTwice(requests) && worker.replies != [] && worker.replies[0] == Established
  {
    if AsksTwice(requests) {
      var i :| 0 <= i < |requests| - 1 && FirstEstablish(requests, i) && requests[i + 1].Establish?;
      assert first < |requests| ==> i == first;
    }
    if first + 1 < |requests| && requests[first + 1].Establish? {
      assert AsksTwice(requests);
    }
  }

  /** A worker's whole life: any sequence of requests.  It loses a session exactly when
      its first tunnel came up and the next request was for another; in particular not
      when it is asked for one tunnel.  Otherwise it quits with every session it made
      closed exactly once and all of their resources given back. */
  method Serve(logLevel: int, requests: seq<Request>) returns (worker: Worker)
    ensures fresh(worker) && worker.Valid() && fresh(worker.Frame())
    ensures worker.lost != {} <==> AsksTwice(requests) && worker.replies != [] && worker.replies[0] == Established
    ensures OneEstablish(requests) ==> worker.lost == {}
    ensures worker.lost == {} && worker.isQuiting ==> forall s :: s in worker.created ==> ClosedOnce(s)
    ensures Establish in requests ==> worker.isQuiting || (worker.Holding() && requests[|requests| - 1].Establish?)
  {
    hide Worker.Valid, ClosedOnce;
    worker := new Worker(logLevel);
    var i := 0;
    ghost var first: nat := |requests|;
    while i < |requests|
      invariant 0 <= i <= |requests| && (i <= first ==> first == |requests|)
      invariant fresh(worker) && worker.Valid() && fresh(worker.Frame())
      invariant Progressed(worker, requests, i, first)
      invariant i > 0 && requests[i - 1].Listen? ==> !worker.Holding()
    {
      match requests[i] {
        case Establish =>
          worker.HandleEstablish();
          first := if first == |requests| then i else first;
        case Listen => worker.HandleListen();
      }
      i := i + 1;
    }
    LostIff(worker, requests, first);
    if worker.isQuiting && worker.lost == {} {
      QuitClosed(worker);
    }
  }
}
