/**
 What each operation of the App adds to a run, and nothing more.
 */
module OpeningRuns {
  import opened OpeningProtocol
  import opened TunnelWorker
  import opened Wrappers

  function Announced(kind: ConnectionType): seq<Note> {
    if kind == Primary then [Connecting] else []
  }

  /** A connection that needs no tunnel becomes one more server at once, with the settings
      and the kind asked for. */
  lemma OpenDirect(ops: seq<Op>, settings: Settings, kind: ConnectionType)
    requires kind == Secondary || !settings.sshEnabled
    ensures
      var st, st' := Run(ops), Run(ops + [Open(settings, kind)]);
      && st'.servers == st.servers + [Server(st.nextId, st.lastHandle + 1, kind, settings, None)]
      && st'.notes == st.notes + Announced(kind) && st'.lastHandle == st.lastHandle + 1
      && st'.shells == st.shells && st'.pending == st.pending && st'.mail == st.mail
  {
    RunSnoc(ops, Open(settings, kind));
  }

  /** A connection through SSH becomes no server yet: a new worker is asked for a tunnel, and
      the request is remembered with its settings and kind. */
  lemma OpenAsks(ops: seq<Op>, settings: Settings, kind: ConnectionType)
    requires kind != Secondary && settings.sshEnabled
    ensures
      var st, st' := Run(ops), Run(ops + [Open(settings, kind)]);
      && st.nextId !in st.mail
      && st'.pending == st.pending + [Pending(st.nextId, st.lastHandle + 1, kind, settings)]
      && st'.mail == st.mail[st.nextId := [Establish]]
      && st'.notes == st.notes + Announced(kind) && st'.lastHandle == st.lastHandle + 1
      && st'.servers == st.servers && st'.shells == st.shells
  {
    hide StateOk;
    EveryRunOk(ops);
    NewWorker(Run(ops));
    RunSnoc(ops, Open(settings, kind));
  }

  lemma NewWorker(st: State)
    requires StateOk(st)
    ensures st.nextId !in st.mail
  {
  }

  predicate Answers(op: Op, worker: nat) {
    op.Answer? && op.worker == worker
  }

  lemma PendingStep(st: State, op: Op, p: Pending)
    requires p in st.pending && !Answers(op, p.worker)
    ensures p in Apply(st, op).pending
  {
    hide FirstWith, ServersWithout;
    if op.Answer? {
      var k := PendingIndex(st.pending, op.worker);
      if k < |st.pending| {
        PendingAt(st.pending, op.worker);
        var i :| 0 <= i < |st.pending| && st.pending[i] == p;
        var rest := st.pending[..k] + st.pending[k + 1..];
        assert rest[if i < k then i else i - 1] == p;
      }
    }
  }

  lemma PendingAt(ps: seq<Pending>, worker: nat)
    ensures
      var k := PendingIndex(ps, worker);
      && k <= |ps| && (k < |ps| ==> ps[k].worker == worker)
      && forall j :: 0 <= j < k ==> ps[j].worker != worker
  {
    var number := (p: Pending) => p.worker;
    var k := FirstWith(ps, number, worker);
    assert forall j :: 0 <= j < k ==> number(ps[j]) != worker;
    forall j | 0 <= j < k ensures ps[j].worker != worker {
      assert number(ps[j]) != worker;
    }
  }

  /** A request stays in flight until it is answered. */
  lemma {:induction false} PendingKept(ops: seq<Op>, mid: seq<Op>, p: Pending)
    requires p in Run(ops).pending && forall i :: 0 <= i < |mid| ==> !Answers(mid[i], p.worker)
    ensures p in Run(ops + mid).pending
  {
    if mid == [] {
      assert ops + mid == ops;
    } else {
      hide Apply, Run;
      var n := |mid| - 1;
      PendingKept(ops, mid[..n], p);
      assert ops + mid == ops + mid[..n] + [mid[n]];
      RunSnoc(ops + mid[..n], mid[n]);
      PendingStep(Run(ops + mid[..n]), mid[n], p);
    }
  }

  lemma PendingIndexIs(st: State, p: Pending) returns (k: nat)
    requires StateOk(st) && p in st.pending
    ensures k == PendingIndex(st.pending, p.worker) < |st.pending| && st.pending[k] == p
    ensures forall q :: q in st.pending[..k] + st.pending[k + 1..] <==> q in st.pending && q.worker != p.worker
  {
    hide FirstWith, RecordsOk, MailOk, ShellsOk;
    k :| 0 <= k < |st.pending| && st.pending[k] == p;
    PendingAt(st.pending, p.worker);
    var rest := st.pending[..k] + st.pending[k + 1..];
    forall q ensures q in rest <==> q in st.pending && q.worker != p.worker {
      if q in st.pending && q.worker != p.worker {
        var i :| 0 <= i < |st.pending| && st.pending[i] == q;
        assert rest[if i < k then i else i - 1] == q;
      }
      if q in rest {
        var i :| 0 <= i < |rest| && rest[i] == q;
        assert q == st.pending[if i < k then i else i + 1];
      }
    }
  }

  /** The request made by opening a connection through SSH. */
  lemma AskedFor(ops: seq<Op>, settings: Settings, kind: ConnectionType, mid: seq<Op>) returns (p: Pending)
    requires kind != Secondary && settings.sshEnabled
    requires forall i :: 0 <= i < |mid| ==> !Answers(mid[i], Run(ops).nextId)
    ensures p == Pending(Run(ops).nextId, Run(ops).lastHandle + 1, kind, settings)
    ensures p in Run(ops + [Open(settings, kind)] + mid).pending
  {
    hide Apply;
    p := Pending(Run(ops).nextId, Run(ops).lastHandle + 1, kind, settings);
    OpenAsks(ops, settings, kind);
    var asked := ops + [Open(settings, kind)];
    assert Run(asked).pending[|Run(ops).pending|] == p;
    PendingKept(asked, mid, p);
  }

  /** When its tunnel is up, whatever happened in between, the connection becomes one more
      server: the settings asked for but for host and port, which are the tunnel's, and the
      kind asked for; and the worker is told to listen. */
  lemma TunnelUp(ops: seq<Op>, settings: Settings, kind: ConnectionType, mid: seq<Op>, port: int)
    requires kind != Secondary && settings.sshEnabled
    requires forall i :: 0 <= i < |mid| ==> !Answers(mid[i], Run(ops).nextId)
    ensures
      var worker := Run(ops).nextId;
      var past := ops + [Open(settings, kind)] + mid;
      var st, st' := Run(past), Run(past + [Answer(worker, Some(port))]);
      && st'.servers == st.servers + [Server(st.nextId, Run(ops).lastHandle + 1, kind,
                                             Settings("127.0.0.1", port, true, settings.database), None)]
      && st'.mail == st.mail[worker := [Establish, Listen]]
      && (forall q :: q in st'.pending <==> q in st.pending && q.worker != worker)
      && st'.shells == st.shells && st'.notes == st.notes && st'.lastHandle == st.lastHandle
  {
    var worker := Run(ops).nextId;
    var past := ops + [Open(settings, kind)] + mid;
    var p := AskedFor(ops, settings, kind, mid);
    hide Run;
    EveryRunOk(past);
    var k := PendingIndexIs(Run(past), p);
    RunSnoc(past, Answer(worker, Some(port)));
    AskedMail(Run(past), p);
    hide StateOk, FirstWith;
  }

  lemma AskedMail(st: State, p: Pending)
    requires StateOk(st) && p in st.pending
    ensures p.worker in st.mail && st.mail[p.worker] == [Establish]
    ensures st.mail[p.worker] + [Listen] == [Establish, Listen]
  {
  }

  /** When the tunnel could not be set up, no server is added; the failure is reported with the
      handle and kind of the request. */
  lemma TunnelFailed(ops: seq<Op>, settings: Settings, kind: ConnectionType, mid: seq<Op>)
    requires kind != Secondary && settings.sshEnabled
    requires forall i :: 0 <= i < |mid| ==> !Answers(mid[i], Run(ops).nextId)
    ensures
      var worker := Run(ops).nextId;
      var past := ops + [Open(settings, kind)] + mid;
      var st, st' := Run(past), Run(past + [Answer(worker, None)]);
      && st'.servers == st.servers && st'.mail == st.mail
      && st'.notes == st.notes + [ConnectionFailed(Run(ops).lastHandle + 1, kind)]
      && (forall q :: q in st'.pending <==> q in st.pending && q.worker != worker)
      && st'.shells == st.shells && st'.lastHandle == st.lastHandle
  {
    var worker := Run(ops).nextId;
    var past := ops + [Open(settings, kind)] + mid;
    var p := AskedFor(ops, settings, kind, mid);
    hide Run;
    EveryRunOk(past);
    var k := PendingIndexIs(Run(past), p);
    RunSnoc(past, Answer(worker, None));
    hide StateOk, FirstWith;
  }

  lemma ServerIndexIs(st: State, k: nat)
    requires StateOk(st) && k < |st.servers|
    ensures ServerIndex(st.servers, st.servers[k].id) == k
  {
    hide RecordsOk, MailOk, ShellsOk;
    ServerAt(st.servers, st.servers[k].id);
  }

  lemma ServerAt(servers: seq<Server>, id: nat)
    ensures
      var k := ServerIndex(servers, id);
      && k <= |servers| && (k < |servers| ==> servers[k].id == id)
      && forall j :: 0 <= j < k ==> servers[j].id != id
  {
    var number := (s: Server) => s.id;
    var k := FirstWith(servers, number, id);
    forall j | 0 <= j < k ensures servers[j].id != id {
      assert number(servers[j]) != id;
    }
  }

  /** A shell gets a secondary server of its own, with the settings of the server it is opened
      on and the default database asked for, which that server then has too. */
  lemma ShellServer(ops: seq<Op>, k: nat, database: string)
    requires k < |Run(ops).servers|
    ensures
      var st := Run(ops);
      var on := st.servers[k];
      var st' := Run(ops + [OpenShell(on.id, database)]);
      var settings := Settings(on.settings.host, on.settings.port, on.settings.sshEnabled,
                               if database == "" then on.settings.database else database);
      && st'.servers == st.servers[k := on.(settings := settings)]
                        + [Server(st.nextId, st.lastHandle + 1, Secondary, settings, Some(on.handle))]
      && st'.shells == st.shells + [Shell(st.nextId + 1, st.nextId)]
      && st'.notes == st.notes + [OpeningShell(st.nextId + 1)] && st'.lastHandle == st.lastHandle + 1
      && st'.pending == st.pending && st'.mail == st.mail
  {
    hide StateOk, Apply, Run, ServerIndex;
    var st := Run(ops);
    EveryRunOk(ops);
    RunSnoc(ops, OpenShell(st.servers[k].id, database));
    ServerIndexIs(st, k);
    OpensShell(st, st.servers[k].id, database);
    ShellAdds(st, k, database);
  }

  lemma OpensShell(st: State, id: nat, database: string)
    ensures Apply(st, OpenShell(id, database)) == ShellOpened(st, id, database)
  {
  }

  lemma ShellAdds(st: State, k: nat, database: string)
    requires k < |st.servers| && ServerIndex(st.servers, st.servers[k].id) == k
    ensures
      var on := st.servers[k];
      var st' := ShellOpened(st, on.id, database);
      var settings := Settings(on.settings.host, on.settings.port, on.settings.sshEnabled,
                               if database == "" then on.settings.database else database);
      && st'.servers == st.servers[k := on.(settings := settings)]
                        + [Server(st.nextId, st.lastHandle + 1, Secondary, settings, Some(on.handle))]
      && st'.shells == st.shells + [Shell(st.nextId + 1, st.nextId)]
      && st'.notes == st.notes + [OpeningShell(st.nextId + 1)] && st'.lastHandle == st.lastHandle + 1
      && st'.pending == st.pending && st'.mail == st.mail
  {
    hide ServerIndex;
    assert st.notes + [] == st.notes;
  }

  /** Closing a server removes it and nothing else. */
  lemma CloseTakesOne(ops: seq<Op>, k: nat)
    requires k < |Run(ops).servers|
    ensures
      var st := Run(ops);
      Run(ops + [CloseServer(st.servers[k].id)]) == st.(servers := st.servers[..k] + st.servers[k + 1..])
  {
    EveryRunOk(ops);
    var st := Run(ops);
    RunSnoc(ops, CloseServer(st.servers[k].id));
    hide Run, RecordsOk, MailOk, ShellsOk;
    assert forall i :: 0 <= i < |st.servers| && i != k ==> st.servers[i].id != st.servers[k].id;
    WithoutOne(st.servers, k);
  }

  lemma {:induction false} WithoutOne(servers: seq<Server>, k: nat)
    requires k < |servers| && forall i :: 0 <= i < |servers| && i != k ==> servers[i].id != servers[k].id
    ensures ServersWithout(servers, servers[k].id) == servers[..k] + servers[k + 1..]
  {
    var n := |servers| - 1;
    if k == n {
      WithoutNone(servers[..n], servers[k].id);
    } else {
      WithoutOne(servers[..n], k);
      assert servers[..n][..k] == servers[..k] && servers[..n][k + 1..] + [servers[n]] == servers[k + 1..];
    }
  }

  /** An answer nobody waits for and a server or shell nobody knows change nothing. */
  lemma UnknownIgnored(ops: seq<Op>, id: nat, port: Option<int>, database: string)
    ensures (forall p :: p in Run(ops).pending ==> p.worker != id) ==> Run(ops + [Answer(id, port)]) == Run(ops)
    ensures (forall s :: s in Run(ops).servers ==> s.id != id) ==>
              Run(ops + [OpenShell(id, database)]) == Run(ops) && Run(ops + [CloseServer(id)]) == Run(ops)
  {
    var st := Run(ops);
    RunSnoc(ops, Answer(id, port));
    RunSnoc(ops, OpenShell(id, database));
    RunSnoc(ops, CloseServer(id));
    hide Run;
    PendingAt(st.pending, id);
    ServerAt(st.servers, id);
    hide FirstWith;
    if forall s :: s in st.servers ==> s.id != id {
      WithoutNone(st.servers, id);
    }
  }
}
