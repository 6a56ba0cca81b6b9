/**
 App: how servers and shells are opened and closed.  A connection through SSH is opened
 in two steps, with a request to a tunnel worker and its answer in between.
 */
module OpeningProtocol {
  import opened TunnelWorker
  import opened Wrappers

  datatype ConnectionType = Primary | Secondary | Test

  datatype Settings = Settings(host: string, port: int, sshEnabled: bool, database: string)

  /** `id` stands for the object itself.  `parent` is the handle of the server whose settings
      a shell's server was opened from. */
  datatype Server = Server(id: nat, handle: int, kind: ConnectionType, settings: Settings, parent: Option<int>)

  datatype Shell = Shell(id: nat, server: nat)

  /** A tunnel that has been asked for and not yet answered. */
  datatype Pending = Pending(worker: nat, handle: int, kind: ConnectionType, settings: Settings)

  datatype Note = Connecting | ConnectionFailed(handle: int, kind: ConnectionType) | OpeningShell(shell: nat)

  /** The App, and three records of its past: the requests sent to each worker, every
      server ever opened and every local port a tunnel was answered with, by handle. */
  datatype State = State(
    lastHandle: int, servers: seq<Server>, shells: seq<Shell>, pending: seq<Pending>, nextId: nat,
    notes: seq<Note>, mail: map<nat, seq<Request>>, made: map<int, Server>, ports: map<int, int>)

  const START := State(0, [], [], [], 0, [], map[], map[], map[])

  predicate Tunnelled(kind: ConnectionType, settings: Settings) {
    kind != Secondary && settings.sshEnabled
  }

  // The operations on values.

  /** continueOpenServer */
  function Continued(st: State, handle: int, settings: Settings, kind: ConnectionType, port: int,
                     parent: Option<int>): State
  {
    var clone := if Tunnelled(kind, settings) then settings.(host := "127.0.0.1", port := port) else settings;
    var server := Server(st.nextId, handle, kind, clone, parent);
    st.(servers := st.servers + [server], nextId := st.nextId + 1, made := st.made[handle := server])
  }

  /** openServerInternal */
  function Opened(st: State, settings: Settings, kind: ConnectionType, parent: Option<int>): State {
    var handle := st.lastHandle + 1;
    var st1 := st.(lastHandle := handle, notes := st.notes + if kind == Primary then [Connecting] else []);
    if !Tunnelled(kind, settings) then Continued(st1, handle, settings, kind, 0, parent)
    else
      st1.(pending := st1.pending + [Pending(st1.nextId, handle, kind, settings)],
           mail := st1.mail[st1.nextId := [Establish]], nextId := st1.nextId + 1)
  }

  /** Position of the first element with a given number, or the length. */
  function FirstWith<T>(s: seq<T>, number: T -> nat, id: nat): (k: nat)
    ensures k <= |s| && (k < |s| ==> number(s[k]) == id)
    ensures forall j :: 0 <= j < k ==> number(s[j]) != id
  {
    if s == [] || number(s[0]) == id then 0 else 1 + FirstWith(s[1..], number, id)
  }

  function PendingIndex(ps: seq<Pending>, worker: nat): nat {
    FirstWith(ps, (p: Pending) => p.worker, worker)
  }

  /** handle(EstablishSshConnectionResponse): an error, or the tunnel's local port. */
  function Answered(st: State, worker: nat, port: Option<int>): State {
    var k := PendingIndex(st.pending, worker);
    if k == |st.pending| then st
    else
      var p := st.pending[k];
      var st1 := st.(pending := st.pending[..k] + st.pending[k + 1..]);
      if port.None? then st1.(notes := st1.notes + [ConnectionFailed(p.handle, p.kind)])
      else
        var st2 := Continued(st1.(ports := st1.ports[p.handle := port.value]), p.handle, p.settings, p.kind,
            port.value, None);
        st2.(mail := st2.mail[worker := (if worker in st2.mail then st2.mail[worker] else []) + [Listen]])
  }

  function ServerIndex(servers: seq<Server>, id: nat): nat {
    FirstWith(servers, (s: Server) => s.id, id)
  }

  /** openShell with the settings of a server: a server of its own, then the shell. */
  function ShellOn(st: State, settings: Settings, parent: int): State {
    var st' := Opened(st, settings, Secondary, Some(parent));
    st'.(shells := st'.shells + [Shell(st'.nextId, st.nextId)], nextId := st'.nextId + 1,
         notes := st'.notes + [OpeningShell(st'.nextId)])
  }

  /** openShell on a server of this App, with its default database set first. */
  function ShellOpened(st: State, id: nat, database: string): State {
    var k := ServerIndex(st.servers, id);
    if k == |st.servers| then st
    else
      var server := st.servers[k];
      var settings := if database == "" then server.settings else server.settings.(database := database);
      ShellOn(st.(servers := st.servers[k := server.(settings := settings)]), settings, server.handle)
  }

  function ServersWithout(servers: seq<Server>, id: nat): seq<Server> {
    if servers == [] then []
    else
      ServersWithout(servers[..|servers| - 1], id)
      + if servers[|servers| - 1].id == id then [] else [servers[|servers| - 1]]
  }

  /** closeServer */
  function ServerClosed(st: State, id: nat): State {
    st.(servers := ServersWithout(st.servers, id))
  }

  function ShellIndex(shells: seq<Shell>, id: nat): nat {
    FirstWith(shells, (s: Shell) => s.id, id)
  }

  /** closeShell */
  function ShellClosed(st: State, id: nat): State {
    var k := ShellIndex(st.shells, id);
    if k == |st.shells| then st
    else ServerClosed(st.(shells := st.shells[..k] + st.shells[k + 1..]), st.shells[k].server)
  }

  datatype Op =
    | Open(settings: Settings, kind: ConnectionType)
    | Answer(worker: nat, port: Option<int>)
    | OpenShell(server: nat, database: string)
    | CloseServer(server: nat)
    | CloseShell(shell: nat)

  function Apply(st: State, op: Op): State {
    match op
    case Open(settings, kind) => Opened(st, settings, kind, None)
    case Answer(worker, port) => Answered(st, worker, port)
    case OpenShell(server, database) => ShellOpened(st, server, database)
    case CloseServer(server) => ServerClosed(st, server)
    case CloseShell(shell) => ShellClosed(st, shell)
  }

  function Run(ops: seq<Op>): State {
    if ops == [] then START else Apply(Run(ops[..|ops| - 1]), ops[|ops| - 1])
  }

  lemma RunSnoc(ops: seq<Op>, op: Op)
    ensures Run(ops + [op]) == Apply(Run(ops), op)
  {
    assert (ops + [op])[..|ops|] == ops;
  }

  // What every operation keeps.

  ghost predicate HandlesOk(st: State) {
    && 0 <= st.lastHandle
    && (forall i :: 0 <= i < |st.servers| ==> 0 < st.servers[i].handle <= st.lastHandle && st.servers[i].id < st.nextId)
    && (forall i :: 0 <= i < |st.pending| ==>
          0 < st.pending[i].handle <= st.lastHandle && st.pending[i].worker < st.nextId)
    && (forall i, j :: 0 <= i < j < |st.servers| ==>
          st.servers[i].handle != st.servers[j].handle && st.servers[i].id != st.servers[j].id)
    && (forall i, j :: 0 <= i < j < |st.pending| ==>
          st.pending[i].handle != st.pending[j].handle && st.pending[i].worker != st.pending[j].worker)
    && (forall i, j :: 0 <= i < |st.servers| && 0 <= j < |st.pending| ==> st.servers[i].handle != st.pending[j].handle)
  }

  ghost predicate ShellsOk(st: State) {
    && (forall i :: 0 <= i < |st.shells| ==> st.shells[i].id < st.nextId && st.shells[i].server < st.nextId)
    && (forall i, j :: 0 <= i < j < |st.shells| ==>
          st.shells[i].id != st.shells[j].id && st.shells[i].server != st.shells[j].server)
  }

  predicate SameAddress(a: Settings, b: Settings) {
    a.host == b.host && a.port == b.port && a.sshEnabled == b.sshEnabled
  }

  /** A server opened from another has its address; one behind a tunnel of its own has
      the tunnel's. */
  predicate RecordOk(made: map<int, Server>, ports: map<int, int>, s: Server) {
    && (s.parent.Some? ==>
          s.parent.value in made && s.parent.value < s.handle && SameAddress(s.settings, made[s.parent.value].settings))
    && (s.parent.None? && Tunnelled(s.kind, s.settings) ==>
          s.handle in ports && s.settings.host == "127.0.0.1" && s.settings.port == ports[s.handle])
  }

  ghost predicate RecordsOk(st: State) {
    && (forall h :: h in st.made ==>
          st.made[h].handle == h && 0 < h <= st.lastHandle && RecordOk(st.made, st.ports, st.made[h]))
    && (forall i :: 0 <= i < |st.servers| ==>
          st.servers[i].handle in st.made
              && SameAddress(st.servers[i].settings, st.made[st.servers[i].handle].settings))
    && (forall j :: 0 <= j < |st.pending| ==>
          st.pending[j].handle !in st.made && st.pending[j].handle !in st.ports
              && Tunnelled(st.pending[j].kind, st.pending[j].settings))
    && (forall h :: h in st.ports ==> 0 < h <= st.lastHandle)
  }

  ghost predicate MailOk(st: State) {
    && (forall w :: w in st.mail ==> w < st.nextId && (st.mail[w] == [Establish] || st.mail[w] == [Establish, Listen]))
    && (forall j :: 0 <= j < |st.pending| ==>
          st.pending[j].worker in st.mail && st.mail[st.pending[j].worker] == [Establish])
  }

  ghost predicate StateOk(st: State) {
    HandlesOk(st) && ShellsOk(st) && RecordsOk(st) && MailOk(st)
  }

  /** A handle no live server, request or record uses. */
  ghost predicate Unused(st: State, handle: int) {
    && 0 < handle <= st.lastHandle && handle !in st.made
    && (forall i :: 0 <= i < |st.servers| ==> st.servers[i].handle != handle)
    && (forall i :: 0 <= i < |st.pending| ==> st.pending[i].handle != handle)
  }

  lemma ContinuedOk(st: State, handle: int, settings: Settings, kind: ConnectionType, port: int, parent: Option<int>)
    requires StateOk(st) && Unused(st, handle)
    requires parent.Some? ==> kind == Secondary && parent.value in st.made && parent.value < handle
                              && SameAddress(settings, st.made[parent.value].settings)
    requires Tunnelled(kind, settings) ==> handle in st.ports && st.ports[handle] == port
    ensures StateOk(Continued(st, handle, settings, kind, port, parent))
  {
    ContinuedRecords(st, handle, settings, kind, port, parent);
    ContinuedHandles(st, handle, settings, kind, port, parent);
    hide RecordsOk, HandlesOk, Unused;
  }

  lemma ContinuedHandles(st: State, handle: int, settings: Settings, kind: ConnectionType, port: int,
        parent: Option<int>)
    requires HandlesOk(st) && Unused(st, handle)
    ensures HandlesOk(Continued(st, handle, settings, kind, port, parent))
  {
  }

  lemma ContinuedRecords(st: State, handle: int, settings: Settings, kind: ConnectionType, port: int,
        parent: Option<int>)
    requires RecordsOk(st) && Unused(st, handle)
    requires parent.Some? ==> kind == Secondary && parent.value in st.made && parent.value < handle
                              && SameAddress(settings, st.made[parent.value].settings)
    requires Tunnelled(kind, settings) ==> handle in st.ports && st.ports[handle] == port
    ensures RecordsOk(Continued(st, handle, settings, kind, port, parent))
  {
    var st' := Continued(st, handle, settings, kind, port, parent);
    forall h | h in st'.made ensures RecordOk(st'.made, st'.ports, st'.made[h]) {
      assert h != handle ==> RecordOk(st.made, st.ports, st.made[h]);
    }
  }

  lemma BumpedOk(st: State, notes: seq<Note>)
    requires StateOk(st)
    ensures
      var st1 := st.(lastHandle := st.lastHandle + 1, notes := notes);
      StateOk(st1) && Unused(st1, st.lastHandle + 1) && st.lastHandle + 1 !in st1.ports
  {
  }

  lemma AskedOk(st: State, handle: int, kind: ConnectionType, settings: Settings)
    requires StateOk(st) && Unused(st, handle) && handle !in st.ports && Tunnelled(kind, settings)
    ensures StateOk(st.(pending := st.pending + [Pending(st.nextId, handle, kind, settings)],
                        mail := st.mail[st.nextId := [Establish]], nextId := st.nextId + 1))
  {
  }

  lemma MadeBelow(st: State, handle: int)
    requires StateOk(st) && handle in st.made
    ensures handle <= st.lastHandle
  {
  }

  lemma OpenedOk(st: State, settings: Settings, kind: ConnectionType, parent: Option<int>)
    requires StateOk(st)
    requires parent.Some? ==> kind == Secondary && parent.value in st.made
                              && SameAddress(settings, st.made[parent.value].settings)
    ensures StateOk(Opened(st, settings, kind, parent))
  {
    hide StateOk, HandlesOk, ShellsOk, RecordsOk, MailOk, Unused;
    var notes := st.notes + if kind == Primary then [Connecting] else [];
    BumpedOk(st, notes);
    if parent.Some? {
      MadeBelow(st, parent.value);
    }
    var st1 := st.(lastHandle := st.lastHandle + 1, notes := notes);
    if Tunnelled(kind, settings) {
      AskedOk(st1, st.lastHandle + 1, kind, settings);
    } else {
      ContinuedOk(st1, st.lastHandle + 1, settings, kind, 0, parent);
    }
  }

  lemma TakenOk(st: State, k: nat)
    requires StateOk(st) && k < |st.pending|
    ensures
      var p := st.pending[k];
      var st1 := st.(pending := st.pending[..k] + st.pending[k + 1..]);
      && StateOk(st1) && Unused(st1, p.handle) && Tunnelled(p.kind, p.settings)
      && p.worker in st1.mail && st1.mail[p.worker] == [Establish] && p.worker < st1.nextId
      && (forall j :: 0 <= j < |st1.pending| ==> st1.pending[j].worker != p.worker && st1.pending[j].handle != p.handle)
  {
    var rest := st.pending[..k] + st.pending[k + 1..];
    forall j | 0 <= j < |rest| ensures rest[j] == st.pending[if j < k then j else j + 1] {
    }
    TakenHandles(st, rest, k);
    hide HandlesOk, Unused;
  }

  lemma TakenHandles(st: State, rest: seq<Pending>, k: nat)
    requires HandlesOk(st) && RecordsOk(st) && k < |st.pending| && |rest| == |st.pending| - 1
    requires forall j :: 0 <= j < |rest| ==> rest[j] == st.pending[if j < k then j else j + 1]
    ensures HandlesOk(st.(pending := rest)) && Unused(st.(pending := rest), st.pending[k].handle)
    ensures forall j :: 0 <= j < |rest| ==>
              rest[j].worker != st.pending[k].worker && rest[j].handle != st.pending[k].handle
  {
    hide RecordOk;
  }

  lemma PortNoted(st: State, handle: int, port: int)
    requires StateOk(st) && Unused(st, handle)
    ensures
      var st1 := st.(ports := st.ports[handle := port]);
      StateOk(st1) && Unused(st1, handle)
  {
    forall h | h in st.made ensures RecordOk(st.made, st.ports[handle := port], st.made[h]) {
      assert RecordOk(st.made, st.ports, st.made[h]);
    }
  }

  lemma ListenSent(st: State, worker: nat)
    requires StateOk(st) && worker in st.mail && st.mail[worker] == [Establish]
    requires forall j :: 0 <= j < |st.pending| ==> st.pending[j].worker != worker
    ensures StateOk(st.(mail := st.mail[worker := st.mail[worker] + [Listen]]))
  {
    assert st.mail[worker] + [Listen] == [Establish, Listen];
  }

  lemma AnsweredOk(st: State, worker: nat, port: Option<int>)
    requires StateOk(st)
    ensures StateOk(Answered(st, worker, port))
  {
    hide StateOk, HandlesOk, ShellsOk, RecordsOk, MailOk, Unused;
    var k := PendingIndex(st.pending, worker);
    if k < |st.pending| {
      var p := st.pending[k];
      TakenOk(st, k);
      var st1 := st.(pending := st.pending[..k] + st.pending[k + 1..]);
      if port.Some? {
        var st2 := st1.(ports := st1.ports[p.handle := port.value]);
        PortNoted(st1, p.handle, port.value);
        ContinuedOk(st2, p.handle, p.settings, p.kind, port.value, None);
        ListenSent(Continued(st2, p.handle, p.settings, p.kind, port.value, None), worker);
      } else {
        NotesOk(st1, st1.notes + [ConnectionFailed(p.handle, p.kind)]);
      }
    }
  }

  lemma NotesOk(st: State, notes: seq<Note>)
    requires StateOk(st)
    ensures StateOk(st.(notes := notes))
  {
  }

  /** Setting the default database of a live server. */
  lemma DatabaseSet(st: State, k: nat, settings: Settings)
    requires StateOk(st) && k < |st.servers| && SameAddress(settings, st.servers[k].settings)
    ensures
      var st1 := st.(servers := st.servers[k := st.servers[k].(settings := settings)]);
      && StateOk(st1) && st.servers[k].handle in st1.made
      && SameAddress(settings, st1.made[st.servers[k].handle].settings)
  {
  }

  lemma ShellAdded(st: State, server: nat, notes: seq<Note>)
    requires StateOk(st) && server < st.nextId
    requires forall i :: 0 <= i < |st.shells| ==> st.shells[i].server != server
    ensures StateOk(st.(shells := st.shells + [Shell(st.nextId, server)], nextId := st.nextId + 1, notes := notes))
  {
  }

  lemma ShellOpenedOk(st: State, id: nat, database: string)
    requires StateOk(st)
    ensures StateOk(ShellOpened(st, id, database))
  {
    hide HandlesOk, RecordsOk, MailOk, Unused;
    var k := ServerIndex(st.servers, id);
    if k < |st.servers| {
      var server := st.servers[k];
      var settings := if database == "" then server.settings else server.settings.(database := database);
      DatabaseSet(st, k, settings);
      var st1 := st.(servers := st.servers[k := server.(settings := settings)]);
      OpenedOk(st1, settings, Secondary, Some(server.handle));
      var st2 := Opened(st1, settings, Secondary, Some(server.handle));
      ShellAdded(st2, st1.nextId, st2.notes + [OpeningShell(st2.nextId)]);
    }
  }

  // Closing.

  lemma WithoutSnoc(servers: seq<Server>, i: nat, id: nat)
    requires i < |servers|
    ensures ServersWithout(servers[..i + 1], id)
         == ServersWithout(servers[..i], id) + if servers[i].id == id then [] else [servers[i]]
  {
    assert servers[..i + 1][..i] == servers[..i];
  }

  lemma {:induction false} WithoutAt(servers: seq<Server>, id: nat, s: Server)
    ensures s in ServersWithout(servers, id) <==> s in servers && s.id != id
  {
    if servers == [] {
    } else {
      WithoutAt(servers[..|servers| - 1], id, s);
      assert servers == servers[..|servers| - 1] + [servers[|servers| - 1]];
    }
  }

  /** Every list kept by a removal is the old one at increasing positions. */
  lemma {:induction false} WithoutPositions(servers: seq<Server>, id: nat, i: nat, j: nat) returns (i': nat, j': nat)
    requires i < j < |ServersWithout(servers, id)|
    ensures i' < j' < |servers|
    ensures servers[i'] == ServersWithout(servers, id)[i] && servers[j'] == ServersWithout(servers, id)[j]
  {
    var before := servers[..|servers| - 1];
    if j < |ServersWithout(before, id)| {
      i', j' := WithoutPositions(before, id, i, j);
    } else {
      WithoutAt(before, id, ServersWithout(before, id)[i]);
      i' :| 0 <= i' < |before| && before[i'] == ServersWithout(before, id)[i];
      j' := |servers| - 1;
    }
  }

  lemma ServerClosedOk(st: State, id: nat)
    requires StateOk(st)
    ensures StateOk(ServerClosed(st, id))
  {
    var st' := ServerClosed(st, id);
    forall i | 0 <= i < |st'.servers| ensures st'.servers[i] in st.servers {
      WithoutAt(st.servers, id, st'.servers[i]);
    }
    forall i, j | 0 <= i < j < |st'.servers|
      ensures st'.servers[i].handle != st'.servers[j].handle && st'.servers[i].id != st'.servers[j].id
    {
      var i', j' := WithoutPositions(st.servers, id, i, j);
    }
  }

  lemma ShellRemoved(st: State, k: nat)
    requires StateOk(st) && k < |st.shells|
    ensures StateOk(st.(shells := st.shells[..k] + st.shells[k + 1..]))
  {
    var shells := st.shells[..k] + st.shells[k + 1..];
    assert forall j :: 0 <= j < |shells| ==> shells[j] == st.shells[if j < k then j else j + 1];
  }

  lemma ShellClosedOk(st: State, id: nat)
    requires StateOk(st)
    ensures StateOk(ShellClosed(st, id))
  {
    hide StateOk, HandlesOk, ShellsOk, RecordsOk, MailOk, ServerClosed, FirstWith;
    var k := ShellIndex(st.shells, id);
    if k < |st.shells| {
      ShellRemoved(st, k);
      ServerClosedOk(st.(shells := st.shells[..k] + st.shells[k + 1..]), st.shells[k].server);
    }
  }

  /** In every run the handles of live servers and of requests in flight are pairwise
      distinct and at most the last one given out; shells have servers of their own; and
      a worker is asked for a tunnel once and to listen at most once, in that order. */
  lemma {:induction false} EveryRunOk(ops: seq<Op>)
    ensures StateOk(Run(ops))
  {
    if ops == [] {
      StartOk();
    } else {
      hide Apply, StateOk, HandlesOk, ShellsOk, RecordsOk, MailOk;
      EveryRunOk(ops[..|ops| - 1]);
      ApplyOk(Run(ops[..|ops| - 1]), ops[|ops| - 1]);
    }
  }

  lemma StartOk()
    ensures StateOk(START)
  {
  }

  lemma ApplyOk(st: State, op: Op)
    requires StateOk(st)
    ensures StateOk(Apply(st, op))
  {
    hide StateOk, HandlesOk, ShellsOk, RecordsOk, MailOk, Opened, Answered, ShellOpened, ServerClosed, ShellClosed;
    match op
    case Open(settings, kind) => OpenedOk(st, settings, kind, None);
    case Answer(worker, port) => AnsweredOk(st, worker, port);
    case OpenShell(server, database) => ShellOpenedOk(st, server, database);
    case CloseServer(server) => ServerClosedOk(st, server);
    case CloseShell(shell) => ShellClosedOk(st, shell);
  }

  /** The server a shell's server descends from. */
  function Root(made: map<int, Server>, h: int): int
    decreases h
  {
    if h in made && made[h].parent.Some? && 0 < made[h].parent.value < h then Root(made, made[h].parent.value) else h
  }

  lemma {:induction false} RootAddress(st: State, h: int)
    requires RecordsOk(st) && h in st.made
    ensures
      var r := Root(st.made, h);
      r in st.made && st.made[r].parent.None? && SameAddress(st.made[h].settings, st.made[r].settings)
    decreases h
  {
    assert RecordOk(st.made, st.ports, st.made[h]);
    if st.made[h].parent.None? {
      assert Root(st.made, h) == h;
    } else {
      RootAddress(st, st.made[h].parent.value);
    }
  }

  /** In every run, a server opened through SSH, and every shell's server that descends
      from it, points at 127.0.0.1 and the local port that very tunnel answered with. */
  lemma TunnelAddress(ops: seq<Op>, i: nat)
    requires i < |Run(ops).servers|
    ensures
      var st := Run(ops);
      var server := st.servers[i];
      var r := Root(st.made, server.handle);
      && r in st.made
      && (Tunnelled(st.made[r].kind, st.made[r].settings) ==>
            r in st.ports && server.settings.host == "127.0.0.1" && server.settings.port == st.ports[r])
  {
    EveryRunOk(ops);
    var st := Run(ops);
    hide Run, HandlesOk, ShellsOk, MailOk;
    RootAddress(st, st.servers[i].handle);
    assert RecordOk(st.made, st.ports, st.made[Root(st.made, st.servers[i].handle)]);
  }

  /** Closing a shell removes that shell and its own server, and nothing else: every other
      shell, and its server if it had one, stays. */
  lemma CloseShellTakesOne(st: State, k: nat)
    requires StateOk(st) && k < |st.shells|
    ensures
      var st' := ShellClosed(st, st.shells[k].id);
      && st'.shells == st.shells[..k] + st.shells[k + 1..]
      && (forall s :: s in st'.servers <==> s in st.servers && s.id != st.shells[k].server)
      && (forall j, s :: 0 <= j < |st.shells| && j != k && s in st.servers && s.id == st.shells[j].server ==>
            s in st'.servers)
  {
    ShellIndexIs(st.shells, k);
    var rest := st.(shells := st.shells[..k] + st.shells[k + 1..]);
    var id := st.shells[k].server;
    forall s ensures s in ServersWithout(st.servers, id) <==> s in st.servers && s.id != id {
      WithoutAt(st.servers, id, s);
    }
  }

  lemma ShellIndexIs(shells: seq<Shell>, k: nat)
    requires k < |shells| && forall i, j :: 0 <= i < j < |shells| ==> shells[i].id != shells[j].id
    ensures ShellIndex(shells, shells[k].id) == k
  {
    ShellIndexFirst(shells, shells[k].id, k);
  }

  lemma {:induction false} WithoutNone(servers: seq<Server>, id: nat)
    requires forall i :: 0 <= i < |servers| ==> servers[i].id != id
    ensures ServersWithout(servers, id) == servers
  {
    if servers == [] {
    } else {
      WithoutNone(servers[..|servers| - 1], id);
    }
  }

  lemma WithoutLast(servers: seq<Server>, s: Server)
    requires forall i :: 0 <= i < |servers| ==> servers[i].id != s.id
    ensures ServersWithout(servers + [s], s.id) == servers
  {
    assert (servers + [s])[..|servers|] == servers;
    WithoutNone(servers, s.id);
  }

  /** Closing a shell right after opening it gives back the shells and servers there were;
      what stays is the used handle and the default database set on the parent. */
  lemma OpenThenCloseShell(st: State, id: nat, database: string)
    requires StateOk(st) && ServerIndex(st.servers, id) < |st.servers|
    ensures
      var k := ServerIndex(st.servers, id);
      var st1 := ShellOpened(st, id, database);
      |st1.shells| == |st.shells| + 1
      && var st2 := ShellClosed(st1, st1.shells[|st.shells|].id);
         var parent := st.servers[k].settings;
         && st2.shells == st.shells && st2.pending == st.pending && st2.mail == st.mail
         && st2.servers == st.servers[k := st.servers[k].(
                              settings := if database == "" then parent else parent.(database := database))]
         && st2.lastHandle == st.lastHandle + 1
  {
    var st1 := ShellOpened(st, id, database);
    ShellOpenedOk(st, id, database);
    ShellIndexIs(st1.shells, |st.shells|);
    var n := |st.servers|;
    assert st1.servers == st1.servers[..n] + [st1.servers[n]];
    WithoutLast(st1.servers[..n], st1.servers[n]);
  }

  /** What the App sends a worker is such that the worker loses no session. */
  lemma WorkerTraffic(ops: seq<Op>, worker: nat)
    requires worker in Run(ops).mail
    ensures OneEstablish(Run(ops).mail[worker]) && [Establish] <= Run(ops).mail[worker]
  {
    EveryRunOk(ops);
  }

  /** A tunnel worker fed what the App sent it in any run: it loses no session.  Told to
      establish and to listen, it quits with every session closed exactly once and all
      given back; so it does when the tunnel could not be set up.  Otherwise it holds its
      one open session. */
  method ServeRun(ops: seq<Op>, w: nat, logLevel: int) returns (worker: Worker)
    requires w in Run(ops).mail
    ensures fresh(worker) && worker.Valid() && worker.lost == {}
    ensures Run(ops).mail[w] == [Establish, Listen] ==> worker.isQuiting
    ensures !worker.isQuiting ==> Run(ops).mail[w] == [Establish] && worker.Holding()
    ensures forall s :: s in worker.created && !(worker.Holding() && s == worker.sshSession) ==> ClosedOnce(s)
  {
    hide ClosedOnce;
    WorkerTraffic(ops, w);
    EveryRunOk(ops);
    worker := Serve(logLevel, Run(ops).mail[w]);
  }

  // The App itself.

  class App {
    var lastServerHandle: int
    var servers: seq<Server>
    var shells: seq<Shell>
    var inFlight: seq<Pending>
    var nextId: nat
    var notes: seq<Note>
    var mail: map<nat, seq<Request>>
    ghost var made: map<int, Server>
    ghost var ports: map<int, int>
    ghost var history: seq<Op>

    ghost function S(): State
      reads this
    {
      State(lastServerHandle, servers, shells, inFlight, nextId, notes, mail, made, ports)
    }

    /** The App is what its history makes of it, so that every theorem about runs is one
        about this object. */
    ghost predicate Valid()
      reads this
    {
      S() == Run(history)
    }

    constructor ()
      ensures Valid() && history == []
    {
      lastServerHandle, servers, shells, inFlight, nextId := 0, [], [], [], 0;
      notes, mail, made, ports, history := [], map[], map[], map[], [];
    }

    method ContinueOpenServer(handle: int, settings: Settings, kind: ConnectionType, localport: int,
                              parent: Option<int>)
      returns (server: Server)
      modifies this`servers, this`nextId, this`made
      ensures S() == Continued(old(S()), handle, settings, kind, localport, parent)
      ensures servers == old(servers) + [server] && server.id == old(nextId)
      ensures server.handle == handle && server.kind == kind && server.parent == parent
      ensures kind == Secondary || !settings.sshEnabled ==> server.settings == settings
      ensures kind != Secondary && settings.sshEnabled ==>
                server.settings == Settings("127.0.0.1", localport, true, settings.database)
    {
      var clone := settings;
      if (kind == Primary || kind == Test) && clone.sshEnabled {
        clone := clone.(host := "127.0.0.1");
        clone := clone.(port := localport);
      }
      server := Server(nextId, handle, kind, clone, parent);
      nextId := nextId + 1;
      servers := servers + [server];
      made := made[handle := server];
    }

    method OpenServerInternal(settings: Settings, kind: ConnectionType, parent: Option<int>)
          returns (server: Option<Server>)
      modifies this
      ensures S() == Opened(old(S()), settings, kind, parent) && history == old(history)
      ensures server.None? <==> Tunnelled(kind, settings)
      ensures server.Some? ==> server.value == servers[|servers| - 1]
    {
      lastServerHandle := lastServerHandle + 1;
      notes := notes + if kind == Primary then [Connecting] else [];
      if kind == Secondary || !settings.sshEnabled {
        var s := ContinueOpenServer(lastServerHandle, settings, kind, 0, parent);
        return Some(s);
      }
      var worker := nextId;
      nextId := nextId + 1;
      inFlight := inFlight + [Pending(worker, lastServerHandle, kind, settings)];
      mail := mail[worker := [Establish]];
      return None;
    }

    method OpenServer(settings: Settings, kind: ConnectionType)
      requires Valid()
      modifies this
      ensures Valid() && history == old(history) + [Open(settings, kind)]
    {
      RunSnoc(history, Open(settings, kind));
      hide Run;
      history := history + [Open(settings, kind)];
      var server := OpenServerInternal(settings, kind, None);
    }

    /** handle(EstablishSshConnectionResponse) */
    method HandleAnswer(worker: nat, port: Option<int>)
      requires Valid()
      modifies this
      ensures Valid() && history == old(history) + [Answer(worker, port)]
    {
      RunSnoc(history, Answer(worker, port));
      hide Run;
      history := history + [Answer(worker, port)];
      var k := PendingIndex(inFlight, worker);
      if k == |inFlight| {
        return;
      }
      var p := inFlight[k];
      inFlight := inFlight[..k] + inFlight[k + 1..];
      if port.None? {
        notes := notes + [ConnectionFailed(p.handle, p.kind)];
        return;
      }
      ports := ports[p.handle := port.value];
      var server := ContinueOpenServer(p.handle, p.settings, p.kind, port.value, None);
      mail := mail[worker := (if worker in mail then mail[worker] else []) + [Listen]];
    }

    method OpenShellOn(id: nat, database: string)
      requires Valid()
      modifies this
      ensures Valid() && history == old(history) + [OpenShell(id, database)]
    {
      RunSnoc(history, OpenShell(id, database));
      hide Run, FirstWith, ShellOn;
      history := history + [OpenShell(id, database)];
      var k := ServerIndex(servers, id);
      if k == |servers| {
        return;
      }
      var connection := servers[k].settings;
      if database != "" {
        connection := connection.(database := database);
      }
      servers := servers[k := servers[k].(settings := connection)];
      OpenShellWith(connection, servers[k].handle);
    }

    method OpenShellWith(connection: Settings, parent: int)
      modifies this
      ensures S() == ShellOn(old(S()), connection, parent) && history == old(history)
    {
      var serverClone := OpenServerInternal(connection, Secondary, Some(parent));
      if serverClone.None? {
        return;
      }
      var shell := Shell(nextId, serverClone.value.id);
      nextId := nextId + 1;
      shells := shells + [shell];
      notes := notes + [OpeningShell(shell.id)];
    }

    method CloseServerById(id: nat)
      requires Valid()
      modifies this`servers, this`history
      ensures Valid() && history == old(history) + [CloseServer(id)]
    {
      RunSnoc(history, CloseServer(id));
      hide Run;
      history := history + [CloseServer(id)];
      EraseServer(id);
    }

    /** closeServer: std::remove_if over the servers, then erase. */
    method EraseServer(id: nat)
      modifies this`servers
      ensures servers == ServersWithout(old(servers), id)
    {
      assert ServersWithout(servers[..0], id) == [];
      hide ServersWithout;
      var kept := [];
      var i := 0;
      while i < |servers|
        invariant 0 <= i <= |servers| && servers == old(servers)
        invariant kept == ServersWithout(servers[..i], id)
      {
        WithoutSnoc(servers, i, id);
        if servers[i].id != id {
          kept := kept + [servers[i]];
        }
        i := i + 1;
      }
      assert servers[..i] == servers;
      servers := kept;
    }

    /** closeShell */
    method CloseShellById(id: nat)
      requires Valid()
      modifies this`servers, this`shells, this`history
      ensures Valid() && history == old(history) + [CloseShell(id)]
    {
      RunSnoc(history, CloseShell(id));
      hide Run;
      history := history + [CloseShell(id)];
      var k := 0;
      while k < |shells| && shells[k].id != id
        invariant 0 <= k <= |shells| && S() == old(S()) && history == old(history) + [CloseShell(id)]
        invariant forall j :: 0 <= j < k ==> shells[j].id != id
      {
        k := k + 1;
      }
      ShellIndexFirst(shells, id, k);
      if k == |shells| {
        return;
      }
      var server := shells[k].server;
      shells := shells[..k] + shells[k + 1..];
      EraseServer(server);
    }
  }

  lemma ShellIndexFirst(shells: seq<Shell>, id: nat, k: nat)
    requires k <= |shells| && (forall j :: 0 <= j < k ==> shells[j].id != id) && (k < |shells| ==> shells[k].id == id)
    ensures ShellIndex(shells, id) == k
  {
    assert k < |shells| ==> shells[k].id == id;
  }
}
