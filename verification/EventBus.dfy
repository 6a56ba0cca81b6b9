/**
 EventBus: subscriptions bound to the dispatcher of the subscribing thread, and what a
 published event reaches.  All public operations run under one lock, so a run from many
 threads is a sequence of operations, each with the thread that performs it.
 */
module EventBus {
  import opened Wrappers

  type Thread = nat
  type Object = nat
  type Kind = nat  // QEvent::Type

  datatype Subscription = Subscription(kind: Kind, receiver: Object, sender: Option<Object>, dispatcher: nat)

  datatype Dispatcher = Dispatcher(thread: Thread, id: nat)

  /** An object an event is sent to directly, with the thread it lives in. */
  datatype Addressee = Addressee(target: Object, home: Thread)

  /** An EventWrapper handed to a dispatcher, at once or through its thread's queue. */
  datatype Wrapper = Wrapper(dispatcher: nat, kind: Kind, receivers: seq<Object>, atOnce: bool)

  datatype State = State(subs: seq<Subscription>, dispatchers: seq<Dispatcher>, sent: seq<Wrapper>)

  predicate Matches(s: Subscription, kind: Kind, sender: Option<Object>) {
    s.kind == kind && (s.sender.None? || s.sender == sender)
  }

  function Matching(subs: seq<Subscription>, kind: Kind, sender: Option<Object>): seq<Subscription> {
    if subs == [] then []
    else
      Matching(subs[..|subs| - 1], kind, sender)
      + if Matches(subs[|subs| - 1], kind, sender) then [subs[|subs| - 1]] else []
  }

  function Receivers(subs: seq<Subscription>): seq<Object> {
    seq(|subs|, i requires 0 <= i < |subs| => subs[i].receiver)
  }

  predicate OneDispatcher(subs: seq<Subscription>) {
    forall i, j :: 0 <= i < |subs| && 0 <= j < |subs| ==> subs[i].dispatcher == subs[j].dispatcher
  }

  function Others(subs: seq<Subscription>, receiver: Object): seq<Subscription> {
    if subs == [] then []
    else
      Others(subs[..|subs| - 1], receiver)
      + if subs[|subs| - 1].receiver == receiver then [] else [subs[|subs| - 1]]
  }

  ghost predicate DispatchersOk(ds: seq<Dispatcher>) {
    && (forall i :: 0 <= i < |ds| ==> ds[i].id == i)
    && (forall i, j :: 0 <= i < j < |ds| ==> ds[i].thread != ds[j].thread)
  }

  /** The dispatcher of a thread, and the list with it. */
  function WithDispatcher(ds: seq<Dispatcher>, thread: Thread): (r: seq<Dispatcher>)
    ensures exists i :: 0 <= i < |r| && r[i].thread == thread
    ensures ds <= r
  {
    if exists i :: 0 <= i < |ds| && ds[i].thread == thread then ds
    else
      var r := ds + [Dispatcher(thread, |ds|)];
      assert r[|ds|].thread == thread;
      r
  }

  function IdOf(ds: seq<Dispatcher>, thread: Thread): nat {
    if ds == [] then 0
    else if ds[|ds| - 1].thread == thread then ds[|ds| - 1].id
    else IdOf(ds[..|ds| - 1], thread)
  }

  // The operations on values.

  function Subscribed(st: State, thread: Thread, receiver: Object, kind: Kind, sender: Option<Object>): State {
    var ds := WithDispatcher(st.dispatchers, thread);
    st.(subs := st.subs + [Subscription(kind, receiver, sender, IdOf(ds, thread))], dispatchers := ds)
  }

  function Unsubscribed(st: State, receiver: Object): State {
    st.(subs := Others(st.subs, receiver))
  }

  function SentTo(st: State, dispatcher: nat, kind: Kind, receivers: seq<Object>, thread: Thread): State {
    var atOnce := dispatcher < |st.dispatchers| && st.dispatchers[dispatcher].thread == thread;
    st.(sent := st.sent + [Wrapper(dispatcher, kind, receivers, atOnce)])
  }

  function Published(st: State, thread: Thread, kind: Kind, sender: Option<Object>): State {
    var ms := Matching(st.subs, kind, sender);
    if ms == [] || !OneDispatcher(ms) then st
    else SentTo(st, ms[0].dispatcher, kind, Receivers(ms), thread)
  }

  ghost predicate StateOk(st: State) {
    && DispatchersOk(st.dispatchers)
    && forall i :: 0 <= i < |st.subs| ==> st.subs[i].dispatcher < |st.dispatchers|
  }

  lemma {:induction false} IdOfIs(ds: seq<Dispatcher>, thread: Thread, i: nat)
    requires DispatchersOk(ds) && i < |ds| && ds[i].thread == thread
    ensures IdOf(ds, thread) == i
  {
    if i == |ds| - 1 {
    } else {
      IdOfIs(ds[..|ds| - 1], thread, i);
    }
  }

  lemma {:induction false} MatchingFrom(subs: seq<Subscription>, kind: Kind, sender: Option<Object>, s: Subscription)
    ensures s in Matching(subs, kind, sender) <==> s in subs && Matches(s, kind, sender)
  {
    if subs == [] {
    } else {
      MatchingFrom(subs[..|subs| - 1], kind, sender, s);
      assert subs == subs[..|subs| - 1] + [subs[|subs| - 1]];
    }
  }

  lemma OthersSnoc(subs: seq<Subscription>, i: nat, receiver: Object)
    requires i < |subs|
    ensures Others(subs[..i + 1], receiver)
         == Others(subs[..i], receiver) + if subs[i].receiver == receiver then [] else [subs[i]]
  {
    assert subs[..i + 1][..i] == subs[..i];
  }

  lemma OneMore(ms: seq<Subscription>, s: Subscription)
    requires OneDispatcher(ms)
    ensures OneDispatcher(ms + [s]) <==> ms == [] || ms[0].dispatcher == s.dispatcher
    ensures Receivers(ms + [s]) == Receivers(ms) + [s.receiver]
  {
    var all := ms + [s];
    assert all[|ms|] == s;
    assert ms != [] ==> all[0] == ms[0];
  }

  lemma MoreThanOne(ms: seq<Subscription>, all: seq<Subscription>)
    requires !OneDispatcher(ms) && ms <= all
    ensures !OneDispatcher(all)
  {
  }

  lemma {:induction false} MatchingPrefix(subs: seq<Subscription>, kind: Kind, sender: Option<Object>, k: nat)
    requires k <= |subs|
    ensures Matching(subs[..k], kind, sender) <= Matching(subs, kind, sender)
  {
    if k == |subs| {
      assert subs[..k] == subs;
    } else {
      MatchingPrefix(subs[..|subs| - 1], kind, sender, k);
      assert subs[..|subs| - 1][..k] == subs[..k];
    }
  }

  // Histories.

  datatype Op =
    | Subscribe(thread: Thread, receiver: Object, kind: Kind, sender: Option<Object>)
    | Unsubscribe(receiver: Object)
    | Publish(thread: Thread, kind: Kind, sender: Option<Object>)
    | Send(thread: Thread, receivers: seq<Addressee>, kind: Kind)

  function Objects(receivers: seq<Addressee>): seq<Object> {
    seq(|receivers|, i requires 0 <= i < |receivers| => receivers[i].target)
  }

  /** send creates the dispatcher of the last receiver's thread if need be. */
  function SentDirectly(st: State, thread: Thread, receivers: seq<Addressee>, kind: Kind): State {
    if receivers == [] then st
    else
      var home := receivers[|receivers| - 1].home;
      var ds := WithDispatcher(st.dispatchers, home);
      SentTo(st.(dispatchers := ds), IdOf(ds, home), kind, Objects(receivers), thread)
  }

  function Apply(st: State, op: Op): State {
    match op
    case Subscribe(thread, receiver, kind, sender) => Subscribed(st, thread, receiver, kind, sender)
    case Unsubscribe(receiver) => Unsubscribed(st, receiver)
    case Publish(thread, kind, sender) => Published(st, thread, kind, sender)
    case Send(thread, receivers, kind) => SentDirectly(st, thread, receivers, kind)
  }

  function Run(h: seq<Op>): State {
    if h == [] then State([], [], []) else Apply(Run(h[..|h| - 1]), h[|h| - 1])
  }

  lemma RunSnoc(h: seq<Op>, op: Op)
    ensures Run(h + [op]) == Apply(Run(h), op)
  {
    assert (h + [op])[..|h|] == h;
  }

  /** A subscription made at step i still holds at the end of the history. */
  predicate InForceAt(h: seq<Op>, i: nat)
    requires i < |h|
  {
    h[i].Subscribe? && forall j :: i < j < |h| ==> h[j] != Unsubscribe(h[i].receiver)
  }

  /** The subscriptions in force, in the order they were made. */
  function InForce(h: seq<Op>, n: nat): seq<Op>
    requires n <= |h|
  {
    if n == 0 then [] else InForce(h, n - 1) + if InForceAt(h, n - 1) then [h[n - 1]] else []
  }

  predicate Wants(op: Op, kind: Kind, sender: Option<Object>) {
    op.Subscribe? && op.kind == kind && (op.sender.None? || op.sender == sender)
  }

  /** A stored subscription is the one an operation made, with the dispatcher of its thread. */
  predicate Stores(s: Subscription, op: Op, ds: seq<Dispatcher>) {
    && op.Subscribe? && s.kind == op.kind && s.receiver == op.receiver && s.sender == op.sender
    && s.dispatcher < |ds| && ds[s.dispatcher].thread == op.thread
  }

  ghost predicate StoresAll(subs: seq<Subscription>, ops: seq<Op>, ds: seq<Dispatcher>) {
    |subs| == |ops| && forall i :: 0 <= i < |subs| ==> Stores(subs[i], ops[i], ds)
  }

  lemma WithDispatcherOk(ds: seq<Dispatcher>, thread: Thread)
    requires DispatchersOk(ds)
    ensures
      var r := WithDispatcher(ds, thread);
      DispatchersOk(r) && IdOf(r, thread) < |r| && r[IdOf(r, thread)].thread == thread
  {
    var r := WithDispatcher(ds, thread);
    var i :| 0 <= i < |r| && r[i].thread == thread;
    IdOfIs(r, thread, i);
  }

  /** In force after one more operation. */
  lemma {:induction false} InForceStep(h: seq<Op>, op: Op, n: nat)
    requires n <= |h|
    ensures !op.Unsubscribe? ==> InForce(h + [op], n) == InForce(h, n)
    ensures op.Unsubscribe? ==> InForce(h + [op], n) == Dropped(InForce(h, n), op.receiver)
  {
    if n == 0 {
    } else {
      var h' := h + [op];
      InForceStep(h, op, n - 1);
      assert InForceAt(h', n - 1) <==> InForceAt(h, n - 1) && op != Unsubscribe(h[n - 1].receiver) by {
        assert h'[|h|] == op;
        assert forall j :: 0 <= j < |h| ==> h'[j] == h[j];
      }
      assert InForce(h, n - 1) + [] == InForce(h, n - 1);
      if op.Unsubscribe? && InForceAt(h, n - 1) {
        assert (InForce(h, n - 1) + [h[n - 1]])[..|InForce(h, n - 1)|] == InForce(h, n - 1);
      }
    }
  }

  function Dropped(ops: seq<Op>, receiver: Object): seq<Op> {
    if ops == [] then []
    else
      Dropped(ops[..|ops| - 1], receiver)
      + if ops[|ops| - 1].Subscribe? && ops[|ops| - 1].receiver == receiver then [] else [ops[|ops| - 1]]
  }

  lemma {:induction false} OthersStored(subs: seq<Subscription>, ops: seq<Op>, ds: seq<Dispatcher>, receiver: Object)
    requires StoresAll(subs, ops, ds)
    ensures StoresAll(Others(subs, receiver), Dropped(ops, receiver), ds)
  {
    if subs == [] {
    } else {
      OthersStored(subs[..|subs| - 1], ops[..|ops| - 1], ds, receiver);
    }
  }

  /** The subscriptions in force after one more operation. */
  function NowInForce(ops: seq<Op>, op: Op): seq<Op> {
    if op.Subscribe? then ops + [op] else if op.Unsubscribe? then Dropped(ops, op.receiver) else ops
  }

  lemma InForceSnoc(h: seq<Op>, op: Op)
    ensures InForce(h + [op], |h| + 1) == NowInForce(InForce(h, |h|), op)
  {
    InForceStep(h, op, |h|);
    assert (h + [op])[|h|] == op;
  }

  /** The state stores exactly the given subscriptions. */
  ghost predicate Keeps(st: State, ops: seq<Op>) {
    StateOk(st) && StoresAll(st.subs, ops, st.dispatchers)
  }

  /** Longer dispatcher lists store the same. */
  lemma KeepsLonger(st: State, ops: seq<Op>, thread: Thread)
    requires Keeps(st, ops)
    ensures Keeps(st.(dispatchers := WithDispatcher(st.dispatchers, thread)), ops)
  {
    WithDispatcherOk(st.dispatchers, thread);
    var ds := WithDispatcher(st.dispatchers, thread);
    forall i | 0 <= i < |st.subs| ensures Stores(st.subs[i], ops[i], ds) {
      assert Stores(st.subs[i], ops[i], st.dispatchers);
    }
  }

  lemma KeepsSubscribed(st: State, ops: seq<Op>, op: Op)
    requires Keeps(st, ops) && op.Subscribe?
    ensures Keeps(Apply(st, op), ops + [op])
  {
    KeepsLonger(st, ops, op.thread);
    WithDispatcherOk(st.dispatchers, op.thread);
    hide DispatchersOk, WithDispatcher;
  }

  lemma KeepsStep(st: State, ops: seq<Op>, op: Op)
    requires Keeps(st, ops)
    ensures Keeps(Apply(st, op), NowInForce(ops, op))
  {
    match op
    case Subscribe(_, _, _, _) => KeepsSubscribed(st, ops, op);
    case Unsubscribe(receiver) =>
      OthersStored(st.subs, ops, st.dispatchers, receiver);
    case Publish(_, _, _) =>
    case Send(_, receivers, _) =>
      if receivers != [] {
        KeepsLonger(st, ops, receivers[|receivers| - 1].home);
      }
  }

  /** After any history, from any threads, the bus holds exactly the subscriptions in
      force, in order, each bound to the one dispatcher of the thread that made it. */
  lemma {:induction false} HoldsInForce(h: seq<Op>)
    ensures StateOk(Run(h)) && StoresAll(Run(h).subs, InForce(h, |h|), Run(h).dispatchers)
  {
    if h == [] {
    } else {
      hide StateOk, StoresAll, Apply, NowInForce, InForce;
      var before, op := h[..|h| - 1], h[|h| - 1];
      assert h == before + [op];
      HoldsInForce(before);
      InForceSnoc(before, op);
      KeepsStep(Run(before), InForce(before, |before|), op);
    }
  }

  // What a publish reaches.

  /** Those of the operations that ask for an event. */
  function Wanted(ops: seq<Op>, kind: Kind, sender: Option<Object>): (r: seq<Op>)
    ensures forall i :: 0 <= i < |r| ==> r[i].Subscribe?
  {
    if ops == [] then []
    else
      Wanted(ops[..|ops| - 1], kind, sender) + if Wants(ops[|ops| - 1], kind, sender) then [ops[|ops| - 1]] else []
  }

  predicate FromOneThread(ops: seq<Op>)
    requires forall i :: 0 <= i < |ops| ==> ops[i].Subscribe?
  {
    forall i, j :: 0 <= i < |ops| && 0 <= j < |ops| ==> ops[i].thread == ops[j].thread
  }

  lemma {:induction false} MatchingStores(subs: seq<Subscription>, ops: seq<Op>, ds: seq<Dispatcher>, kind: Kind,
        sender: Option<Object>)
    requires StoresAll(subs, ops, ds)
    ensures StoresAll(Matching(subs, kind, sender), Wanted(ops, kind, sender), ds)
  {
    if subs == [] {
    } else {
      MatchingStores(subs[..|subs| - 1], ops[..|ops| - 1], ds, kind, sender);
    }
  }

  lemma OneDispatcherIffThread(subs: seq<Subscription>, ops: seq<Op>, ds: seq<Dispatcher>)
    requires StoresAll(subs, ops, ds) && DispatchersOk(ds)
    ensures OneDispatcher(subs) <==> FromOneThread(ops)
  {
    forall i, j | 0 <= i < |subs| && 0 <= j < |subs|
      ensures subs[i].dispatcher == subs[j].dispatcher <==> ops[i].thread == ops[j].thread
    {
      assert Stores(subs[i], ops[i], ds) && Stores(subs[j], ops[j], ds);
    }
  }

  /** What publish throws for: matching subscriptions with different dispatchers. */
  predicate Throws(st: State, kind: Kind, sender: Option<Object>) {
    !OneDispatcher(Matching(st.subs, kind, sender))
  }

  /** After any history, a publish throws exactly when two subscriptions in force that want
      the event were made in different threads. */
  lemma ThrowsIff(h: seq<Op>, kind: Kind, sender: Option<Object>)
    ensures Throws(Run(h), kind, sender) <==> !FromOneThread(Wanted(InForce(h, |h|), kind, sender))
  {
    var ops, st := InForce(h, |h|), Run(h);
    HoldsInForce(h);
    MatchingStores(st.subs, ops, st.dispatchers, kind, sender);
    OneDispatcherIffThread(Matching(st.subs, kind, sender), Wanted(ops, kind, sender), st.dispatchers);
  }

  /** After any history, publishing an event sends nothing when no subscription in force
      wants it, and throws with nothing sent when those that do were made in different
      threads.  Otherwise it hands one wrapper, naming their receivers in the order of
      subscription, to the dispatcher of their thread, and does so at once exactly when it
      is the publishing thread. */
  lemma PublishReaches(h: seq<Op>, thread: Thread, kind: Kind, sender: Option<Object>)
    ensures
      var wanted := Wanted(InForce(h, |h|), kind, sender);
      var st, st' := Run(h), Run(h + [Publish(thread, kind, sender)]);
      && (Throws(st, kind, sender) <==> !FromOneThread(wanted))
      && (wanted == [] || Throws(st, kind, sender) ==> st' == st)
      && (wanted != [] && !Throws(st, kind, sender) ==>
            && st' == st.(sent := st'.sent) && |st'.sent| == |st.sent| + 1 && st.sent < st'.sent
            && var w := st'.sent[|st.sent|];
               && w.kind == kind && |w.receivers| == |wanted|
               && (forall i :: 0 <= i < |wanted| ==> w.receivers[i] == wanted[i].receiver)
               && w.dispatcher < |st.dispatchers| && st.dispatchers[w.dispatcher].thread == wanted[0].thread
               && (w.atOnce <==> thread == wanted[0].thread))
  {
    var op := Publish(thread, kind, sender);
    var ops, st := InForce(h, |h|), Run(h);
    RunSnoc(h, op);
    ThrowsIff(h, kind, sender);
    HoldsInForce(h);
    MatchingStores(st.subs, ops, st.dispatchers, kind, sender);
    var ms, wanted := Matching(st.subs, kind, sender), Wanted(ops, kind, sender);
    assert forall i :: 0 <= i < |wanted| ==> Stores(ms[i], wanted[i], st.dispatchers);
    hide Matching, Wanted, InForce, DispatchersOk, OneDispatcher, FromOneThread;
  }

  /** After any history, an event sent to objects directly goes to all of them, in order,
      through the dispatcher of the last one's thread; sent to nobody it does nothing. */
  lemma SendReaches(h: seq<Op>, thread: Thread, receivers: seq<Addressee>, kind: Kind)
    ensures
      var st, st' := Run(h), Run(h + [Send(thread, receivers, kind)]);
      && st'.subs == st.subs
      && (receivers == [] ==> st' == st)
      && (receivers != [] ==>
            var home := receivers[|receivers| - 1].home;
            && |st'.sent| == |st.sent| + 1 && st.sent < st'.sent && st.dispatchers <= st'.dispatchers
            && var w := st'.sent[|st.sent|];
               && w.kind == kind && w.receivers == Objects(receivers)
               && w.dispatcher < |st'.dispatchers| && st'.dispatchers[w.dispatcher].thread == home
               && (w.atOnce <==> thread == home))
  {
    RunSnoc(h, Send(thread, receivers, kind));
    HoldsInForce(h);
    if receivers != [] {
      WithDispatcherOk(Run(h).dispatchers, receivers[|receivers| - 1].home);
    }
  }

  lemma {:induction false} WantedInForce(h: seq<Op>, n: nat, kind: Kind, sender: Option<Object>, op: Op)
    requires n <= |h| && op in Wanted(InForce(h, n), kind, sender)
    ensures exists i :: 0 <= i < n && h[i] == op && InForceAt(h, i) && Wants(op, kind, sender)
  {
    var ops := InForce(h, n);
    if n == 0 {
    } else {
      var before := InForce(h, n - 1);
      if InForceAt(h, n - 1) {
        assert ops[..|ops| - 1] == before && ops[|ops| - 1] == h[n - 1];
      } else {
        assert ops == before;
      }
      if op in Wanted(before, kind, sender) {
        WantedInForce(h, n - 1, kind, sender, op);
      }
    }
  }

  /** No wrapper that publish builds after an unsubscribe names that receiver, unless it
      subscribed again. */
  lemma NotAfterUnsubscribe(h: seq<Op>, u: nat, thread: Thread, kind: Kind, sender: Option<Object>, w: Wrapper)
    requires u < |h| && h[u].Unsubscribe?
    requires forall j :: u < j < |h| && h[j].Subscribe? ==> h[j].receiver != h[u].receiver
    requires Run(h + [Publish(thread, kind, sender)]).sent == Run(h).sent + [w]
    ensures h[u].receiver !in w.receivers
  {
    PublishReaches(h, thread, kind, sender);
    hide *;
    var wanted := Wanted(InForce(h, |h|), kind, sender);
    forall i | 0 <= i < |w.receivers| ensures w.receivers[i] != h[u].receiver {
      NotWanted(h, u, kind, sender, wanted[i]);
    }
  }

  lemma NotWanted(h: seq<Op>, u: nat, kind: Kind, sender: Option<Object>, op: Op)
    requires u < |h| && h[u].Unsubscribe?
    requires forall j :: u < j < |h| && h[j].Subscribe? ==> h[j].receiver != h[u].receiver
    requires op in Wanted(InForce(h, |h|), kind, sender)
    ensures op.Subscribe? && op.receiver != h[u].receiver
  {
    WantedInForce(h, |h|, kind, sender, op);
    var j :| 0 <= j < |h| && h[j] == op && InForceAt(h, j) && Wants(op, kind, sender);
    hide Wanted, InForce;
    assert j < u ==> h[u] != Unsubscribe(h[j].receiver);
  }

  // The bus itself.

  class Bus {
    var subscribers: seq<Subscription>
    var dispatchersByThread: seq<Dispatcher>
    var sent: seq<Wrapper>  // every wrapper ever handed on
    ghost var history: seq<Op>

    function S(): State
      reads this
    {
      State(subscribers, dispatchersByThread, sent)
    }

    /** The bus is what its history makes of it. */
    ghost predicate Valid()
      reads this
    {
      S() == Run(history)
    }

    lemma Consistent()
      requires Valid()
      ensures StateOk(S())
    {
      HoldsInForce(history);
    }

    constructor ()
      ensures Valid() && history == []
    {
      subscribers, dispatchersByThread, sent, history := [], [], [], [];
    }

    /** dispatcher(thread): find or create. */
    method DispatcherFor(thread: Thread) returns (id: nat)
      requires DispatchersOk(dispatchersByThread)
      modifies this`dispatchersByThread
      ensures dispatchersByThread == WithDispatcher(old(dispatchersByThread), thread)
      ensures id < |dispatchersByThread| && dispatchersByThread[id].thread == thread
      ensures id == IdOf(dispatchersByThread, thread)
    {
      var i := 0;
      while i < |dispatchersByThread|
        invariant 0 <= i <= |dispatchersByThread| && dispatchersByThread == old(dispatchersByThread)
        invariant forall j :: 0 <= j < i ==> dispatchersByThread[j].thread != thread
      {
        if dispatchersByThread[i].thread == thread {
          IdOfIs(dispatchersByThread, thread, i);
          return dispatchersByThread[i].id;
        }
        i := i + 1;
      }
      id := |dispatchersByThread|;
      dispatchersByThread := dispatchersByThread + [Dispatcher(thread, id)];
      IdOfIs(dispatchersByThread, thread, id);
    }

    method Subscribe(thread: Thread, receiver: Object, kind: Kind, sender: Option<Object>)
      requires Valid()
      modifies this
      ensures Valid() && history == old(history) + [Op.Subscribe(thread, receiver, kind, sender)]
    {
      Consistent();
      RunSnoc(history, Op.Subscribe(thread, receiver, kind, sender));
      var id := DispatcherFor(thread);
      subscribers := subscribers + [Subscription(kind, receiver, sender, id)];
      history := history + [Op.Subscribe(thread, receiver, kind, sender)];
    }

    /** unsubscibe: std::remove_if over the subscribers, then erase. */
    method Unsubscribe(receiver: Object)
      requires Valid()
      modifies this`subscribers, this`history
      ensures Valid() && history == old(history) + [Op.Unsubscribe(receiver)]
    {
      RunSnoc(history, Op.Unsubscribe(receiver));
      assert Others(subscribers[..0], receiver) == [];
      hide Run, Others;
      var kept := [];
      var i := 0;
      while i < |subscribers|
        invariant 0 <= i <= |subscribers| && subscribers == old(subscribers) && history == old(history)
        invariant kept == Others(subscribers[..i], receiver)
      {
        OthersSnoc(subscribers, i, receiver);
        if subscribers[i].receiver != receiver {
          kept := kept + [subscribers[i]];
        }
        i := i + 1;
      }
      assert subscribers[..i] == subscribers;
      subscribers := kept;
      history := history + [Op.Unsubscribe(receiver)];
    }

    /** The loop of publish: the receivers of the matching subscriptions, until two of
        them disagree on the dispatcher. */
    method Collect(kind: Kind, sender: Option<Object>)
          returns (thrown: bool, dis: Option<nat>, theReceivers: seq<Object>)
      ensures
        var ms := Matching(subscribers, kind, sender);
        && (thrown <==> !OneDispatcher(ms))
        && (!thrown ==> theReceivers == Receivers(ms) && dis == if ms == [] then None else Some(ms[0].dispatcher))
    {
      assert OneDispatcher([]) && Receivers([]) == [];
      hide OneDispatcher, Receivers;
      theReceivers := [];
      dis := None;
      var i := 0;
      ghost var ms := [];
      while i < |subscribers|
        invariant 0 <= i <= |subscribers| && ms == Matching(subscribers[..i], kind, sender)
        invariant theReceivers == Receivers(ms) && OneDispatcher(ms)
        invariant if ms == [] then dis == None else dis == Some(ms[0].dispatcher)
      {
        var item := subscribers[i];
        assert subscribers[..i + 1][..i] == subscribers[..i];
        if item.kind == kind && (item.sender.None? || item.sender == sender) {
          theReceivers := theReceivers + [item.receiver];
          OneMore(ms, item);
          ms := ms + [item];
          if dis.Some? && dis.value != item.dispatcher {
            MatchingPrefix(subscribers, kind, sender, i + 1);
            MoreThanOne(ms, Matching(subscribers, kind, sender));
            return true, dis, theReceivers;
          }
          dis := Some(item.dispatcher);
        }
        i := i + 1;
      }
      assert subscribers[..i] == subscribers;
      thrown := false;
    }

    /** publish: throws, with nothing sent, exactly when the subscriptions in force that
        want the event were made in different threads. */
    method Publish(thread: Thread, kind: Kind, sender: Option<Object>) returns (thrown: bool)
      requires Valid()
      modifies this`sent, this`history
      ensures Valid() && history == old(history) + [Op.Publish(thread, kind, sender)]
      ensures thrown <==> !FromOneThread(Wanted(InForce(old(history), |old(history)|), kind, sender))
      ensures thrown ==> sent == old(sent)
    {
      Consistent();
      RunSnoc(history, Op.Publish(thread, kind, sender));
      ThrowsIff(history, kind, sender);
      hide OneDispatcher, Receivers, Matching, Run, Wanted, InForce, FromOneThread, DispatchersOk;
      var dis, theReceivers;
      thrown, dis, theReceivers := Collect(kind, sender);
      if !thrown && dis.Some? {
        ghost var ms := Matching(subscribers, kind, sender);
        MatchingFrom(subscribers, kind, sender, ms[0]);
        SendEvent(dis.value, kind, theReceivers, thread);
      }
      history := history + [Op.Publish(thread, kind, sender)];
    }

    /** send(receiver, event), where the receiver may be null. */
    method SendOne(thread: Thread, receiver: Option<Addressee>, kind: Kind)
      requires Valid()
      modifies this
      ensures Valid()
      ensures history == old(history) + [Send(thread, if receiver.Some? then [receiver.value] else [], kind)]
    {
      Consistent();
      ghost var op := Send(thread, if receiver.Some? then [receiver.value] else [], kind);
      RunSnoc(history, op);
      history := history + [op];
      if receiver.None? {
        return;
      }
      var dis := DispatcherFor(receiver.value.home);
      assert Objects([receiver.value]) == [receiver.value.target];
      SendEvent(dis, kind, [receiver.value.target], thread);
    }

    /** send(receivers, event) */
    method SendAll(thread: Thread, receivers: seq<Addressee>, kind: Kind)
      requires Valid()
      modifies this
      ensures Valid() && history == old(history) + [Send(thread, receivers, kind)]
    {
      Consistent();
      RunSnoc(history, Send(thread, receivers, kind));
      history := history + [Send(thread, receivers, kind)];
      if |receivers| == 0 {
        return;
      }
      var dis := DispatcherFor(receivers[|receivers| - 1].home);
      SendEvent(dis, kind, Objects(receivers), thread);
    }

    /** sendEvent */
    method SendEvent(dispatcher: nat, kind: Kind, receivers: seq<Object>, thread: Thread)
      requires dispatcher < |dispatchersByThread|
      modifies this`sent
      ensures S() == SentTo(old(S()), dispatcher, kind, receivers, thread)
    {
      sent := sent + [Wrapper(dispatcher, kind, receivers, dispatchersByThread[dispatcher].thread == thread)];
    }
  }
}
