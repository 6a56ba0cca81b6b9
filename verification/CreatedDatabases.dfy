/**
 MongoWorker's list of databases: what the server reports, plus the databases created
 here that the server does not show because they are still empty.
 */
module CreatedDatabases {
  import opened Wrappers

  /** Requests with the server's answers; `names` is None when listing failed. */
  datatype Op =
    | Create(name: string, ok: bool)
    | Drop(name: string, ok: bool)
    | Listing(names: Option<seq<string>>)

  /** The user: an administrator or not, and the database of an enabled primary
      credential, or "". */
  datatype User = User(isAdmin: bool, authBase: string)

  /** getDatabaseNamesSafe */
  function SafeNames(user: User, names: Option<seq<string>>): seq<string> {
    if !user.isAdmin && user.authBase != "" then [user.authBase]
    else if names.Some? then names.value
    else if user.authBase != "" then [user.authBase]
    else []
  }

  function Elems(s: seq<string>): set<string> {
    set n | n in s
  }

  lemma ElemsSnoc(s: seq<string>, n: string)
    ensures Elems(s + [n]) == Elems(s) + {n}
  {
    assert forall x :: x in s + [n] <==> x in s || x == n;
  }

  function Next(created: set<string>, user: User, op: Op): set<string> {
    match op
    case Create(name, ok) => if ok then created + {name} else created
    case Drop(name, ok) => if ok then created - {name} else created
    case Listing(names) => created - Elems(SafeNames(user, names))
  }

  function After(user: User, h: seq<Op>): set<string> {
    if h == [] then {} else Next(After(user, h[..|h| - 1]), user, h[|h| - 1])
  }

  lemma AfterSnoc(user: User, h: seq<Op>, op: Op)
    ensures After(user, h + [op]) == Next(After(user, h), user, op)
  {
    assert (h + [op])[..|h|] == h;
  }

  /** Created successfully at step i and neither dropped nor listed by the server since. */
  predicate HiddenSince(user: User, h: seq<Op>, i: nat, name: string)
    requires i < |h|
  {
    && h[i] == Create(name, true)
    && forall j :: i < j < |h| ==>
         h[j] != Drop(name, true) && (h[j].Listing? ==> name !in SafeNames(user, h[j].names))
  }

  predicate Hidden(user: User, h: seq<Op>, name: string) {
    exists i :: 0 <= i < |h| && HiddenSince(user, h, i, name)
  }

  /** After any sequence of requests with any answers, the set kept by the worker is
      exactly that of the hidden databases. */
  lemma {:induction false} KeepsHidden(user: User, h: seq<Op>, name: string)
    ensures name in After(user, h) <==> Hidden(user, h, name)
  {
    if h == [] {
    } else {
      var before, op := h[..|h| - 1], h[|h| - 1];
      KeepsHidden(user, before, name);
      var lifted := op == Drop(name, true) || (op.Listing? && name in SafeNames(user, op.names));
      if Hidden(user, before, name) && !lifted {
        var i :| 0 <= i < |before| && HiddenSince(user, before, i, name);
        assert forall j :: 0 <= j < |before| ==> before[j] == h[j];
        assert HiddenSince(user, h, i, name);
      }
      if Hidden(user, h, name) && op != Create(name, true) {
        var i :| 0 <= i < |h| && HiddenSince(user, h, i, name);
        assert forall j :: 0 <= j < |before| ==> before[j] == h[j];
        assert HiddenSince(user, before, i, name);
      }
      if op == Create(name, true) {
        assert HiddenSince(user, h, |h| - 1, name);
      }
    }
  }

  ghost predicate NoDuplicates(s: seq<string>) {
    forall i, j :: 0 <= i < j < |s| ==> s[i] != s[j]
  }

  /** A list shows the server's names in their order, then each hidden name once. */
  ghost predicate Shows(shown: seq<string>, listed: seq<string>, hidden: set<string>) {
    && listed <= shown && NoDuplicates(shown[|listed|..])
    && Elems(shown[|listed|..]) == hidden
  }

  /** The list shown after any history: the server's names, and exactly the hidden
      databases it does not name itself; without duplicates if the server's has none. */
  lemma ListingShows(user: User, h: seq<Op>, names: Option<seq<string>>, shown: seq<string>)
    requires Shows(shown, SafeNames(user, names), Next(After(user, h), user, Listing(names)))
    ensures forall n :: n in shown <==> n in SafeNames(user, names) || Hidden(user, h, n)
    ensures NoDuplicates(SafeNames(user, names)) ==> NoDuplicates(shown)
  {
    var listed := SafeNames(user, names);
    var tail := shown[|listed|..];
    assert shown == listed + tail;
    var hidden := Next(After(user, h), user, Listing(names));
    forall n ensures n in shown <==> n in listed || Hidden(user, h, n) {
      KeepsHidden(user, h, n);
      assert n in tail <==> n in hidden;
    }
    assert forall i :: 0 <= i < |tail| ==> tail[i] in hidden;
  }

  class Worker {
    const user: User
    var createdDbs: set<string>
    ghost var history: seq<Op>

    /** The worker keeps what its history of requests and answers makes of it. */
    ghost predicate Valid()
      reads this
    {
      createdDbs == After(user, history)
    }

    constructor (user: User)
      ensures Valid() && this.user == user && history == []
    {
      this.user := user;
      createdDbs, history := {}, [];
    }

    method HandleCreate(name: string, ok: bool)
      requires Valid()
      modifies this
      ensures Valid() && history == old(history) + [Create(name, ok)]
    {
      AfterSnoc(user, history, Create(name, ok));
      history := history + [Create(name, ok)];
      if ok {
        createdDbs := createdDbs + {name};
      }
    }

    method HandleDrop(name: string, ok: bool)
      requires Valid()
      modifies this
      ensures Valid() && history == old(history) + [Drop(name, ok)]
    {
      AfterSnoc(user, history, Drop(name, ok));
      history := history + [Drop(name, ok)];
      if ok {
        createdDbs := createdDbs - {name};
      }
    }

    /** handle(LoadDatabaseNamesRequest): the names to show, or None for an error reply.
        The order of the created ones is that of an unordered set. */
    method HandleList(names: Option<seq<string>>) returns (reply: Option<seq<string>>)
      requires Valid()
      modifies this
      ensures Valid() && history == old(history) + [Listing(names)]
      ensures
        var listed :=
          if !user.isAdmin && user.authBase != "" then [user.authBase]  // no right to list
          else if names.Some? then names.value
          else if user.authBase != "" then [user.authBase]              // the listing failed
          else [];
        && (reply.None? <==> listed == [] && forall n :: !Hidden(user, old(history), n))
        && (reply.Some? ==>
              && listed <= reply.value
              && (forall n :: n in reply.value <==> n in listed || Hidden(user, old(history), n))
              && (NoDuplicates(listed) ==> NoDuplicates(reply.value)))
    {
      ghost var h := history;
      AfterSnoc(user, history, Listing(names));
      reply := Merge(names);
      history := history + [Listing(names)];
      if reply.Some? {
        ListingShows(user, h, names, reply.value);
      } else {
        assert After(user, h) - Elems([]) == After(user, h);
        forall n ensures !Hidden(user, h, n) {
          KeepsHidden(user, h, n);
        }
      }
      if exists n :: Hidden(user, h, n) {
        var n :| Hidden(user, h, n);
        KeepsHidden(user, h, n);
      }
    }

    /** The two loops over the names. */
    method Merge(names: Option<seq<string>>) returns (reply: Option<seq<string>>)
      modifies this`createdDbs
      ensures createdDbs == Next(old(createdDbs), user, Listing(names))
      ensures reply.None? <==> SafeNames(user, names) == [] && createdDbs == {}
      ensures reply.Some? ==> Shows(reply.value, SafeNames(user, names), createdDbs)
    {
      var dbNames := SafeNames(user, names);
      ghost var listed := dbNames;
      var i := 0;
      while i < |dbNames|
        invariant 0 <= i <= |dbNames|
        invariant createdDbs == old(createdDbs) - Elems(dbNames[..i])
      {
        assert dbNames[..i + 1] == dbNames[..i] + [dbNames[i]];
        ElemsSnoc(dbNames[..i], dbNames[i]);
        if dbNames[i] in createdDbs {
          createdDbs := createdDbs - {dbNames[i]};
        }
        i := i + 1;
      }
      assert dbNames[..i] == dbNames;
      var rest := createdDbs;
      ghost var tail := [];
      while rest != {}
        invariant rest <= createdDbs && createdDbs == old(createdDbs) - Elems(listed)
        invariant dbNames == listed + tail && NoDuplicates(tail)
        invariant Elems(tail) == createdDbs - rest
        decreases rest
      {
        var name :| name in rest;
        rest := rest - {name};
        dbNames := dbNames + [name];
        ElemsSnoc(tail, name);
        tail := tail + [name];
      }
      assert dbNames[..|listed|] == listed && dbNames[|listed|..] == tail;
      assert tail != [] ==> tail[0] in Elems(tail);
      reply := if |dbNames| > 0 then Some(dbNames) else None;
    }
  }
}
