/**
 SettingsManager: importing the connections of version 0.8.5 beside the existing ones.
 */
module SettingsImport {
  import opened Variants
  import opened ConnectionSettings

  /** All of it in one value. */
  datatype Key = Key(
    port: int, host: string, database: string,
    authDatabase: string, userName: string, userPassword: string, authEnabled: bool,
    sshEnabled: bool, sshPort: int, sshHost: string, sshKey: string, sshPassword: string, sshUser: string)

  /** The credential looked at first, or an empty one. */
  function FirstCredential(c: Connection): Credential {
    if c.credentials == [] then Credential("", "", "", "", false) else c.credentials[0]
  }

  /** What two connections have to agree on to count as similar. */
  predicate Similar(a: Connection, b: Connection) {
    && a.port == b.port && a.host == b.host && a.database == b.database
    && (var p, q := FirstCredential(a), FirstCredential(b);
        && p.Database() == q.Database() && p.userName == q.userName && p.userPassword == q.userPassword
        && p.enabled == q.enabled)
    && a.ssh.enabled == b.ssh.enabled && a.ssh.port == b.ssh.port && a.ssh.host == b.ssh.host
    && a.ssh.privateKeyFile == b.ssh.privateKeyFile && a.ssh.userPassword == b.ssh.userPassword
    && a.ssh.userName == b.ssh.userName
  }

  ghost predicate HasSimilar(c: Connection, cs: seq<Connection>) {
    exists i :: 0 <= i < |cs| && Similar(c, cs[i])
  }

  lemma SimilarIff(a: Connection, b: Connection)
    ensures Similar(a, b) <==> KeyOf(a) == KeyOf(b)
  {
  }

  /** A key stands in a list exactly when a similar connection does. */
  lemma HasSimilarIff(c: Connection, cs: seq<Connection>)
    ensures HasSimilar(c, cs) <==> KeyOf(c) in KeysOf(cs)
  {
    hide Similar, KeyOf;
    forall i | 0 <= i < |cs| ensures Similar(c, cs[i]) <==> KeyOf(c) == KeysOf(cs)[i] {
      SimilarIff(c, cs[i]);
    }
  }

  function KeyOf(c: Connection): Key {
    var p := Primary(c.credentials);
    Key(c.port, c.host, c.database, p.Database(), p.userName, p.userPassword, p.enabled,
        c.ssh.enabled, c.ssh.port, c.ssh.host, c.ssh.privateKeyFile, c.ssh.userPassword, c.ssh.userName)
  }

  /** Equal, or equal but for the empty credential that looking at it inserts. */
  predicate LazilySame(a: Connection, b: Connection) {
    b == a || b == a.(credentials := WithPrimary(a.credentials))
  }

  lemma LazyKey(a: Connection, b: Connection)
    requires LazilySame(a, b)
    ensures KeyOf(a) == KeyOf(b)
  {
  }

  lemma LazyTrans(a: Connection, b: Connection, c: Connection)
    requires LazilySame(a, b) && LazilySame(b, c)
    ensures LazilySame(a, c)
  {
  }

  /** Being looked at changes what a connection saves exactly when it had no credential. */
  lemma LookingShowsInSave(c: Connection)
    ensures Saved(c.(credentials := WithPrimary(c.credentials))) == Saved(c) <==> c.credentials != []
  {
    var d := c.(credentials := WithPrimary(c.credentials));
    if c.credentials != [] {
      assert d == c;
    } else {
      hide SavedSsh, SavedSsl, Saved;
      SavedPartsAt(c);
      SavedPartsAt(d);
      assert |SavedCredentials(d.credentials)| == 1 && |SavedCredentials(c.credentials)| == 0;
    }
  }

  // A connection as version 0.8.5 saved it.

  function OldCredential(v: Variant): Credential {
    var m := ToMap(v);
    Credential(ToText(At(m, "userName")), ToText(At(m, "userPassword")), ToText(At(m, "databaseName")), "MONGODB-CR",
               ToFlag(At(m, "enabled")))
  }

  function OldSsh(m: map<string, Variant>): Ssh {
    if "sshAuthMethod" !in m then NEW_SSH
    else
      var auth := ToNumber(m["sshAuthMethod"]);
      NEW_SSH.(host := ToText(At(m, "sshHost")), userName := ToText(At(m, "sshUserName")),
               port := ToNumber(At(m, "sshPort")),
               userPassword := ToText(At(m, "sshUserPassword")), publicKeyFile := ToText(At(m, "sshPublicKey")),
               privateKeyFile := ToText(At(m, "sshPrivateKey")), passphrase := ToText(At(m, "sshPassphrase")),
               enabled := auth == 1 || auth == 2, authMethod := if auth == 2 then "publickey" else "password")
  }

  /** The guard tests the key sshEnabled and the value read is enabled, as in the source. */
  function OldSsl(m: map<string, Variant>): Ssl {
    if "sshEnabled" !in m then NEW_SSL
    else NEW_SSL.(sslEnabled := ToFlag(At(m, "enabled")), pemKeyFile := ToText(At(m, "sslPemKeyFile")))
  }

  function OldCredentials(vs: seq<Variant>): seq<Credential> {
    seq(|vs|, i requires 0 <= i < |vs| => OldCredential(vs[i]))
  }

  function FromOld(m: map<string, Variant>): Connection {
    NEW_CONNECTION.(
      imported := true, name := ToText(At(m, "connectionName")), host := Left(ToText(At(m, "serverHost")), MAX_HOST),
      port := ToNumber(At(m, "serverPort")), database := ToText(At(m, "defaultDatabase")),
      ssh := OldSsh(m), ssl := OldSsl(m), credentials := AddedAll([], OldCredentials(ToList(At(m, "credentials")))))
  }

  /** Which entry of an old record each part of the new connection comes from; everything the
      old version did not have is as in new settings. */
  lemma OldRecord(m: map<string, Variant>)
    ensures
      var c := FromOld(m);
      var host := ToText(At(m, "serverHost"));
      && c.imported && c.name == ToText(At(m, "connectionName"))
      && c.host == (if |host| <= 300 then host else host[..300])
      && c.port == ToNumber(At(m, "serverPort")) && c.database == ToText(At(m, "defaultDatabase"))
      && !c.isReplicaSet && c.replicaSet == NEW_CONNECTION.replicaSet && c.uuid == ""
      && c.ssl == (if "sshEnabled" in m
                   then Ssl(ToFlag(At(m, "enabled")), "", false, ToText(At(m, "sslPemKeyFile")), "", false, "", false,
                            false, false)
                   else Ssl(false, "", false, "", "", false, "", false, false, false))
  {
    hide OldSsh, OldCredentials, AddedAll;
  }

  /** Of an old record's credentials, the first for each database is taken over, with the
      mechanism that version used. */
  lemma OldRecordCredentials(m: map<string, Variant>, c: Credential)
    ensures
      var vs := ToList(At(m, "credentials"));
      && Distinct(FromOld(m).credentials) && |OldCredentials(vs)| == |vs|
      && (c in FromOld(m).credentials <==> IsFirst(OldCredentials(vs), c))
      && forall i :: 0 <= i < |vs| ==>
           var e := ToMap(vs[i]);
           OldCredentials(vs)[i] == Credential(ToText(At(e, "userName")), ToText(At(e, "userPassword")),
                                               ToText(At(e, "databaseName")), "MONGODB-CR", ToFlag(At(e, "enabled")))
  {
    hide IsFirst, AddedAll;
    var cs := OldCredentials(ToList(At(m, "credentials")));
    AddedAllExact([], cs);
    AddedAllFirst([], cs, c);
    assert [] + cs == cs;
  }

  // What an import does to the list, seen through keys.

  function WithKey(keys: seq<Key>, k: Key): seq<Key> {
    if k in keys then keys else keys + [k]
  }

  function WithKeys(keys: seq<Key>, more: seq<Key>): seq<Key>
    decreases |more|
  {
    if more == [] then keys else WithKeys(WithKey(keys, more[0]), more[1..])
  }

  function OldKeys(vs: seq<map<string, Variant>>): seq<Key> {
    seq(|vs|, i requires 0 <= i < |vs| => KeyOf(FromOld(vs[i])))
  }

  /** The existing list stays in front, everything old is represented, and what is added
      is similar neither to anything before it nor to each other. */
  lemma {:induction false} ImportSound(keys: seq<Key>, more: seq<Key>)
    ensures keys <= WithKeys(keys, more)
    ensures forall k :: k in WithKeys(keys, more) <==> k in keys || k in more
    ensures forall i, j :: 0 <= i < j < |WithKeys(keys, more)| && |keys| <= j ==>
              WithKeys(keys, more)[i] != WithKeys(keys, more)[j]
    decreases |more|
  {
    if more == [] {
    } else {
      ImportSound(WithKey(keys, more[0]), more[1..]);
      assert more == [more[0]] + more[1..];
    }
  }

  /** Importing again, or importing any part again, adds nothing. */
  lemma {:induction false} ImportIdempotent(keys: seq<Key>, more: seq<Key>)
    ensures WithKeys(keys, more) == keys <==> forall k :: k in more ==> k in keys
    decreases |more|
  {
    if more == [] {
    } else {
      ImportSound(WithKey(keys, more[0]), more[1..]);
      ImportIdempotent(WithKey(keys, more[0]), more[1..]);
      assert more == [more[0]] + more[1..];
    }
  }

  lemma ImportTwice(keys: seq<Key>, more: seq<Key>)
    ensures WithKeys(WithKeys(keys, more), more) == WithKeys(keys, more)
  {
    ImportSound(keys, more);
    ImportIdempotent(WithKeys(keys, more), more);
  }

  /** The SSH part of an old record, setter by setter.  A tunnel is used exactly for the
      methods 1 and 2 and with a key exactly for 2; what the old version did not have stays
      as in new settings, and so does everything when the record has no method. */
  method ReadOldSsh(m: map<string, Variant>) returns (ssh: Ssh)
    ensures ssh == OldSsh(m)
    ensures "sshAuthMethod" in m ==>
              && ssh.host == ToText(At(m, "sshHost")) && ssh.port == ToNumber(At(m, "sshPort"))
              && ssh.userName == ToText(At(m, "sshUserName")) && ssh.userPassword == ToText(At(m, "sshUserPassword"))
              && ssh.publicKeyFile == ToText(At(m, "sshPublicKey"))
              && ssh.privateKeyFile == ToText(At(m, "sshPrivateKey"))
              && ssh.passphrase == ToText(At(m, "sshPassphrase"))
    ensures ssh.enabled <==> "sshAuthMethod" in m && 1 <= ToNumber(m["sshAuthMethod"]) <= 2
    ensures ssh.enabled ==> (ssh.Method() == "publickey" <==> ToNumber(m["sshAuthMethod"]) == 2)
    ensures ssh.askPassword == NEW_SSH.askPassword && ssh.askedPassword == NEW_SSH.askedPassword
    ensures ssh.logLevel == NEW_SSH.logLevel && ("sshAuthMethod" !in m ==> ssh == NEW_SSH)
  {
    ssh := NEW_SSH;
    if "sshAuthMethod" in m {
      ssh := ssh.(host := ToText(At(m, "sshHost")));
      ssh := ssh.(userName := ToText(At(m, "sshUserName")));
      ssh := ssh.(port := ToNumber(At(m, "sshPort")));
      ssh := ssh.(userPassword := ToText(At(m, "sshUserPassword")));
      ssh := ssh.(publicKeyFile := ToText(At(m, "sshPublicKey")));
      ssh := ssh.(privateKeyFile := ToText(At(m, "sshPrivateKey")));
      ssh := ssh.(passphrase := ToText(At(m, "sshPassphrase")));
      var auth := ToNumber(At(m, "sshAuthMethod"));
      ssh := ssh.(enabled := auth == 1 || auth == 2);
      ssh := ssh.(authMethod := if auth == 2 then "publickey" else "password");
    }
  }

  /** A new settings object for an old record. */
  method ReadOld(m: map<string, Variant>) returns (conn: Settings)
    ensures fresh(conn) && conn.Valid() && conn.Value() == FromOld(m)
  {
    hide OldSsh, OldSsl, AddedAll, OldCredentials;
    conn := new Settings();
    conn.imported := true;
    conn.connectionName := ToText(At(m, "connectionName"));
    conn.host := Left(ToText(At(m, "serverHost")), MAX_HOST);
    conn.port := ToNumber(At(m, "serverPort"));
    conn.defaultDatabase := ToText(At(m, "defaultDatabase"));
    var ssh := ReadOldSsh(m);
    conn.ssh := ssh;
    conn.ssl := OldSsl(m);
    conn.AddCredentials(OldCredentials(ToList(At(m, "credentials"))));
  }

  class Manager {
    var connections: seq<Settings>

    ghost predicate Valid()
      reads this, connections
    {
      AllDistinct(Values())
    }

    ghost function Values(): seq<Connection>
      reads this, connections
    {
      seq(|connections|, i requires 0 <= i < |connections| reads this, connections => connections[i].Value())
    }

    ghost function Keys(): seq<Key>
      reads this, connections
    {
      KeysOf(Values())
    }

    /** Is there a similar connection?  Looking may insert empty credentials, in the
        connections of the list and in the new one. */
    method FindSimilar(conn: Settings) returns (matched: bool)
      requires Valid() && conn.Valid() && conn !in connections
      modifies conn, connections
      ensures Valid() && conn.Valid()
      ensures matched <==> KeyOf(old(conn.Value())) in old(Keys())
      ensures matched <==> HasSimilar(old(conn.Value()), old(Values()))
      ensures LazilySame(old(conn.Value()), conn.Value())
      ensures AllLazilySame(old(Values()), Values())
    {
      ghost var c, cs := conn.Value(), Values();
      AllLazilySameRefl(cs);
      assert LazilySame(c, c);
      HasSimilarIff(c, cs);
      hide KeyOf, LazilySame, Distinct, AllDistinct, AllLazilySame, Similar;
      matched := false;
      var i := 0;
      while i < |connections|
        invariant 0 <= i <= |connections| && Valid() && conn.Valid()
        invariant LazilySame(c, conn.Value()) && AllLazilySame(cs, Values())
        invariant forall j :: 0 <= j < i ==> !Similar(c, cs[j])
      {
        matched := SimilarAt(conn, i, c, cs);
        if matched {
          break;
        }
        i := i + 1;
      }
    }

    /** One comparison of the matching loop, with what was there before the first one. */
    method SimilarAt(conn: Settings, i: nat, ghost c: Connection, ghost cs: seq<Connection>) returns (similar: bool)
      requires Valid() && conn.Valid() && conn !in connections && i < |connections|
      requires LazilySame(c, conn.Value()) && AllLazilySame(cs, Values())
      modifies conn, connections
      ensures Valid() && conn.Valid()
      ensures similar <==> Similar(c, cs[i])
      ensures LazilySame(c, conn.Value()) && AllLazilySame(cs, Values())
    {
      hide KeyOf, LazilySame, Distinct, AllDistinct, Similar;
      ghost var now, was := Values(), conn.Value();
      assert Distinct(now[i].credentials) by {
        DistinctAt(now, i);
      }
      LazyKey(c, was);
      LazyKey(cs[i], now[i]);
      SimilarIff(c, cs[i]);
      SimilarIff(was, now[i]);
      similar := SimilarTo(conn, connections[i]);
      LazyTrans(c, was, conn.Value());
      assert AllLazilySame(now, Values()) by {
        forall j | 0 <= j < |now| ensures LazilySame(now[j], Values()[j]) {
          LazyRefl(now[j]);
        }
      }
      LazyStep(cs, now, Values());
      LazyDistinct(now, Values());
    }

    /** The comparisons of the matching loop, in their order. */
    method SimilarTo(conn: Settings, econn: Settings) returns (similar: bool)
      requires conn != econn && conn.Valid() && econn.Valid()
      modifies conn`credentials, econn`credentials
      ensures conn.Valid() && econn.Valid()
      ensures similar <==> KeyOf(old(conn.Value())) == KeyOf(old(econn.Value()))
      ensures similar <==> Similar(old(conn.Value()), old(econn.Value()))
      ensures LazilySame(old(conn.Value()), conn.Value()) && LazilySame(old(econn.Value()), econn.Value())
    {
      if conn.port != econn.port || conn.host != econn.host || conn.defaultDatabase != econn.defaultDatabase {
        return false;
      }
      var cred := conn.PrimaryCredential();
      var ecred := econn.PrimaryCredential();
      if cred.Database() != ecred.Database() || cred.userName != ecred.userName
         || cred.userPassword != ecred.userPassword || cred.enabled != ecred.enabled {
        return false;
      }
      var ssh, essh := conn.ssh, econn.ssh;
      return ssh.enabled == essh.enabled && ssh.port == essh.port && ssh.host == essh.host
          && ssh.privateKeyFile == essh.privateKeyFile && ssh.userPassword == essh.userPassword
          && ssh.userName == essh.userName;
    }

    method ImportOne(v: map<string, Variant>)
      requires Valid()
      modifies this, connections
      ensures Valid()
      ensures Keys() == WithKey(old(Keys()), KeyOf(FromOld(v)))
      ensures old(connections) <= connections && |connections| <= |old(connections)| + 1
      ensures AllLazilySame(old(Values()), Values()[..|old(connections)|])
      ensures |connections| > |old(connections)| ==>
                fresh(connections[|old(connections)|]) && LazilySame(FromOld(v), Values()[|old(connections)|])
    {
      hide FromOld, LazilySame, KeyOf;
      var conn := ReadOld(v);
      ghost var before := Values();
      var matched := FindSimilar(conn);
      LazyKeys(before, Values());
      LazyKey(FromOld(v), conn.Value());
      if !matched {
        ghost var now := Values();
        connections := connections + [conn];
        assert Values() == now + [conn.Value()];
        assert Values()[..|old(connections)|] == Values()[..|before|];
        assert Keys() == KeysOf(before) + [KeyOf(FromOld(v))];
      } else {
        assert Values()[..|before|] == Values();
      }
    }

    /** importConnectionsFrom_0_8_5, from the parsed list on. */
    method Import(vconns: seq<map<string, Variant>>)
      requires Valid()
      modifies this, connections
      ensures Valid()
      ensures Keys() == WithKeys(old(Keys()), OldKeys(vconns))
      ensures old(connections) <= connections
      ensures AllLazilySame(old(Values()), Values()[..|old(connections)|])
      ensures forall k :: |old(connections)| <= k < |connections| ==> Stems(Values()[k], vconns)
      ensures forall j :: 0 <= j < |vconns| ==> HasSimilar(FromOld(vconns[j]), Values())
      ensures forall i, k :: 0 <= i < k < |connections| && |old(connections)| <= k ==>
                !Similar(Values()[i], Values()[k])
      ensures connections == old(connections) <==>
                forall j :: 0 <= j < |vconns| ==> HasSimilar(FromOld(vconns[j]), old(Values()))
    {
      hide FromOld, LazilySame, KeyOf, OldKeys, WithKey, Stems, Similar, HasSimilar;
      var n := |connections|;
      ghost var before := Values();
      AllLazilySameRefl(before);
      assert before[..n] == before;
      assert vconns[0..] == vconns;
      var i := 0;
      while i < |vconns|
        invariant 0 <= i <= |vconns| && Valid() && old(connections) <= connections
        invariant forall k :: n <= k < |connections| ==> fresh(connections[k])
        invariant AllLazilySame(before, Values()[..n])
        invariant forall k :: n <= k < |connections| ==> Stems(Values()[k], vconns)
        invariant WithKeys(Keys(), OldKeys(vconns[i..])) == WithKeys(KeysOf(before), OldKeys(vconns))
      {
        ghost var now := Values();
        OldKeysStep(vconns, i);
        ImportOne(vconns[i]);
        ImportKeeps(before, now, Values(), n, vconns, i);
        i := i + 1;
      }
      NoOldKeys(vconns);
      ImportMeans(before, Values(), vconns);
    }

    /** A second import of the same records, even after others, adds no connection. */
    method ImportAgain(vconns: seq<map<string, Variant>>, ghost before: seq<Key>)
      requires Valid() && WithKeys(before, OldKeys(vconns)) <= Keys()
      modifies this, connections
      ensures Valid() && connections == old(connections)
    {
      hide KeyOf, OldKeys, WithKeys;
      ImportSound(before, OldKeys(vconns));
      ghost var keys := Keys();
      forall k | k in OldKeys(vconns) ensures k in keys {
        assert k in WithKeys(before, OldKeys(vconns));
      }
      ImportIdempotent(keys, OldKeys(vconns));
      Import(vconns);
      assert |connections| == |Keys()| == |keys|;
    }
  }

  /** The import on connections: every old record is represented by a similar one, none that was
      added is similar to one before it, and nothing is added exactly when every record was
      represented already. */
  lemma ImportMeans(before: seq<Connection>, after: seq<Connection>, vconns: seq<map<string, Variant>>)
    requires KeysOf(after) == WithKeys(KeysOf(before), OldKeys(vconns))
    ensures forall j :: 0 <= j < |vconns| ==> HasSimilar(FromOld(vconns[j]), after)
    ensures forall i, k :: 0 <= i < k < |after| && |before| <= k ==> !Similar(after[i], after[k])
    ensures |before| <= |after|
    ensures |after| == |before| <==> forall j :: 0 <= j < |vconns| ==> HasSimilar(FromOld(vconns[j]), before)
  {
    hide FromOld, KeyOf, Similar, HasSimilar, WithKeys;
    var keys, more := KeysOf(before), OldKeys(vconns);
    ImportSound(keys, more);
    ImportIdempotent(keys, more);
    forall j | 0 <= j < |vconns|
      ensures HasSimilar(FromOld(vconns[j]), after) && (HasSimilar(FromOld(vconns[j]), before) <==> more[j] in keys)
    {
      HasSimilarIff(FromOld(vconns[j]), after);
      HasSimilarIff(FromOld(vconns[j]), before);
      assert more[j] in more;
    }
    forall i, k | 0 <= i < k < |after| && |before| <= k ensures !Similar(after[i], after[k]) {
      SimilarIff(after[i], after[k]);
      assert KeysOf(after)[i] != KeysOf(after)[k];
    }
    if |after| == |before| {
      assert KeysOf(after) == keys;
    }
  }

  /** A connection made from one of the old records. */
  ghost predicate Stems(c: Connection, vconns: seq<map<string, Variant>>) {
    exists j :: 0 <= j < |vconns| && LazilySame(FromOld(vconns[j]), c)
  }

  ghost predicate AllDistinct(cs: seq<Connection>) {
    forall i :: 0 <= i < |cs| ==> Distinct(cs[i].credentials)
  }

  /** Looking keeps the databases distinct. */
  lemma LazyDistinct(a: seq<Connection>, b: seq<Connection>)
    requires AllLazilySame(a, b) && AllDistinct(a)
    ensures AllDistinct(b)
  {
  }

  lemma DistinctAt(cs: seq<Connection>, i: nat)
    requires AllDistinct(cs) && i < |cs|
    ensures Distinct(cs[i].credentials)
  {
  }

  lemma LazyRefl(c: Connection)
    ensures LazilySame(c, c)
  {
  }

  lemma LazyStep(a: seq<Connection>, b: seq<Connection>, c: seq<Connection>)
    requires AllLazilySame(a, b) && AllLazilySame(b, c)
    ensures AllLazilySame(a, c)
  {
    forall i | 0 <= i < |a| ensures LazilySame(a[i], c[i]) {
      LazyTrans(a[i], b[i], c[i]);
    }
  }

  lemma AllLazilySameRefl(a: seq<Connection>)
    ensures AllLazilySame(a, a)
  {
  }

  lemma LazyKeys(a: seq<Connection>, b: seq<Connection>)
    requires AllLazilySame(a, b)
    ensures KeysOf(a) == KeysOf(b)
  {
    forall i | 0 <= i < |a| ensures KeyOf(a[i]) == KeyOf(b[i]) {
      LazyKey(a[i], b[i]);
    }
  }

  lemma OldKeysStep(vconns: seq<map<string, Variant>>, i: nat)
    requires i < |vconns|
    ensures OldKeys(vconns[i..]) != [] && OldKeys(vconns[i..])[0] == KeyOf(FromOld(vconns[i]))
    ensures OldKeys(vconns[i..])[1..] == OldKeys(vconns[i + 1..])
  {
    hide KeyOf, FromOld;
    var a, b := OldKeys(vconns[i..]), OldKeys(vconns[i + 1..]);
    assert |a| == |b| + 1 && forall k :: 0 <= k < |b| ==> a[1..][k] == b[k];
  }

  lemma NoOldKeys(vconns: seq<map<string, Variant>>)
    ensures OldKeys(vconns[|vconns|..]) == []
  {
  }

  lemma ImportKeeps(before: seq<Connection>, now: seq<Connection>, after: seq<Connection>, n: nat,
        vconns: seq<map<string, Variant>>, i: nat)
    requires n <= |now| <= |after| <= |now| + 1 && i < |vconns|
    requires AllLazilySame(before, now[..n]) && AllLazilySame(now, after[..|now|])
    requires forall k :: n <= k < |now| ==> Stems(now[k], vconns)
    requires |after| > |now| ==> LazilySame(FromOld(vconns[i]), after[|now|])
    ensures AllLazilySame(before, after[..n])
    ensures forall k :: n <= k < |after| ==> Stems(after[k], vconns)
  {
    hide FromOld, LazilySame;
    forall k | 0 <= k < n ensures LazilySame(before[k], after[k]) {
      assert now[..n][k] == now[k] && after[..|now|][k] == after[k];
      LazyTrans(before[k], now[k], after[k]);
    }
    forall k | n <= k < |after| ensures Stems(after[k], vconns) {
      if k < |now| {
        var j :| 0 <= j < |vconns| && LazilySame(FromOld(vconns[j]), now[k]);
        assert after[..|now|][k] == after[k];
        LazyTrans(FromOld(vconns[j]), now[k], after[k]);
      }
    }
  }

  function KeysOf(cs: seq<Connection>): seq<Key> {
    seq(|cs|, i requires 0 <= i < |cs| => KeyOf(cs[i]))
  }

  ghost predicate AllLazilySame(a: seq<Connection>, b: seq<Connection>) {
    |a| == |b| && forall i :: 0 <= i < |a| ==> LazilySame(a[i], b[i])
  }
}
