/**
 ConnectionSettings: credentials with distinct databases, saving, loading and cloning.
 */
module ConnectionSettings {
  import opened Variants
  import R = ReplicaSetSettings

  const MAX_HOST := 300

  datatype Credential = Credential(
    userName: string, userPassword: string, databaseName: string, mechanism: string, enabled: bool)
  {
    /** databaseName() */
    function Database(): string {
      if databaseName == "" then "admin" else databaseName
    }

    /** mechanism() */
    function Mechanism(): string {
      if mechanism == "" then "SCRAM-SHA-1" else mechanism
    }
  }

  const NEW_CREDENTIAL := Credential("", "", "", "", false)

  datatype Ssh = Ssh(
    host: string, port: int, userName: string, userPassword: string, privateKeyFile: string, publicKeyFile: string,
    passphrase: string, authMethod: string, enabled: bool, askPassword: bool, logLevel: int, askedPassword: string)
  {
    /** authMethod() */
    function Method(): string {
      if authMethod == "" then "publickey" else authMethod
    }
  }

  const NEW_SSH := Ssh("", 22, "", "", "", "", "", "publickey", false, false, 1, "")

  datatype Ssl = Ssl(
    sslEnabled: bool, caFile: string, usePemFile: bool, pemKeyFile: string, pemPassPhrase: string,
    useAdvancedOptions: bool, crlFile: string, allowInvalidHostnames: bool, allowInvalidCertificates: bool,
    askPassphrase: bool)

  const NEW_SSL := Ssl(false, "", false, "", "", false, "", false, false, false)

  datatype Connection = Connection(
    name: string, host: string, port: int, database: string, imported: bool, isReplicaSet: bool,
    credentials: seq<Credential>, ssh: Ssh, ssl: Ssl, replicaSet: R.ReplicaSet, uuid: string)

  const NEW_CONNECTION :=
    Connection("New Connection", "localhost", 27017, "", false, false, [], NEW_SSH, NEW_SSL, R.DEFAULT, "")

  // Saving.

  function SavedCredential(c: Credential): Variant {
    Map(map["userName" := Text(c.userName), "userPassword" := Text(c.userPassword),
            "databaseName" := Text(c.Database()),
            "mechanism" := Text(c.Mechanism()), "enabled" := Flag(c.enabled)])
  }

  function SavedSsh(s: Ssh): Variant {
    Map(map["host" := Text(s.host), "port" := Number(s.port), "userName" := Text(s.userName),
            "userPassword" := Text(s.userPassword), "privateKeyFile" := Text(s.privateKeyFile),
            "publicKeyFile" := Text(s.publicKeyFile), "passphrase" := Text(s.passphrase), "method" := Text(s.Method()),
            "enabled" := Flag(s.enabled), "askPassword" := Flag(s.askPassword)])
  }

  function SavedSsl(s: Ssl): Variant {
    Map(map["sslEnabled" := Flag(s.sslEnabled), "caFile" := Text(s.caFile), "usePemFile" := Flag(s.usePemFile),
            "pemKeyFile" := Text(s.pemKeyFile), "pemPassPhrase" := Text(s.pemPassPhrase),
            "useAdvancedOptions" := Flag(s.useAdvancedOptions), "crlFile" := Text(s.crlFile),
            "allowInvalidHostnames" := Flag(s.allowInvalidHostnames),
            "allowInvalidCertificates" := Flag(s.allowInvalidCertificates), "askPassphrase" := Flag(s.askPassphrase)])
  }

  function SavedCredentials(cs: seq<Credential>): seq<Variant> {
    seq(|cs|, i requires 0 <= i < |cs| => SavedCredential(cs[i]))
  }

  /** The map toVariant builds. */
  function Saved(c: Connection): map<string, Variant> {
    map["connectionName" := Text(c.name), "serverHost" := Text(c.host), "serverPort" := Number(c.port),
        "defaultDatabase" := Text(c.database), "isReplicaSet" := Flag(c.isReplicaSet)]
    + (if c.isReplicaSet then map["replicaSet" := Map(R.Saved(c.replicaSet))] else map[])
    + map["credentials" := List(SavedCredentials(c.credentials)), "ssh" := SavedSsh(c.ssh), "ssl" := SavedSsl(c.ssl),
          "uuid" := Text(c.uuid)]
  }

  // Loading.

  function LoadedCredential(v: Variant): Credential {
    var m := ToMap(v);
    Credential(ToText(At(m, "userName")), ToText(At(m, "userPassword")), ToText(At(m, "databaseName")),
               ToText(At(m, "mechanism")), ToFlag(At(m, "enabled")))
  }

  function LoadedSsh(s: Ssh, m: map<string, Variant>): Ssh {
    Ssh(ToText(At(m, "host")), ToNumber(At(m, "port")), ToText(At(m, "userName")), ToText(At(m, "userPassword")),
        ToText(At(m, "privateKeyFile")), ToText(At(m, "publicKeyFile")), ToText(At(m, "passphrase")),
        ToText(At(m, "method")), ToFlag(At(m, "enabled")), ToFlag(At(m, "askPassword")), s.logLevel, s.askedPassword)
  }

  function LoadedSsl(m: map<string, Variant>): Ssl {
    Ssl(ToFlag(At(m, "sslEnabled")), ToText(At(m, "caFile")), ToFlag(At(m, "usePemFile")), ToText(At(m, "pemKeyFile")),
        ToText(At(m, "pemPassPhrase")), ToFlag(At(m, "useAdvancedOptions")), ToText(At(m, "crlFile")),
        ToFlag(At(m, "allowInvalidHostnames")), ToFlag(At(m, "allowInvalidCertificates")),
        ToFlag(At(m, "askPassphrase")))
  }

  function Left(s: string, n: nat): string {
    if |s| <= n then s else s[..n]
  }

  predicate HasDatabase(cs: seq<Credential>, database: string) {
    exists i :: 0 <= i < |cs| && cs[i].Database() == database
  }

  /** addCredential: a second credential for the same database is dropped. */
  function Added(cs: seq<Credential>, c: Credential): seq<Credential> {
    if HasDatabase(cs, c.Database()) then cs else cs + [c]
  }

  function AddedAll(cs: seq<Credential>, more: seq<Credential>): seq<Credential>
    decreases |more|
  {
    if more == [] then cs else AddedAll(Added(cs, more[0]), more[1..])
  }

  function LoadedCredentials(vs: seq<Variant>): seq<Credential> {
    seq(|vs|, i requires 0 <= i < |vs| => LoadedCredential(vs[i]))
  }

  /** fromVariant on settings c; `newId` is the identifier made when the map has none. */
  function Loaded(c: Connection, m: map<string, Variant>, newId: string): Connection {
    c.(name := ToText(At(m, "connectionName")),
       host := Left(ToText(At(m, "serverHost")), MAX_HOST),
       port := ToNumber(At(m, "serverPort")),
       database := ToText(At(m, "defaultDatabase")),
       isReplicaSet := ToFlag(At(m, "isReplicaSet")),
       credentials := AddedAll(c.credentials, LoadedCredentials(ToList(At(m, "credentials")))),
       ssh := if "ssh" in m then LoadedSsh(c.ssh, ToMap(m["ssh"])) else c.ssh,
       ssl := if "ssl" in m then LoadedSsl(ToMap(m["ssl"])) else c.ssl,
       replicaSet := if ToFlag(At(m, "isReplicaSet")) then R.Loaded(ToMap(At(m, "replicaSet"))) else c.replicaSet,
       uuid := if ToText(At(m, "uuid")) == "" then newId else ToText(At(m, "uuid")))
  }

  // Credentials.

  predicate Distinct(cs: seq<Credential>) {
    forall i, j :: 0 <= i < j < |cs| ==> cs[i].Database() != cs[j].Database()
  }

  /** Adding keeps the databases distinct. */
  lemma AddedDistinct(cs: seq<Credential>, c: Credential)
    requires Distinct(cs)
    ensures Distinct(Added(cs, c)) && HasDatabase(Added(cs, c), c.Database()) && cs <= Added(cs, c)
  {
    if !HasDatabase(cs, c.Database()) {
      assert (cs + [c])[|cs|] == c;
    }
  }

  /** Adding a whole list keeps all of it exactly when nothing in it clashes; else it
      gets shorter. */
  lemma {:induction false} AddedAllExact(cs: seq<Credential>, more: seq<Credential>)
    requires Distinct(cs)
    ensures Distinct(AddedAll(cs, more)) && cs <= AddedAll(cs, more)
    ensures if Distinct(cs + more) then AddedAll(cs, more) == cs + more else |AddedAll(cs, more)| < |cs| + |more|
    decreases |more|
  {
    if more == [] {
      assert cs + more == cs;
    } else {
      var c, rest := more[0], more[1..];
      AddedDistinct(cs, c);
      hide Distinct;
      AddedAllExact(Added(cs, c), rest);
      if HasDatabase(cs, c.Database()) {
        Clash(cs, more);
      } else {
        Regroup(cs, more);
      }
    }
  }

  lemma Regroup(cs: seq<Credential>, more: seq<Credential>)
    requires more != []
    ensures cs + more == cs + [more[0]] + more[1..]
  {
  }

  lemma Clash(cs: seq<Credential>, more: seq<Credential>)
    requires more != [] && HasDatabase(cs, more[0].Database())
    ensures !Distinct(cs + more)
  {
    var i :| 0 <= i < |cs| && cs[i].Database() == more[0].Database();
    var all := cs + more;
    assert all[i] == cs[i] && all[|cs|] == more[0];
  }

  /** A credential no earlier one in the list has the database of. */
  predicate IsFirst(cs: seq<Credential>, c: Credential) {
    exists i :: 0 <= i < |cs| && cs[i] == c && !HasDatabase(cs[..i], c.Database())
  }

  lemma FirstInDistinct(cs: seq<Credential>, c: Credential)
    requires Distinct(cs)
    ensures IsFirst(cs, c) <==> c in cs
  {
    if c in cs {
      var i :| 0 <= i < |cs| && cs[i] == c;
      assert forall j :: 0 <= j < i ==> cs[..i][j] == cs[j];
      assert !HasDatabase(cs[..i], c.Database());
    }
  }

  lemma FirstAround(cs: seq<Credential>, d: Credential, rest: seq<Credential>, c: Credential)
    requires HasDatabase(cs, d.Database())
    ensures IsFirst(cs + [d] + rest, c) <==> IsFirst(cs + rest, c)
  {
    hide IsFirst;
    if IsFirst(cs + [d] + rest, c) {
      FirstWithout(cs, d, rest, c);
    }
    if IsFirst(cs + rest, c) {
      FirstBeside(cs, d, rest, c);
    }
  }

  lemma HasPrefix(a: seq<Credential>, b: seq<Credential>, database: string)
    ensures HasDatabase(a + b, database) <==> HasDatabase(a, database) || HasDatabase(b, database)
  {
    if HasDatabase(a, database) {
      var i :| 0 <= i < |a| && a[i].Database() == database;
      assert (a + b)[i] == a[i];
    }
    if HasDatabase(b, database) {
      var i :| 0 <= i < |b| && b[i].Database() == database;
      assert (a + b)[|a| + i] == b[i];
    }
  }

  lemma FirstWithout(cs: seq<Credential>, d: Credential, rest: seq<Credential>, c: Credential)
    requires HasDatabase(cs, d.Database()) && IsFirst(cs + [d] + rest, c)
    ensures IsFirst(cs + rest, c)
  {
    hide HasDatabase;
    var all, n := cs + [d] + rest, |cs|;
    var i :| 0 <= i < |all| && all[i] == c && !HasDatabase(all[..i], c.Database());
    if i <= n {
      assert all[..i] == (cs + rest)[..i] == cs[..i];
      assert (cs + rest)[i] == c;
    } else {
      assert (cs + rest)[i - 1] == c;
      assert all[..i] == cs + [d] + rest[..i - n - 1] && (cs + rest)[..i - 1] == cs + rest[..i - n - 1];
      HasPrefix(cs + [d], rest[..i - n - 1], c.Database());
      HasPrefix(cs, [d], c.Database());
      HasPrefix(cs, rest[..i - n - 1], c.Database());
    }
  }

  lemma FirstBeside(cs: seq<Credential>, d: Credential, rest: seq<Credential>, c: Credential)
    requires HasDatabase(cs, d.Database()) && IsFirst(cs + rest, c)
    ensures IsFirst(cs + [d] + rest, c)
  {
    var all, n := cs + [d] + rest, |cs|;
    var i :| 0 <= i < |cs + rest| && (cs + rest)[i] == c && !HasDatabase((cs + rest)[..i], c.Database());
    if i < n {
      assert all[..i] == (cs + rest)[..i] && all[i] == c;
    } else {
      assert all[i + 1] == c;
      assert all[..i + 1] == cs + [d] + rest[..i - n] && (cs + rest)[..i] == cs + rest[..i - n];
      HasPrefix(cs + [d], rest[..i - n], c.Database());
      HasPrefix(cs, [d], c.Database());
      HasPrefix(cs, rest[..i - n], c.Database());
      assert !HasDatabase(all[..i + 1], c.Database());
    }
  }

  /** Adding a list keeps of every database the first credential, and only that. */
  lemma {:induction false} AddedAllFirst(cs: seq<Credential>, more: seq<Credential>, c: Credential)
    requires Distinct(cs)
    ensures c in AddedAll(cs, more) <==> IsFirst(cs + more, c)
    decreases |more|
  {
    if more == [] {
      assert cs + more == cs;
      FirstInDistinct(cs, c);
    } else {
      AddedDistinct(cs, more[0]);
      hide Distinct, IsFirst, HasDatabase;
      AddedAllFirst(Added(cs, more[0]), more[1..], c);
      Regroup(cs, more);
      if HasDatabase(cs, more[0].Database()) {
        FirstAround(cs, more[0], more[1..], c);
      }
    }
  }

  // Round trips of the parts.

  /** A credential that went through a file: the user, password and flag it had, and the
      database and mechanism that were in effect. */
  predicate CredentialKept(c: Credential, d: Credential) {
    && d.userName == c.userName && d.userPassword == c.userPassword && d.enabled == c.enabled
    && d.databaseName == (if c.databaseName == "" then "admin" else c.databaseName)
    && d.mechanism == (if c.mechanism == "" then "SCRAM-SHA-1" else c.mechanism)
  }

  /** SSH settings that went through a file. */
  predicate SshKept(s: Ssh, d: Ssh) {
    && d.host == s.host && d.port == s.port && d.userName == s.userName && d.userPassword == s.userPassword
    && d.privateKeyFile == s.privateKeyFile && d.publicKeyFile == s.publicKeyFile && d.passphrase == s.passphrase
    && d.authMethod == (if s.authMethod == "" then "publickey" else s.authMethod)
    && d.enabled == s.enabled && d.askPassword == s.askPassword
  }

  lemma CredentialsKept(cs: seq<Credential>)
    requires Distinct(cs)
    ensures
      var ds := AddedAll([], LoadedCredentials(SavedCredentials(cs)));
      |ds| == |cs| && forall i :: 0 <= i < |cs| ==> CredentialKept(cs[i], ds[i])
  {
    hide AddedAll;
    var loaded := LoadedCredentials(SavedCredentials(cs));
    CredentialsSaveAgain(cs);
    AddedAllExact([], loaded);
    assert [] + loaded == loaded;
  }

  lemma CredentialSavesAgain(c: Credential)
    ensures
      var c' := LoadedCredential(SavedCredential(c));
      SavedCredential(c') == SavedCredential(c) && c'.Database() == c.Database() && CredentialKept(c, c')
  {
  }

  lemma SshSavesAgain(s: Ssh, d: Ssh)
    ensures SavedSsh(LoadedSsh(d, ToMap(SavedSsh(s)))) == SavedSsh(s)
    ensures SshKept(s, LoadedSsh(d, ToMap(SavedSsh(s))))
  {
  }

  lemma SslSavesAgain(s: Ssl)
    ensures LoadedSsl(ToMap(SavedSsl(s))) == s
  {
  }

  lemma CredentialsSaveAgain(cs: seq<Credential>)
    ensures
      var loaded := LoadedCredentials(SavedCredentials(cs));
      SavedCredentials(loaded) == SavedCredentials(cs) && (Distinct(loaded) <==> Distinct(cs))
  {
    var loaded := LoadedCredentials(SavedCredentials(cs));
    forall i | 0 <= i < |cs|
      ensures SavedCredential(loaded[i]) == SavedCredential(cs[i]) && loaded[i].Database() == cs[i].Database()
    {
      CredentialSavesAgain(cs[i]);
    }
  }

  lemma ReplicaSetSavesAgain(r: R.ReplicaSet)
    ensures R.Loaded(R.Saved(r)) == r
  {
    R.SaveThenLoad(r, R.Loaded(R.Saved(r)));
  }

  /** The keys under which the parts are saved. */
  lemma CredentialEntries(c: Credential)
    ensures
      var m := ToMap(SavedCredential(c));
      && m.Keys == {"userName", "userPassword", "databaseName", "mechanism", "enabled"}
      && m["userName"] == Text(c.userName) && m["userPassword"] == Text(c.userPassword)
      && m["databaseName"] == Text(if c.databaseName == "" then "admin" else c.databaseName)
      && m["mechanism"] == Text(if c.mechanism == "" then "SCRAM-SHA-1" else c.mechanism)
      && m["enabled"] == Flag(c.enabled)
  {
  }

  lemma SshEntries(s: Ssh)
    ensures
      var m := ToMap(SavedSsh(s));
      && m.Keys == {"host", "port", "userName", "userPassword", "privateKeyFile", "publicKeyFile", "passphrase",
                    "method", "enabled", "askPassword"}
      && m["host"] == Text(s.host) && m["port"] == Number(s.port) && m["userName"] == Text(s.userName)
      && m["userPassword"] == Text(s.userPassword) && m["privateKeyFile"] == Text(s.privateKeyFile)
      && m["publicKeyFile"] == Text(s.publicKeyFile) && m["passphrase"] == Text(s.passphrase)
      && m["method"] == Text(if s.authMethod == "" then "publickey" else s.authMethod)
      && m["enabled"] == Flag(s.enabled) && m["askPassword"] == Flag(s.askPassword)
  {
  }

  lemma SslEntries(s: Ssl)
    ensures
      var m := ToMap(SavedSsl(s));
      && m.Keys == {"sslEnabled", "caFile", "usePemFile", "pemKeyFile", "pemPassPhrase", "useAdvancedOptions",
                    "crlFile", "allowInvalidHostnames", "allowInvalidCertificates", "askPassphrase"}
      && m["sslEnabled"] == Flag(s.sslEnabled) && m["caFile"] == Text(s.caFile)
      && m["usePemFile"] == Flag(s.usePemFile) && m["pemKeyFile"] == Text(s.pemKeyFile)
      && m["pemPassPhrase"] == Text(s.pemPassPhrase) && m["useAdvancedOptions"] == Flag(s.useAdvancedOptions)
      && m["crlFile"] == Text(s.crlFile) && m["allowInvalidHostnames"] == Flag(s.allowInvalidHostnames)
      && m["allowInvalidCertificates"] == Flag(s.allowInvalidCertificates)
      && m["askPassphrase"] == Flag(s.askPassphrase)
  {
  }

  /** The entries of a saved connection. */
  lemma SavedAt(c: Connection)
    ensures
      var m := Saved(c);
      && At(m, "connectionName") == Text(c.name) && At(m, "serverHost") == Text(c.host)
      && At(m, "serverPort") == Number(c.port) && At(m, "defaultDatabase") == Text(c.database)
      && At(m, "isReplicaSet") == Flag(c.isReplicaSet)
  {
    hide SavedCredentials, SavedSsh, SavedSsl, R.Saved;
  }

  lemma SavedPartsAt(c: Connection)
    ensures
      var m := Saved(c);
      && (c.isReplicaSet ==> At(m, "replicaSet") == Map(R.Saved(c.replicaSet)))
      && At(m, "credentials") == List(SavedCredentials(c.credentials)) && At(m, "uuid") == Text(c.uuid)
      && "ssh" in m && m["ssh"] == SavedSsh(c.ssh) && "ssl" in m && m["ssl"] == SavedSsl(c.ssl)
  {
    hide SavedCredentials, SavedSsh, SavedSsl, R.Saved;
  }

  /** What loading a saved connection into new settings gives, field by field. */
  lemma LoadedFields(c: Connection, newId: string)
    ensures
      var d := Loaded(NEW_CONNECTION, Saved(c), newId);
      && d.name == c.name && d.host == Left(c.host, 300) && d.port == c.port && d.database == c.database
      && d.isReplicaSet == c.isReplicaSet && (c.isReplicaSet ==> d.replicaSet == c.replicaSet)
      && d.credentials == AddedAll([], LoadedCredentials(SavedCredentials(c.credentials)))
      && (Distinct(c.credentials) ==>
            && |d.credentials| == |c.credentials|
            && forall i :: 0 <= i < |c.credentials| ==> CredentialKept(c.credentials[i], d.credentials[i]))
      && SavedSsh(d.ssh) == SavedSsh(c.ssh) && SshKept(c.ssh, d.ssh) && d.ssl == c.ssl
      && d.uuid == (if c.uuid == "" then newId else c.uuid)
  {
    hide Saved, LoadedCredentials, SavedCredentials, AddedAll, SavedSsh, SavedSsl, LoadedSsh, LoadedSsl, R.Saved,
        R.Loaded, Distinct, CredentialKept, SshKept;
    SavedAt(c);
    if Distinct(c.credentials) {
      CredentialsKept(c.credentials);
    }
    SavedPartsAt(c);
    SshSavesAgain(c.ssh, NEW_SSH);
    SslSavesAgain(c.ssl);
    ReplicaSetSavesAgain(c.replicaSet);
  }

  /** Saving, loading and saving again gives the same map exactly when the host fits the
      limit of a load, the connection has an identifier, and no two of its credentials
      are for the same database.  The last holds of every settings object. */
  lemma SaveLoadSave(c: Connection, newId: string)
    requires newId != ""
    ensures Saved(Loaded(NEW_CONNECTION, Saved(c), newId)) == Saved(c) <==>
              |c.host| <= 300 && c.uuid != "" && Distinct(c.credentials)
  {
    hide Loaded, LoadedCredentials, AddedAll, SavedSsh, SavedSsl, R.Saved;
    var d := Loaded(NEW_CONNECTION, Saved(c), newId);
    LoadedFields(c, newId);
    var loaded := LoadedCredentials(SavedCredentials(c.credentials));
    CredentialsSaveAgain(c.credentials);
    AddedAllExact([], loaded);
    assert [] + loaded == loaded;
    if Saved(d) == Saved(c) {
      SavedAt(c);
      SavedAt(d);
      SavedPartsAt(c);
      SavedPartsAt(d);
      assert |d.credentials| == |SavedCredentials(d.credentials)| == |c.credentials|;
    }
  }

  // Cloning.

  /** clone: new settings that take over everything, credentials one by one. */
  function Cloned(c: Connection): Connection {
    c.(credentials := AddedAll([], c.credentials))
  }

  /** A clone loses nothing when the credentials' databases are distinct. */
  lemma ClonedSame(c: Connection)
    requires Distinct(c.credentials)
    ensures Cloned(c) == c
  {
    hide AddedAll;
    AddedAllExact([], c.credentials);
    assert [] + c.credentials == c.credentials;
  }

  // Settings that do not survive a save and a load.

  /** New settings have no identifier before they are loaded, so a load gives them one. */
  lemma NewDoesNotSaveAgain(newId: string)
    requires newId != ""
    ensures Saved(Loaded(NEW_CONNECTION, Saved(NEW_CONNECTION), newId)) != Saved(NEW_CONNECTION)
  {
    SaveLoadSave(NEW_CONNECTION, newId);
  }

  /** A load cuts a host of 301 characters. */
  lemma LongHostDoesNotSaveAgain(newId: string)
    requires newId != ""
    ensures
      var c := NEW_CONNECTION.(host := seq(301, _ => 'h'), uuid := "{1}");
      Saved(Loaded(NEW_CONNECTION, Saved(c), newId)) != Saved(c)
  {
    SaveLoadSave(NEW_CONNECTION.(host := seq(301, _ => 'h'), uuid := "{1}"), newId);
  }

  // The object.

  class Settings {
    var connectionName: string
    var host: string
    var port: int
    var defaultDatabase: string
    var imported: bool
    var isReplicaSet: bool
    var credentials: seq<Credential>
    var ssh: Ssh
    var ssl: Ssl
    var replicaSet: R.ReplicaSet
    var uuid: string

    function Value(): Connection
      reads this
    {
      Connection(connectionName, host, port, defaultDatabase, imported, isReplicaSet, credentials, ssh, ssl,
          replicaSet, uuid)
    }

    /** The credentials are only ever added to, and only under a new database. */
    ghost predicate Valid()
      reads this
    {
      Distinct(credentials)
    }

    constructor ()
      ensures Valid() && Value() == NEW_CONNECTION
      ensures connectionName == "New Connection" && host == "localhost" && port == 27017 && defaultDatabase == ""
      ensures !imported && !isReplicaSet && credentials == [] && uuid == ""
      ensures ssh.port == 22 && ssh.authMethod == "publickey" && !ssh.enabled && !ssh.askPassword && ssh.logLevel == 1
      ensures !ssl.sslEnabled && replicaSet.members == []
    {
      connectionName, host, port, defaultDatabase := "New Connection", "localhost", 27017, "";
      imported, isReplicaSet, credentials, uuid := false, false, [], "";
      ssh, ssl, replicaSet := NEW_SSH, NEW_SSL, R.DEFAULT;
    }

    method FindCredential(database: string) returns (found: bool)
      ensures found <==> HasDatabase(credentials, database)
    {
      var i := 0;
      while i < |credentials|
        invariant 0 <= i <= |credentials|
        invariant forall j :: 0 <= j < i ==> credentials[j].Database() != database
      {
        if credentials[i].Database() == database {
          return true;
        }
        i := i + 1;
      }
      return false;
    }

    method AddCredential(c: Credential)
      requires Valid()
      modifies this`credentials
      ensures Valid() && credentials == Added(old(credentials), c)
    {
      AddedDistinct(credentials, c);
      var found := FindCredential(c.Database());
      if !found {
        credentials := credentials + [c];
      }
    }

    method AddCredentials(cs: seq<Credential>)
      requires Valid()
      modifies this`credentials
      ensures Valid() && credentials == AddedAll(old(credentials), cs)
    {
      var i := 0;
      assert cs[0..] == cs;
      while i < |cs|
        invariant 0 <= i <= |cs| && Valid()
        invariant AddedAll(credentials, cs[i..]) == AddedAll(old(credentials), cs)
      {
        assert cs[i..][0] == cs[i] && cs[i..][1..] == cs[i + 1..];
        AddCredential(cs[i]);
        i := i + 1;
      }
    }

    /** primaryCredential: makes an empty credential when there is none. */
    method PrimaryCredential() returns (c: Credential)
      requires Valid()
      modifies this`credentials
      ensures Valid() && credentials == WithPrimary(old(credentials))
            && c == credentials[0] == Primary(old(credentials))
    {
      if |credentials| == 0 {
        credentials := credentials + [NEW_CREDENTIAL];
      }
      return credentials[0];
    }

    method FromVariant(m: map<string, Variant>, newId: string)
      requires Valid()
      modifies this
      ensures Valid() && Value() == Loaded(old(Value()), m, newId)
    {
      hide Distinct, LoadedSsh, LoadedSsl, LoadedCredentials, AddedAll, R.Loaded, Left, ToNumber, ToFlag, ToList, ToMap;
      LoadBasics(m);
      AddCredentials(LoadedCredentials(ToList(At(m, "credentials"))));
      LoadParts(m, newId);
    }

    method LoadBasics(m: map<string, Variant>)
      modifies this`connectionName, this`host, this`port, this`defaultDatabase, this`isReplicaSet
      ensures connectionName == ToText(At(m, "connectionName")) && host == Left(ToText(At(m, "serverHost")), MAX_HOST)
      ensures port == ToNumber(At(m, "serverPort")) && defaultDatabase == ToText(At(m, "defaultDatabase"))
      ensures isReplicaSet == ToFlag(At(m, "isReplicaSet"))
    {
      connectionName := ToText(At(m, "connectionName"));
      host := Left(ToText(At(m, "serverHost")), MAX_HOST);
      port := ToNumber(At(m, "serverPort"));
      defaultDatabase := ToText(At(m, "defaultDatabase"));
      isReplicaSet := ToFlag(At(m, "isReplicaSet"));
    }

    method LoadParts(m: map<string, Variant>, newId: string)
      modifies this`ssh, this`ssl, this`replicaSet, this`uuid
      ensures ssh == if "ssh" in m then LoadedSsh(old(ssh), ToMap(m["ssh"])) else old(ssh)
      ensures ssl == if "ssl" in m then LoadedSsl(ToMap(m["ssl"])) else old(ssl)
      ensures replicaSet == if isReplicaSet then R.Loaded(ToMap(At(m, "replicaSet"))) else old(replicaSet)
      ensures uuid == if ToText(At(m, "uuid")) == "" then newId else ToText(At(m, "uuid"))
    {
      hide LoadedSsh, LoadedSsl, R.Loaded, ToMap;
      if "ssh" in m {
        ssh := LoadedSsh(ssh, ToMap(m["ssh"]));
      }
      if "ssl" in m {
        ssl := LoadedSsl(ToMap(m["ssl"]));
      }
      if isReplicaSet {
        replicaSet := R.Loaded(ToMap(At(m, "replicaSet")));
      }
      if "uuid" !in m || ToText(m["uuid"]) == "" {
        uuid := newId;
      } else {
        uuid := ToText(m["uuid"]);
      }
    }

    /** apply: discards the own state, except the identifier.  Applied to itself, it
        loses the credentials. */
    method Apply(source: Settings)
      requires source.Valid()
      modifies this
      ensures Valid()
      ensures source != this ==> Value() == source.Value().(uuid := old(uuid))
      ensures source == this ==> Value() == old(Value()).(credentials := [])
    {
      ClonedSame(source.Value());
      assert Distinct([]);
      hide AddedAll, Distinct;
      connectionName, host, port := source.connectionName, source.host, source.port;
      defaultDatabase, imported, isReplicaSet := source.defaultDatabase, source.imported, source.isReplicaSet;
      credentials := [];
      ssh, ssl, replicaSet := source.ssh, source.ssl, source.replicaSet;
      AddedNone();
      AddCredentials(source.credentials);
    }

    static lemma AddedNone()
      ensures AddedAll([], []) == []
    {
    }

    method ToVariant() returns (m: map<string, Variant>)
      ensures m == Saved(Value())
      ensures Valid() ==> forall newId :: Restored(Value(), Loaded(NEW_CONNECTION, m, newId), newId)
    {
      hide SavedCredential, SavedSsh, SavedSsl, R.Saved, Loaded, Restored, Distinct;
      if Valid() {
        forall newId ensures Restored(Value(), Loaded(NEW_CONNECTION, Saved(Value()), newId), newId) {
          LoadsBack(Value(), newId);
        }
      }
      var list: seq<Variant> := [];
      var i := 0;
      while i < |credentials|
        invariant 0 <= i <= |credentials|
        invariant list == SavedCredentials(credentials[..i])
      {
        assert credentials[..i + 1] == credentials[..i] + [credentials[i]];
        list := list + [SavedCredential(credentials[i])];
        i := i + 1;
      }
      assert credentials[..i] == credentials;
      m := map["connectionName" := Text(connectionName), "serverHost" := Text(host), "serverPort" := Number(port),
               "defaultDatabase" := Text(defaultDatabase), "isReplicaSet" := Flag(isReplicaSet)];
      m := m + if isReplicaSet then map["replicaSet" := Map(R.Saved(replicaSet))] else map[];
      m := m + map["credentials" := List(list), "ssh" := SavedSsh(ssh), "ssl" := SavedSsl(ssl), "uuid" := Text(uuid)];
    }

    /** clone: a new object that is the same in everything, and so saves to the same map. */
    method Clone() returns (copy: Settings)
      requires Valid()
      ensures fresh(copy) && copy.Valid() && copy.Value() == Value() && Saved(copy.Value()) == Saved(Value())
    {
      copy := new Settings();
      copy.uuid := uuid;
      copy.Apply(this);
    }
  }

  /** Saving settings, loading them into new ones and saving those gives the same map
      exactly when the host fits the limit of a load and there is an identifier. */
  lemma SavesAgain(settings: Settings, newId: string)
    requires settings.Valid() && newId != ""
    ensures
      var c := settings.Value();
      Saved(Loaded(NEW_CONNECTION, Saved(c), newId)) == Saved(c) <==> |c.host| <= 300 && c.uuid != ""
  {
    hide Loaded, Saved;
    SaveLoadSave(settings.Value(), newId);
  }

  /** What comes back when settings are saved and loaded into new ones: everything, but for a
      host that is cut after 300 characters and an identifier that is made when there was
      none; an imported mark and SSH's log level are not saved. */
  ghost predicate Restored(c: Connection, d: Connection, newId: string) {
    && d.name == c.name && d.port == c.port && d.database == c.database
    && d.host == (if |c.host| <= 300 then c.host else c.host[..300])
    && |d.credentials| == |c.credentials|
    && (forall i :: 0 <= i < |c.credentials| ==> CredentialKept(c.credentials[i], d.credentials[i]))
    && SshKept(c.ssh, d.ssh) && d.ssh.logLevel == 1 && d.ssh.askedPassword == "" && d.ssl == c.ssl
    && d.isReplicaSet == c.isReplicaSet && d.replicaSet == (if c.isReplicaSet then c.replicaSet else R.DEFAULT)
    && d.uuid == (if c.uuid == "" then newId else c.uuid) && !d.imported
  }

  /** Loading brings back what was saved. */
  lemma LoadsBack(c: Connection, newId: string)
    requires Distinct(c.credentials)
    ensures Restored(c, Loaded(NEW_CONNECTION, Saved(c), newId), newId)
  {
    hide Saved, SavedSsh, SavedSsl, LoadedSsl, LoadedCredentials, AddedAll, R.Loaded, Distinct, CredentialKept, SshKept;
    LoadedFields(c, newId);
    SavedAt(c);
  }

  function WithPrimary(cs: seq<Credential>): (r: seq<Credential>)
    ensures r != []
  {
    if cs == [] then [NEW_CREDENTIAL] else cs
  }

  function Primary(cs: seq<Credential>): Credential {
    if cs == [] then NEW_CREDENTIAL else cs[0]
  }
}
