/** The enrollment store: one-time tokens, agent credentials, and the file the credentials are saved in. */
module EnrollStore {
  import opened Common

  type Token = string
  type AgentId = string
  type Credential = string

  datatype TokenRow = TokenRow(expires: int, used: bool, agent: AgentId)

  datatype Record = Record(agent: AgentId, host: string, credential: Credential, active: bool)

  // The saved file: absent, empty, unreadable as JSON, or a list whose entries may be null.
  datatype File = Missing | Empty | Garbage | Holds(entries: seq<Option<Record>>)

  // How writing the file can end: written, failed before touching it, failed halfway, or failed with
  // only the final newline missing, which leaves a complete list.
  datatype Write = Written | Untouched | Cut(left: File) | Short

  // ---------------------------------------------------------------- tokens

  predicate Usable(tokens: map<Token, TokenRow>, token: Token, now: int) {
    token in tokens && !tokens[token].used && now <= tokens[token].expires
  }

  function Consume(tokens: map<Token, TokenRow>, token: Token, agent: AgentId): map<Token, TokenRow>
    requires token in tokens
  {
    tokens[token := TokenRow(tokens[token].expires, true, agent)]
  }

  function Unexpired(tokens: map<Token, TokenRow>, now: int): map<Token, TokenRow> {
    map t | t in tokens && now <= tokens[t].expires :: tokens[t]
  }

  // ---------------------------------------------------------------- saving and loading

  predicate Orders(order: seq<AgentId>, keys: set<AgentId>) {
    multiset(order) == multiset(keys)
  }

  lemma OrdersMember(order: seq<AgentId>, keys: set<AgentId>)
    requires Orders(order, keys)
    ensures forall a :: a in order <==> a in keys
  {
    forall a
      ensures a in order <==> a in keys
    {
      assert a in order <==> a in multiset(order);
      assert a in keys <==> a in multiset(keys);
    }
  }

  // The list that iterating over the map in this order collects.
  function Saved(creds: map<AgentId, Record>, order: seq<AgentId>): (r: seq<Option<Record>>)
    requires forall a :: a in order ==> a in creds
  {
    if order == [] then [] else Saved(creds, order[..|order| - 1]) + [Some(creds[order[|order| - 1]])]
  }

  // What loading does with the entries: null and nameless ones are skipped, a later one replaces an
  // earlier one with the same agent id.
  function Load(entries: seq<Option<Record>>): map<AgentId, Record> {
    if entries == [] then map[]
    else
      var before := Load(entries[..|entries| - 1]);
      var e := entries[|entries| - 1];
      if e.None? || e.value.agent == "" then before else before[e.value.agent := e.value]
  }

  ghost predicate Keyed(creds: map<AgentId, Record>) {
    forall a :: a in creds ==> a != "" && creds[a].agent == a
  }

  lemma {:induction false} LoadFrom(entries: seq<Option<Record>>)
    ensures Keyed(Load(entries))
    ensures forall a :: a in Load(entries) ==> Some(Load(entries)[a]) in entries
  {
    if entries != [] {
      LoadFrom(entries[..|entries| - 1]);
    }
  }

  lemma {:induction false} SavedEntries(creds: map<AgentId, Record>, order: seq<AgentId>)
    requires forall a :: a in order ==> a in creds
    ensures forall e :: e in Saved(creds, order) ==> e.Some? && exists a :: a in order && creds[a] == e.value
  {
    if order != [] {
      SavedEntries(creds, order[..|order| - 1]);
      assert order[|order| - 1] in order;
    }
  }

  lemma {:induction false} LoadSavedPrefix(creds: map<AgentId, Record>, order: seq<AgentId>)
    requires Keyed(creds) && forall a :: a in order ==> a in creds
    ensures Load(Saved(creds, order)) == map a | a in order :: creds[a]
  {
    if order != [] {
      var init, last := order[..|order| - 1], order[|order| - 1];
      LoadSavedPrefix(creds, init);
      assert last in order;
      var saved := Saved(creds, order);
      assert saved[..|saved| - 1] == Saved(creds, init);
      assert forall a :: a in order <==> a in init || a == last by {
        assert order == init + [last];
      }
    }
  }

  // Round trip: the file, written in any order, restores the map exactly when every record is filed
  // under its own non-empty agent id.
  lemma LoadSaved(creds: map<AgentId, Record>, order: seq<AgentId>)
    requires Orders(order, creds.Keys)
    ensures forall a :: a in order ==> a in creds
    ensures Load(Saved(creds, order)) == creds <==> Keyed(creds)
  {
    OrdersMember(order, creds.Keys);
    LoadFrom(Saved(creds, order));
    if Keyed(creds) {
      LoadSavedPrefix(creds, order);
    }
  }

  // What starting from this file gives: its credentials, or nothing when the manager does not start.
  function Loaded(file: File): Option<map<AgentId, Record>> {
    match file
    case Missing => Some(map[])
    case Empty => Some(map[])
    case Garbage => None
    case Holds(entries) => Some(Load(entries))
  }

  // ---------------------------------------------------------------- lookups

  // What the linear search by credential may return, whatever order the map is iterated in.
  ghost predicate FoundBy(creds: map<AgentId, Record>, credential: Credential, found: Option<Record>) {
    match found
    case Some(r) => r.credential == credential && exists a :: a in creds && creds[a] == r
    case None => forall a :: a in creds ==> creds[a].credential != credential
  }

  // The simple rule: an active record for this agent id with this credential.
  predicate Active(creds: map<AgentId, Record>, agent: AgentId, credential: Credential) {
    agent in creds && creds[agent].active && creds[agent].credential == credential
  }

  // The three-way lookup of validCredential, given what the search by credential returned.
  predicate ThreeWay(creds: map<AgentId, Record>, memory: map<AgentId, Credential>, found: Option<Record>, agent: AgentId, credential: Credential) {
    if agent in creds then creds[agent].active && creds[agent].credential == credential
    else if found.Some? then found.value.active && found.value.agent == agent
    else agent in memory && memory[agent] == credential
  }

  ghost predicate Remembered(memory: map<AgentId, Credential>, creds: map<AgentId, Record>) {
    forall a :: a in memory ==> a in creds && creds[a].credential == memory[a]
  }

  // The fallbacks never change the answer.
  lemma ThreeWayIsRule(creds: map<AgentId, Record>, memory: map<AgentId, Credential>, found: Option<Record>, agent: AgentId, credential: Credential)
    requires Keyed(creds) && Remembered(memory, creds) && FoundBy(creds, credential, found)
    ensures ThreeWay(creds, memory, found, agent, credential) == Active(creds, agent, credential)
  {
  }

  // ---------------------------------------------------------------- the store

  class Store {
    var tokens: map<Token, TokenRow>
    var credentials: map<AgentId, Record>
    var file: File
    const ttl: int
    const persistent: bool

    constructor (lifetime: int, path: bool, disk: File)
      ensures tokens == map[] && file == disk && persistent == path
      ensures ttl == if lifetime <= 0 then 3600 else lifetime
      ensures credentials == map[]
    {
      tokens, credentials, file := map[], map[], disk;
      ttl := if lifetime <= 0 then 3600 else lifetime;
      persistent := path;
    }

    method CreateToken(token: Token, now: int)
      modifies this`tokens
      ensures tokens == old(tokens)[token := TokenRow(now + ttl, false, "")]
    {
      tokens := tokens[token := TokenRow(now + ttl, false, "")];
    }

    method ValidateToken(token: Token, now: int) returns (ok: bool)
      ensures ok == Usable(tokens, token, now)
    {
      if token !in tokens {
        return false;
      }
      if tokens[token].used {
        return false;
      }
      ok := !(now > tokens[token].expires);
    }

    // Accepts a token exactly when it is usable; after it the token is never usable again.
    method ConsumeToken(token: Token, agent: AgentId, now: int) returns (ok: bool)
      modifies this`tokens
      ensures ok == Usable(old(tokens), token, now)
      ensures tokens == if ok then Consume(old(tokens), token, agent) else old(tokens)
      ensures ok ==> forall later :: !Usable(tokens, token, later)
    {
      if token !in tokens {
        return false;
      }
      if tokens[token].used || now > tokens[token].expires {
        return false;
      }
      tokens := tokens[token := tokens[token].(used := true, agent := agent)];
      ok := true;
    }

    method CleanupExpired(now: int)
      modifies this`tokens
      ensures tokens == Unexpired(old(tokens), now)
      ensures forall t :: t in tokens <==> t in old(tokens) && !(now > old(tokens)[t].expires)
      ensures forall t :: t in tokens ==> tokens[t] == old(tokens)[t]
    {
      var left := tokens.Keys;
      while left != {}
        invariant left <= tokens.Keys <= old(tokens).Keys
        invariant forall t :: t in tokens ==> tokens[t] == old(tokens)[t]
        invariant forall t :: t in old(tokens) && t !in left ==> (t in tokens <==> now <= old(tokens)[t].expires)
        decreases |left|
      {
        var t :| t in left;
        left := left - {t};
        if now > tokens[t].expires {
          tokens := tokens - {t};
        }
      }
    }

    // A nil or nameless credential is ignored.
    method RegisterCredential(cred: Option<Record>, write: Write) returns (ok: bool, ghost order: seq<AgentId>)
      modifies this`credentials, this`file
      ensures cred.None? || cred.value.agent == "" ==> ok && credentials == old(credentials) && file == old(file)
      ensures cred.Some? && cred.value.agent != "" ==>
                && credentials == old(credentials)[cred.value.agent := cred.value]
                && Orders(order, credentials.Keys) && (forall a :: a in order ==> a in credentials)
                && (ok, file) == Writing(old(file), Saved(credentials, order), persistent, write)
                && (ok <==> !persistent || write.Written?)
    {
      order := [];
      if cred.None? || cred.value.agent == "" {
        return true, [];
      }
      credentials := credentials[cred.value.agent := cred.value];
      ok, order := SaveCredentials(write);
    }

    method RevokeCredential(agent: AgentId, write: Write) returns (ok: bool, ghost order: seq<AgentId>)
      modifies this`credentials, this`file
      ensures agent !in old(credentials) ==> !ok && credentials == old(credentials) && file == old(file)
      ensures agent in old(credentials) ==>
                && credentials == old(credentials)[agent := old(credentials)[agent].(active := false)]
                && Orders(order, credentials.Keys) && (forall a :: a in order ==> a in credentials)
                && (ok, file) == Writing(old(file), Saved(credentials, order), persistent, write)
                && (ok <==> !persistent || write.Written?)
      ensures forall credential :: !Active(credentials, agent, credential)
    {
      order := [];
      if agent !in credentials {
        return false, [];
      }
      credentials := credentials[agent := credentials[agent].(active := false)];
      ok, order := SaveCredentials(write);
    }

    // Collects the records in whatever order the map is iterated, then writes the file.
    method SaveCredentials(write: Write) returns (ok: bool, ghost order: seq<AgentId>)
      modifies this`file
      ensures Orders(order, credentials.Keys) && (forall a :: a in order ==> a in credentials)
      ensures (ok, file) == Writing(old(file), Saved(credentials, order), persistent, write)
      ensures ok <==> !persistent || write.Written?
      ensures file == if persistent && (write.Written? || write.Short?) then Holds(Saved(credentials, order))
                      else if persistent && write.Cut? then write.left else old(file)
    {
      var left := credentials.Keys;
      var entries: seq<Option<Record>> := [];
      order := [];
      while left != {}
        invariant left <= credentials.Keys
        invariant multiset(order) + multiset(left) == multiset(credentials.Keys)
        invariant forall a :: a in order ==> a in credentials
        invariant entries == Saved(credentials, order)
        decreases |left|
      {
        var a :| a in left;
        assert multiset(left) == multiset(left - {a}) + multiset{a};
        left := left - {a};
        entries := entries + [Some(credentials[a])];
        assert (order + [a])[..|order|] == order;
        order := order + [a];
      }
      if !persistent {
        return true, order;
      }
      match write {
        case Written => file := Holds(entries); ok := true;
        case Untouched => ok := false;
        case Cut(part) => file := part; ok := false;
        case Short => file := Holds(entries); ok := false;
      }
    }

    method LoadCredentials() returns (ok: bool)
      modifies this`credentials
      requires credentials == map[]
      ensures ok == Loaded(file).Some?
      ensures credentials == if ok then Loaded(file).value else map[]
    {
      if file.Missing? || file.Empty? {
        return true;
      }
      if file.Garbage? {
        return false;
      }
      var i := 0;
      while i < |file.entries|
        invariant file.Holds? && i <= |file.entries|
        invariant credentials == Load(file.entries[..i])
      {
        assert file.entries[..i + 1][..i] == file.entries[..i];
        var e := file.entries[i];
        if e.Some? && e.value.agent != "" {
          credentials := credentials[e.value.agent := e.value];
        }
        i := i + 1;
      }
      assert file.entries[..i] == file.entries;
      ok := true;
    }

    method GetCredential(agent: AgentId) returns (r: Option<Record>)
      ensures r == if agent in credentials then Some(credentials[agent]) else None
    {
      if agent !in credentials {
        return None;
      }
      r := Some(credentials[agent]);
    }

    // The first match in whatever order the map is iterated.
    method GetCredentialByToken(credential: Credential) returns (r: Option<Record>)
      ensures FoundBy(credentials, credential, r)
    {
      var left := credentials.Keys;
      while left != {}
        invariant left <= credentials.Keys
        invariant forall a :: a in credentials && a !in left ==> credentials[a].credential != credential
        decreases |left|
      {
        var a :| a in left;
        if credentials[a].credential == credential {
          return Some(credentials[a]);
        }
        left := left - {a};
      }
      r := None;
    }
  }

  // The result of a save, and the file after it.
  function Writing(file: File, entries: seq<Option<Record>>, persistent: bool, write: Write): (bool, File) {
    if !persistent then (true, file)
    else
      match write
      case Written => (true, Holds(entries))
      case Untouched => (false, file)
      case Cut(part) => (false, part)
      case Short => (false, Holds(entries))
  }

  // NewPersistentStore: fails when there is a file and it cannot be decoded.
  method Open(lifetime: int, path: bool, disk: File) returns (store: Store, ok: bool)
    ensures fresh(store) && store.tokens == map[] && store.file == disk && store.persistent == path
    ensures ok == (!path || Loaded(disk).Some?)
    ensures ok ==> store.credentials == if path then Loaded(disk).value else map[]
  {
    store := new Store(lifetime, path, disk);
    ok := true;
    if path {
      ok := store.LoadCredentials();
    }
  }

  // The manager's view: the store, and the credentials it remembers from its own enrollments.
  method ValidCredential(store: Store, memory: map<AgentId, Credential>, agent: AgentId, credential: Credential)
    returns (ok: bool)
    ensures Keyed(store.credentials) && Remembered(memory, store.credentials) ==>
              ok == Active(store.credentials, agent, credential)
  {
    var stored := store.GetCredential(agent);
    if stored.Some? {
      return stored.value.active && stored.value.credential == credential;
    }
    var found := store.GetCredentialByToken(credential);
    if found.Some? {
      return found.value.active && found.value.agent == agent;
    }
    ok := agent in memory && memory[agent] == credential;
  }
}
