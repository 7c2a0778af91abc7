/** Users and sessions: who a session token authenticates, and why an admin always remains. */
module Auth {
  import opened Common
  import opened Strings

  type UserId = nat
  type Token = string

  datatype User = User(name: string, hash: string, role: string)

  datatype Session = Session(user: UserId, expires: int)

  // The users and sessions tables.  `next` is the autoincrement counter, which is never reused.  The
  // history: for each token the session it was last issued for, and the ids ever deleted.
  datatype State = State(
    users: map<UserId, User>, next: UserId, sessions: map<Token, Session>,
    issued: map<Token, Session>, deleted: set<UserId>)

  // `cascades` and `enforced` say whether this database enforces foreign keys: a user's deletion
  // removes its sessions, a session for a missing user is refused.  The claims hold either way.
  datatype Op =
    | CreateUser(username: string, hash: string, password: string, role: string)
    | UpdateUser(id: UserId, role': Option<string>)
    | DeleteUser(id: UserId, cascades: bool)
    | SeedUser(username: string, hash: string)
    | CreateSession(token: Token, user: UserId, expires: int, enforced: bool)
    | GetSession(token: Token, now: int)
    | DeleteSession(token: Token)
    | CleanupExpired(now: int)

  datatype Outcome = Done | Invalid | Taken | NoSuchUser | LastAdmin | NoSession

  predicate ValidRole(role: string) {
    role in {"admin", "operator", "viewer"}
  }

  predicate NameTaken(s: State, name: string) {
    exists id :: id in s.users && s.users[id].name == name
  }

  predicate IsAdmin(s: State, id: UserId) {
    id in s.users && s.users[id].role == "admin"
  }

  function Admins(s: State): set<UserId> {
    set id | id in s.users && s.users[id].role == "admin"
  }

  // ensureNotLastAdmin: refuses a missing user and the only admin.
  function LosingAdmin(s: State, id: UserId): Outcome {
    if id !in s.users then NoSuchUser
    else if s.users[id].role == "admin" && |Admins(s)| <= 1 then LastAdmin
    else Done
  }

  function AddUser(s: State, u: User): State {
    s.(users := s.users[s.next := u], next := s.next + 1)
  }

  function SetUser(s: State, id: UserId, u: User): State {
    s.(users := s.users[id := u])
  }

  function RemoveUser(s: State, id: UserId, cascades: bool): State {
    s.(users := s.users - {id}, deleted := s.deleted + {id},
       sessions := if cascades then map t | t in s.sessions && s.sessions[t].user != id :: s.sessions[t] else s.sessions)
  }

  // What a token stands for: the session joined with its user, unless it has expired.
  function Authenticate(s: State, token: Token, now: int): Option<(UserId, string)> {
    if token in s.sessions && s.sessions[token].user in s.users && now <= s.sessions[token].expires
    then Some((s.sessions[token].user, s.users[s.sessions[token].user].role))
    else None
  }

  // Deleting the empty token is a no-op.
  function DropSession(s: State, token: Token): State {
    if token == "" then s else s.(sessions := s.sessions - {token})
  }

  // The new state and how the operation ended.
  function Apply(s: State, op: Op): (State, Outcome) {
    match op
    case CreateUser(username, hash, password, role) =>
      var name, r := TrimSpace(username), if role == "" then "viewer" else role;
      if name == "" || password == "" || !ValidRole(r) then (s, Invalid)
      else if NameTaken(s, name) then (s, Taken)
      else (AddUser(s, User(name, hash, r)), Done)
    case UpdateUser(id, role) =>
      if role.None? then (s, Done)
      else if !ValidRole(role.value) then (s, Invalid)
      else if role.value != "admin" && LosingAdmin(s, id) != Done then (s, LosingAdmin(s, id))
      else if id !in s.users then (s, NoSuchUser)
      else (SetUser(s, id, s.users[id].(role := role.value)), Done)
    case DeleteUser(id, cascades) =>
      if LosingAdmin(s, id) != Done then (s, LosingAdmin(s, id)) else (RemoveUser(s, id, cascades), Done)
    case SeedUser(username, hash) => Seed(s, TrimSpace(username), hash)
    case CreateSession(token, user, expires, enforced) =>
      if token in s.sessions then (s, Taken)
      else if enforced && user !in s.users then (s, NoSuchUser)
      else
        (s.(sessions := s.sessions[token := Session(user, expires)], issued := s.issued[token := Session(user, expires)]), Done)
    case GetSession(token, now) =>
      if token in s.sessions && s.sessions[token].user in s.users && now > s.sessions[token].expires
      then (DropSession(s, token), NoSession)
      else (s, if Authenticate(s, token, now).Some? then Done else NoSession)
    case DeleteSession(token) => (DropSession(s, token), Done)
    case CleanupExpired(now) =>
      (s.(sessions := map t | t in s.sessions && s.sessions[t].expires >= now :: s.sessions[t]), Done)
  }

  // EnsureUserWithPasswordHash with the admin role: insert, or update the row with that name.
  function Seed(s: State, name: string, hash: string): (State, Outcome) {
    if name == "" || hash == "" then (s, Done)
    else if NameTaken(s, name) then
      (s.(users := map id | id in s.users :: if s.users[id].name == name then User(name, hash, "admin") else s.users[id]), Done)
    else (AddUser(s, User(name, hash, "admin")), Done)
  }

  function Run(s: State, ops: seq<Op>): State
    decreases |ops|
  {
    if ops == [] then s else Run(Apply(s, ops[0]).0, ops[1..])
  }

  // ---------------------------------------------------------------- sessions

  // Ids are never reused, and every session row is the one last issued under its token.
  ghost predicate Inv(s: State) {
    && (forall id :: id in s.users ==> id < s.next && id !in s.deleted)
    && (forall id :: id in s.deleted ==> id < s.next)
    && (forall t :: t in s.sessions ==> t in s.issued && s.issued[t] == s.sessions[t])
  }

  lemma InvStep(s: State, op: Op)
    requires Inv(s)
    ensures Inv(Apply(s, op).0) && s.deleted <= Apply(s, op).0.deleted
  {
    if op.DeleteUser? {
      assert LosingAdmin(s, op.id) == Done ==> op.id < s.next;
    }
  }

  lemma {:induction false} InvRun(s: State, ops: seq<Op>)
    requires Inv(s)
    ensures Inv(Run(s, ops)) && s.deleted <= Run(s, ops).deleted
    decreases |ops|
  {
    if ops != [] {
      InvStep(s, ops[0]);
      InvRun(Apply(s, ops[0]).0, ops[1..]);
    }
  }

  // Every history: a token authenticates only as the user id it was issued for, with that user's
  // current role, not after its expiry, and not for an id that was ever deleted.
  lemma SessionsAuthenticate(ops: seq<Op>, token: Token, now: int)
    ensures var s := Run(State(map[], 1, map[], map[], {}), ops);
            var who := Authenticate(s, token, now);
            who.Some? ==>
              && token in s.issued && who.value.0 == s.issued[token].user && now <= s.issued[token].expires
              && who.value.0 in s.users && who.value.1 == s.users[who.value.0].role
              && who.value.0 !in s.deleted
  {
    InvRun(State(map[], 1, map[], map[], {}), ops);
  }

  // Once a user is deleted none of its sessions authenticates again, whatever happens later: not
  // even when the name is taken again, and without relying on the sessions being deleted.
  lemma DeletedStaysOut(s: State, id: UserId, cascades: bool, ops: seq<Op>, token: Token, now: int)
    requires Inv(s) && Apply(s, DeleteUser(id, cascades)).1 == Done
    ensures var t := Run(Apply(s, DeleteUser(id, cascades)).0, ops);
            Authenticate(t, token, now).Some? ==> Authenticate(t, token, now).value.0 != id
  {
    InvStep(s, DeleteUser(id, cascades));
    InvRun(Apply(s, DeleteUser(id, cascades)).0, ops);
  }

  // The session is there for this user, who exists.
  predicate InForce(s: State, token: Token, user: UserId, expires: int) {
    token in s.sessions && s.sessions[token] == Session(user, expires) && user in s.users
  }

  // An operation that ends neither the session nor the user: no deletion of either, and no look at the
  // session and no cleanup after its expiry.
  predicate Spares(op: Op, token: Token, user: UserId, expires: int) {
    && !(op.DeleteSession? && op.token == token) && !(op.DeleteUser? && op.id == user)
    && (op.GetSession? && op.token == token ==> op.now <= expires)
    && (op.CleanupExpired? ==> op.now <= expires)
  }

  lemma SparedStep(s: State, op: Op, token: Token, user: UserId, expires: int)
    requires Inv(s) && InForce(s, token, user, expires) && Spares(op, token, user, expires)
    ensures InForce(Apply(s, op).0, token, user, expires)
  {
  }

  lemma {:induction false} SparedRun(s: State, ops: seq<Op>, token: Token, user: UserId, expires: int)
    requires Inv(s) && InForce(s, token, user, expires) && forall i :: 0 <= i < |ops| ==> Spares(ops[i], token, user, expires)
    ensures InForce(Run(s, ops), token, user, expires)
    decreases |ops|
  {
    if ops != [] {
      SparedStep(s, ops[0], token, user, expires);
      InvStep(s, ops[0]);
      SparedRun(Apply(s, ops[0]).0, ops[1..], token, user, expires);
    }
  }

  // The other half: a session that was created authenticates as its user, with that user's role at the
  // time, until it expires or it or the user is deleted, whatever else happens.
  lemma LiveSession(s: State, token: Token, user: UserId, expires: int, enforced: bool, ops: seq<Op>, now: int)
    requires Inv(s) && token !in s.sessions && user in s.users && now <= expires
    requires forall i :: 0 <= i < |ops| ==> Spares(ops[i], token, user, expires)
    ensures var t := Run(Apply(s, CreateSession(token, user, expires, enforced)).0, ops);
            user in t.users && Authenticate(t, token, now) == Some((user, t.users[user].role))
  {
    InvStep(s, CreateSession(token, user, expires, enforced));
    SparedRun(Apply(s, CreateSession(token, user, expires, enforced)).0, ops, token, user, expires);
  }

  // A session ends when it is deleted and when it is looked at after its expiry; a cleanup removes
  // exactly the expired ones.
  lemma SessionEnds(s: State, token: Token, now: int)
    requires token != ""
    ensures token !in Apply(s, DeleteSession(token)).0.sessions
    ensures forall k :: k != token && k in s.sessions ==> k in Apply(s, DeleteSession(token)).0.sessions
    ensures token in s.sessions && s.sessions[token].user in s.users && now > s.sessions[token].expires ==>
              token !in Apply(s, GetSession(token, now)).0.sessions && Apply(s, GetSession(token, now)).1 == NoSession
    ensures var t := Apply(s, CleanupExpired(now)).0;
            forall k :: k in t.sessions <==> k in s.sessions && !(s.sessions[k].expires < now)
  {
  }

  // ---------------------------------------------------------------- what is stored

  // Creating a user: when it succeeds, and the row it adds under an unused id.
  lemma CreateStores(s: State, username: string, hash: string, password: string, role: string)
    requires Inv(s)
    ensures var (t, e) := Apply(s, CreateUser(username, hash, password, role));
            && (e == Done <==> TrimSpace(username) != "" && password != "" && role in {"", "admin", "operator", "viewer"}
                               && forall id :: id in s.users ==> s.users[id].name != TrimSpace(username))
            && t.sessions == s.sessions
            && (e != Done ==> t.users == s.users)
            && (e == Done ==>
                  && s.next !in s.users && t.next == s.next + 1
                  && t.users == s.users[s.next := User(TrimSpace(username), hash, if role == "" then "viewer" else role)])
  {
  }

  // Changing a role, deleting a user, and seeding the configured one: what changes, and nothing else.
  lemma ChangeStores(s: State, id: UserId, role: string, cascades: bool)
    requires id in s.users
    ensures var (t, e) := Apply(s, UpdateUser(id, Some(role)));
            && (e == Done ==> t.users == s.users[id := User(s.users[id].name, s.users[id].hash, role)] && t.sessions == s.sessions)
            && (e == Done <==> role in {"admin", "operator", "viewer"}
                               && (role != "admin" && s.users[id].role == "admin" ==> |Admins(s)| > 1))
    ensures var (t, e) := Apply(s, DeleteUser(id, cascades));
            && (e == Done <==> (s.users[id].role == "admin" ==> |Admins(s)| > 1))
            && (e == Done ==> t.users == s.users - {id}
                              && forall k :: k in t.sessions <==> k in s.sessions && !(cascades && s.sessions[k].user == id))
  {
  }

  lemma SeedStores(s: State, username: string, hash: string, id: UserId)
    requires Inv(s) && TrimSpace(username) != "" && hash != ""
    ensures var t := Apply(s, SeedUser(username, hash)).0;
            && (id in s.users && s.users[id].name == TrimSpace(username) ==>
                  t.users.Keys == s.users.Keys && t.users[id] == User(TrimSpace(username), hash, "admin"))
            && (id in s.users && s.users[id].name != TrimSpace(username) ==> id in t.users && t.users[id] == s.users[id])
            && ((forall k :: k in s.users ==> s.users[k].name != TrimSpace(username)) ==>
                  t.users == s.users[s.next := User(TrimSpace(username), hash, "admin")])
  {
  }

  // ---------------------------------------------------------------- the last admin

  lemma AdminsCount(s: State, id: UserId)
    requires |Admins(s)| > 1
    ensures exists other :: other != id && IsAdmin(s, other)
  {
    var rest := Admins(s) - {id};
    assert |rest| >= |Admins(s)| - 1;
    assert rest != {};
    var other :| other in rest;
    assert IsAdmin(s, other);
  }

  ghost predicate HasAdmin(s: State) {
    exists id :: IsAdmin(s, id)
  }

  // A refused operation leaves the users as they are, and no operation removes the last admin.
  lemma AdminStep(s: State, op: Op)
    requires Inv(s) && HasAdmin(s)
    ensures HasAdmin(Apply(s, op).0)
    ensures Apply(s, op).1 != Done ==> Apply(s, op).0.users == s.users
  {
    var t := Apply(s, op).0;
    var a :| IsAdmin(s, a);
    match op
    case UpdateUser(id, role) => KeepsAdmin(s, t, id, a);
    case DeleteUser(id, _) => KeepsAdmin(s, t, id, a);
    case CreateUser(_, _, _, _) => assert IsAdmin(t, a);
    case SeedUser(_, _) => assert IsAdmin(t, a);
    case _ => assert IsAdmin(t, a);
  }

  lemma KeepsAdmin(s: State, t: State, id: UserId, a: UserId)
    requires IsAdmin(s, a)
    requires forall x :: x in s.users && x != id ==> x in t.users && t.users[x] == s.users[x]
    requires id == a ==> IsAdmin(t, a) || |Admins(s)| > 1
    ensures HasAdmin(t)
  {
    if id != a {
      assert IsAdmin(t, a);
    } else if !IsAdmin(t, a) {
      AdminsCount(s, id);
      var other :| other != id && IsAdmin(s, other);
      assert IsAdmin(t, other);
    }
  }

  // Every serial run from a state with an admin keeps an admin.
  lemma {:induction false} AdminRun(s: State, ops: seq<Op>)
    requires Inv(s) && HasAdmin(s)
    ensures HasAdmin(Run(s, ops))
    decreases |ops|
  {
    if ops != [] {
      AdminStep(s, ops[0]);
      InvStep(s, ops[0]);
      AdminRun(Apply(s, ops[0]).0, ops[1..]);
    }
  }

  // ---------------------------------------------------------------- the store

  // The database behind the store.  The history fields are kept for the specification only.
  class AuthStore {
    var users: map<UserId, User>
    var next: UserId
    var sessions: map<Token, Session>
    ghost var issued: map<Token, Session>
    ghost var deleted: set<UserId>

    ghost function View(): State
      reads this
    {
      State(users, next, sessions, issued, deleted)
    }

    constructor ()
      ensures View() == State(map[], 1, map[], map[], {}) && Inv(View())
    {
      users, next, sessions, issued, deleted := map[], 1, map[], map[], {};
    }

    method CreateUser(username: string, hash: string, password: string, role: string) returns (e: Outcome)
      requires Inv(View())
      modifies this
      ensures (View(), e) == Apply(old(View()), Op.CreateUser(username, hash, password, role))
      ensures Inv(View())
      ensures users == if e == Done then old(users)[old(next) := User(TrimSpace(username), hash, if role == "" then "viewer" else role)]
                       else old(users)
    {
      InvStep(View(), Op.CreateUser(username, hash, password, role));
      var name := TrimSpace(username);
      if name == "" || password == "" {
        return Invalid;
      }
      var r := role;
      if r == "" {
        r := "viewer";
      }
      if !ValidRole(r) {
        return Invalid;
      }
      if exists id :: id in users && users[id].name == name {
        return Taken;
      }
      users, next := users[next := User(name, hash, r)], next + 1;
      e := Done;
    }

    // Reads the role, then counts the admins.
    method EnsureNotLastAdmin(id: UserId) returns (e: Outcome)
      ensures e == LosingAdmin(View(), id)
      ensures e == Done && HasAdmin(View()) ==> exists other :: other in users && users[other].role == "admin" && (other != id || users[id].role != "admin")
    {
      if id !in users {
        return NoSuchUser;
      }
      if users[id].role != "admin" {
        return Done;
      }
      var admins := set a | a in users && users[a].role == "admin";
      assert admins == Admins(View());
      if |admins| <= 1 {
        return LastAdmin;
      }
      AdminsCount(View(), id);
      e := Done;
    }

    method UpdateUser(id: UserId, role: Option<string>) returns (e: Outcome)
      requires Inv(View())
      modifies this
      ensures (View(), e) == Apply(old(View()), Op.UpdateUser(id, role))
      ensures Inv(View()) && (old(HasAdmin(View())) ==> HasAdmin(View()))
    {
      StoreStep(View(), Op.UpdateUser(id, role));
      if role.None? {
        return Done;
      }
      if !ValidRole(role.value) {
        return Invalid;
      }
      if role.value != "admin" {
        e := EnsureNotLastAdmin(id);
        if e != Done {
          return;
        }
      }
      if id !in users {
        return NoSuchUser;
      }
      users := users[id := users[id].(role := role.value)];
      e := Done;
    }

    method DeleteUser(id: UserId, cascades: bool) returns (e: Outcome)
      requires Inv(View())
      modifies this
      ensures (View(), e) == Apply(old(View()), Op.DeleteUser(id, cascades))
      ensures Inv(View()) && (old(HasAdmin(View())) ==> HasAdmin(View()))
    {
      StoreStep(View(), Op.DeleteUser(id, cascades));
      e := EnsureNotLastAdmin(id);
      if e != Done {
        return;
      }
      users := users - {id};
      deleted := deleted + {id};
      if cascades {
        sessions := map t | t in sessions && sessions[t].user != id :: sessions[t];
      }
    }

    method SeedUser(username: string, hash: string)
      requires Inv(View())
      modifies this
      ensures View() == Apply(old(View()), Op.SeedUser(username, hash)).0
      ensures Inv(View())
    {
      InvStep(View(), Op.SeedUser(username, hash));
      var name := TrimSpace(username);
      if name == "" || hash == "" {
        return;
      }
      if exists id :: id in users && users[id].name == name {
        users := map id | id in users :: if users[id].name == name then User(name, hash, "admin") else users[id];
      } else {
        users, next := users[next := User(name, hash, "admin")], next + 1;
      }
    }

    // Inserts the row and reads it back.
    method CreateSession(token: Token, user: UserId, expires: int, now: int, enforced: bool)
      returns (e: Outcome, who: Option<(UserId, string)>)
      requires Inv(View())
      modifies this
      ensures var first := Apply(old(View()), Op.CreateSession(token, user, expires, enforced));
              if first.1 != Done then (View(), e, who) == (first.0, first.1, None)
              else (View(), e) == Apply(first.0, Op.GetSession(token, now)) && who == Authenticate(first.0, token, now)
      ensures Inv(View())
      ensures who.Some? ==> who.value.0 == user && now <= expires
    {
      InvStep(View(), Op.CreateSession(token, user, expires, enforced));
      if token in sessions {
        return Taken, None;
      }
      if enforced && user !in users {
        return NoSuchUser, None;
      }
      sessions := sessions[token := Session(user, expires)];
      issued := issued[token := Session(user, expires)];
      e, who := GetSession(token, now);
    }

    // The join, and the deletion of a row found expired.
    method GetSession(token: Token, now: int) returns (e: Outcome, who: Option<(UserId, string)>)
      requires Inv(View())
      modifies this
      ensures (View(), e) == Apply(old(View()), Op.GetSession(token, now))
      ensures who == Authenticate(old(View()), token, now) && Inv(View())
      ensures who.Some? ==> && token in issued && who.value.0 == issued[token].user
                            && now <= issued[token].expires && who.value.0 !in deleted
    {
      InvStep(View(), Op.GetSession(token, now));
      if token !in sessions || sessions[token].user !in users {
        return NoSession, None;
      }
      var row := sessions[token];
      if now > row.expires {
        DeleteSession(token);
        return NoSession, None;
      }
      return Done, Some((row.user, users[row.user].role));
    }

    method DeleteSession(token: Token)
      requires Inv(View())
      modifies this
      ensures View() == DropSession(old(View()), token) && Inv(View())
    {
      if token == "" {
        return;
      }
      sessions := sessions - {token};
    }

    method CleanupExpiredSessions(now: int) returns (removed: nat)
      requires Inv(View())
      modifies this
      ensures View() == Apply(old(View()), Op.CleanupExpired(now)).0 && Inv(View())
      ensures removed == |set t | t in old(sessions) && old(sessions)[t].expires < now|
    {
      InvStep(View(), Op.CleanupExpired(now));
      var expired := set t | t in sessions && sessions[t].expires < now;
      sessions := map t | t in sessions && sessions[t].expires >= now :: sessions[t];
      removed := |expired|;
    }
  }

  lemma StoreStep(s: State, op: Op)
    requires Inv(s)
    ensures Inv(Apply(s, op).0) && (HasAdmin(s) ==> HasAdmin(Apply(s, op).0))
  {
    InvStep(s, op);
    if HasAdmin(s) {
      AdminStep(s, op);
    }
  }
}
