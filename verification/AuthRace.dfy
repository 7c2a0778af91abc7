/** Removing and demoting users as interleaved statements.

    Deleting a user and taking the admin role from one are a check followed by a write, and the check
    itself reads the role first and counts the admins next.  Each of these is a statement of its own,
    so other calls can come between any two of them. */
module AuthRace {
  import opened Common
  import opened Auth

  type CallId = nat

  datatype Change = Removal(id: UserId, cascades: bool) | Demotion(id: UserId, role: string)

  // A call that has read the admin role and has yet to count, or that has passed the check.
  datatype Flight = Counting(change: Change) | Ready(change: Change)

  datatype Racing = Racing(store: State, flights: map<CallId, Flight>)

  datatype Move =
    | ReadRole(call: CallId, change: Change)
    | Count(call: CallId)
    | Write(call: CallId)
    | Other(op: Op)       // any operation that takes the admin role from nobody

  predicate Valid(c: Change) {
    c.Demotion? ==> ValidRole(c.role) && c.role != "admin"
  }

  function OpOf(c: Change): Op {
    match c
    case Removal(id, cascades) => DeleteUser(id, cascades)
    case Demotion(id, role) => UpdateUser(id, Some(role))
  }

  predicate Takes(op: Op) {
    op.DeleteUser? || (op.UpdateUser? && op.role'.Some? && op.role'.value != "admin")
  }

  // The write affects no row when the user is gone by then.
  function Written(s: State, c: Change): State {
    if c.id !in s.users then s
    else
      match c
      case Removal(id, cascades) => RemoveUser(s, id, cascades)
      case Demotion(id, role) => SetUser(s, id, s.users[id].(role := role))
  }

  function OnRead(r: Racing, k: CallId, c: Change): Racing {
    if k in r.flights || !Valid(c) || c.id !in r.store.users then r
    else r.(flights := r.flights[k := if r.store.users[c.id].role == "admin" then Counting(c) else Ready(c)])
  }

  function OnCount(r: Racing, k: CallId): Racing {
    if k !in r.flights || !r.flights[k].Counting? then r
    else if |Admins(r.store)| <= 1 then r.(flights := r.flights - {k})
    else r.(flights := r.flights[k := Ready(r.flights[k].change)])
  }

  function OnWrite(r: Racing, k: CallId): Racing {
    if k !in r.flights || !r.flights[k].Ready? then r
    else Racing(Written(r.store, r.flights[k].change), r.flights - {k})
  }

  function Next(r: Racing, m: Move): Racing {
    match m
    case ReadRole(k, c) => OnRead(r, k, c)
    case Count(k) => OnCount(r, k)
    case Write(k) => OnWrite(r, k)
    case Other(op) => if Takes(op) then r else r.(store := Apply(r.store, op).0)
  }

  function RunMoves(r: Racing, moves: seq<Move>): Racing
    decreases |moves|
  {
    if moves == [] then r else RunMoves(Next(r, moves[0]), moves[1..])
  }

  // ---------------------------------------------------------------- alone, it is the serial operation

  // With nothing in between, the three statements are the operation of the serial model.
  lemma AloneIsSerial(r: Racing, k: CallId, c: Change)
    requires k !in r.flights && Valid(c)
    ensures OnWrite(OnCount(OnRead(r, k, c), k), k) == r.(store := Apply(r.store, OpOf(c)).0)
  {
    var read := OnRead(r, k, c);
    if c.id in r.store.users {
      assert read.flights - {k} == r.flights;
      if |Admins(r.store)| > 1 || r.store.users[c.id].role != "admin" {
        var counted := OnCount(read, k);
        assert counted.flights[k] == Ready(c) && counted.flights - {k} == r.flights;
      }
    }
  }

  // ---------------------------------------------------------------- what the writes in flight leave

  ghost predicate Targeted(flights: map<CallId, Flight>, id: UserId) {
    exists k :: k in flights && flights[k].Ready? && flights[k].change.id == id
  }

  // Some admin is the target of no call that has passed its check.
  ghost predicate Covered(r: Racing) {
    exists a :: IsAdmin(r.store, a) && !Targeted(r.flights, a)
  }

  // The calls in flight write, in this order; an entry that names none of them does nothing.
  function Writes(r: Racing, order: seq<CallId>): Racing
    decreases |order|
  {
    if order == [] then r else Writes(OnWrite(r, order[0]), order[1..])
  }

  ghost predicate AllValid(flights: map<CallId, Flight>) {
    forall k :: k in flights ==> Valid(flights[k].change)
  }

  // One write: an admin who is no target stays, and whoever is an admin and no target afterwards was
  // so before.
  lemma WriteKeeps(r: Racing, k: CallId, a: UserId)
    requires AllValid(r.flights)
    ensures AllValid(OnWrite(r, k).flights)
    ensures (IsAdmin(r.store, a) && !Targeted(r.flights, a))
        <==> (IsAdmin(OnWrite(r, k).store, a) && !Targeted(OnWrite(r, k).flights, a))
  {
    var t := OnWrite(r, k);
    if k in r.flights && r.flights[k].Ready? {
      var c := r.flights[k].change;
      if a == c.id {
        assert Targeted(r.flights, a);
      } else {
        assert Targeted(r.flights, a) ==> Targeted(t.flights, a) by {
          if Targeted(r.flights, a) {
            var l :| l in r.flights && r.flights[l].Ready? && r.flights[l].change.id == a;
            assert l in t.flights && t.flights[l] == r.flights[l];
          }
        }
      }
    }
  }

  lemma {:induction false} WritesKeep(r: Racing, order: seq<CallId>, a: UserId)
    requires AllValid(r.flights)
    ensures AllValid(Writes(r, order).flights)
    ensures (IsAdmin(r.store, a) && !Targeted(r.flights, a))
        <==> (IsAdmin(Writes(r, order).store, a) && !Targeted(Writes(r, order).flights, a))
    decreases |order|
  {
    if order != [] {
      WriteKeeps(r, order[0], a);
      WritesKeep(OnWrite(r, order[0]), order[1..], a);
    }
  }

  // Nothing that passed its check is left.
  ghost predicate Landed(r: Racing) {
    forall k :: k in r.flights ==> !r.flights[k].Ready?
  }

  // The order names every call that has passed its check.
  ghost predicate NamesAll(r: Racing, order: seq<CallId>) {
    forall k :: k in r.flights && r.flights[k].Ready? ==> k in order
  }

  // Every order that names all of them completes them.
  lemma {:induction false} OrderLands(r: Racing, order: seq<CallId>)
    requires NamesAll(r, order)
    ensures Landed(Writes(r, order))
    decreases |order|
  {
    if order != [] {
      var t := OnWrite(r, order[0]);
      forall k | k in t.flights && t.flights[k].Ready?
        ensures k in order[1..]
      {
        assert k in order && k != order[0];
      }
      OrderLands(t, order[1..]);
    }
  }

  // However the removals and demotions in flight are completed, an admin remains if and only if some
  // admin is the target of none of them.
  lemma CompletedExact(r: Racing, order: seq<CallId>)
    requires AllValid(r.flights) && NamesAll(r, order)
    ensures HasAdmin(Writes(r, order).store) <==> Covered(r)
  {
    var t := Writes(r, order);
    OrderLands(r, order);
    forall a
      ensures IsAdmin(t.store, a) <==> IsAdmin(r.store, a) && !Targeted(r.flights, a)
    {
      WritesKeep(r, order, a);
    }
    if Covered(r) {
      var a :| IsAdmin(r.store, a) && !Targeted(r.flights, a);
      assert IsAdmin(t.store, a);
    }
  }

  // ---------------------------------------------------------------- which step loses the guarantee

  // A check that passes although its target is the only admin not already targeted: the count it reads
  // includes admins whose removal is on its way.
  ghost predicate Uncovers(r: Racing, m: Move) {
    && m.Count? && m.call in r.flights && r.flights[m.call].Counting? && |Admins(r.store)| > 1
    && forall a :: IsAdmin(r.store, a) && !Targeted(r.flights, a) ==> a == r.flights[m.call].change.id
  }

  lemma OtherKeeps(s: State, op: Op, a: UserId)
    requires Inv(s) && !Takes(op) && IsAdmin(s, a)
    ensures IsAdmin(Apply(s, op).0, a)
  {
  }

  lemma ReadKeeps(r: Racing, k: CallId, c: Change, a: UserId)
    requires IsAdmin(r.store, a) && !Targeted(r.flights, a)
    ensures !Targeted(OnRead(r, k, c).flights, a)
  {
  }

  lemma CountTargets(r: Racing, k: CallId, a: UserId)
    requires k in r.flights && r.flights[k].Counting?
    ensures Targeted(OnCount(r, k).flights, a)
        <==> Targeted(r.flights, a) || (|Admins(r.store)| > 1 && a == r.flights[k].change.id)
  {
    var t := OnCount(r, k);
    if Targeted(r.flights, a) {
      var l :| l in r.flights && r.flights[l].Ready? && r.flights[l].change.id == a;
      assert l in t.flights && t.flights[l] == r.flights[l];
    }
    if |Admins(r.store)| > 1 {
      assert t.flights[k] == Ready(r.flights[k].change);
    }
  }

  // From a covered state a move stays covered if and only if it is not such a check.
  lemma CoveredStep(r: Racing, m: Move)
    requires Inv(r.store) && AllValid(r.flights) && Covered(r)
    ensures Covered(Next(r, m)) <==> !Uncovers(r, m)
  {
    var a :| IsAdmin(r.store, a) && !Targeted(r.flights, a);
    var t := Next(r, m);
    match m {
      case ReadRole(k, c) => ReadKeeps(r, k, c, a); assert IsAdmin(t.store, a);
      case Write(k) => WriteKeeps(r, k, a); assert IsAdmin(t.store, a);
      case Other(op) =>
        if !Takes(op) {
          OtherKeeps(r.store, op, a);
        }
        assert IsAdmin(t.store, a) && !Targeted(t.flights, a);
      case Count(k) =>
        if k in r.flights && r.flights[k].Counting? {
          CountCovers(r, k);
        } else {
          assert t == r;
        }
    }
  }

  lemma CountCovers(r: Racing, k: CallId)
    requires Covered(r) && k in r.flights && r.flights[k].Counting?
    ensures Covered(OnCount(r, k)) <==> !Uncovers(r, Count(k))
  {
    var t := OnCount(r, k);
    forall a
      ensures (IsAdmin(t.store, a) && !Targeted(t.flights, a)) <==>
              (IsAdmin(r.store, a) && !Targeted(r.flights, a) && !(|Admins(r.store)| > 1 && a == r.flights[k].change.id))
    {
      CountTargets(r, k, a);
    }
    var a :| IsAdmin(r.store, a) && !Targeted(r.flights, a);
    if !Uncovers(r, Count(k)) {
      if |Admins(r.store)| > 1 {
        var b :| IsAdmin(r.store, b) && !Targeted(r.flights, b) && b != r.flights[k].change.id;
        assert IsAdmin(t.store, b) && !Targeted(t.flights, b);
      } else {
        assert IsAdmin(t.store, a) && !Targeted(t.flights, a);
      }
    }
  }

  lemma MoveKeeps(r: Racing, m: Move)
    requires Inv(r.store) && AllValid(r.flights)
    ensures Inv(Next(r, m).store) && AllValid(Next(r, m).flights)
  {
    if m.Other? {
      InvStep(r.store, m.op);
    } else if m.Write? && m.call in r.flights && r.flights[m.call].Ready? {
      var c := r.flights[m.call].change;
      assert c.id in r.store.users ==> c.id < r.store.next;
    }
  }

  ghost predicate NeverUncovers(r: Racing, moves: seq<Move>)
    decreases |moves|
  {
    moves == [] || (!Uncovers(r, moves[0]) && NeverUncovers(Next(r, moves[0]), moves[1..]))
  }

  // Every run in which no check passes that way keeps an admin in every state, and after whatever is
  // in flight has been written.
  lemma {:induction false} CoveredRun(r: Racing, moves: seq<Move>, order: seq<CallId>)
    requires Inv(r.store) && AllValid(r.flights) && Covered(r) && NeverUncovers(r, moves)
    ensures Covered(RunMoves(r, moves)) && HasAdmin(RunMoves(r, moves).store)
    ensures HasAdmin(Writes(RunMoves(r, moves), order).store)
    decreases |moves|
  {
    if moves == [] {
      var a :| IsAdmin(r.store, a) && !Targeted(r.flights, a);
      WritesKeep(r, order, a);
      assert IsAdmin(Writes(r, order).store, a);
    } else {
      CoveredStep(r, moves[0]);
      MoveKeeps(r, moves[0]);
      CoveredRun(Next(r, moves[0]), moves[1..], order);
    }
  }

  // And such a check is enough: from a covered state, whatever move comes next and in whatever order
  // the calls then in flight are completed, an admin remains if and only if the move was no such check.
  lemma RaceExact(r: Racing, m: Move, order: seq<CallId>)
    requires Inv(r.store) && AllValid(r.flights) && Covered(r) && NamesAll(Next(r, m), order)
    ensures HasAdmin(Writes(Next(r, m), order).store) <==> !Uncovers(r, m)
  {
    CoveredStep(r, m);
    MoveKeeps(r, m);
    CompletedExact(Next(r, m), order);
  }

  // A check made while no other call is between its check and its write is never such a check, which is
  // why one operation at a time is safe.
  lemma AloneCovers(r: Racing, k: CallId)
    requires Covered(r) && Landed(r)
    ensures !Uncovers(r, Count(k))
  {
    if k in r.flights && r.flights[k].Counting? && |Admins(r.store)| > 1 {
      AdminsCount(r.store, r.flights[k].change.id);
      var other :| other != r.flights[k].change.id && IsAdmin(r.store, other);
      assert !Targeted(r.flights, other);
    }
  }

  // ---------------------------------------------------------------- the race

  // Two calls, each removing or demoting one of the only two admins, that both check before either
  // writes.
  function Race(one: Change, two: Change): seq<Move> {
    [ReadRole(1, one), ReadRole(2, two), Count(1), Count(2), Write(1), Write(2)]
  }

  lemma RunStep(r: Racing, m: Move, rest: seq<Move>)
    ensures RunMoves(r, [m] + rest) == RunMoves(Next(r, m), rest)
  {
    assert ([m] + rest)[1..] == rest;
  }

  lemma BothPass(s: State, one: Change, two: Change)
    requires Valid(one) && Valid(two) && one.id != two.id && Admins(s) == {one.id, two.id}
    ensures var r := OnCount(OnCount(OnRead(OnRead(Racing(s, map[]), 1, one), 2, two), 1), 2);
            r == Racing(s, map[1 := Ready(one), 2 := Ready(two)])
  {
    assert one.id in Admins(s) && two.id in Admins(s);
    assert |{one.id, two.id}| == 2;
    var r2 := OnRead(OnRead(Racing(s, map[]), 1, one), 2, two);
    assert r2.flights == map[1 := Counting(one), 2 := Counting(two)];
    assert OnCount(r2, 1).flights == map[1 := Ready(one), 2 := Counting(two)];
    assert OnCount(OnCount(r2, 1), 2).flights == map[1 := Ready(one), 2 := Ready(two)];
  }

  lemma RacingDeletes(s: State, one: Change, two: Change)
    requires Valid(one) && Valid(two) && one.id != two.id && Admins(s) == {one.id, two.id}
    ensures var r := RunMoves(Racing(s, map[]), Race(one, two));
            r.flights == map[] && !HasAdmin(r.store)
  {
    BothPass(s, one, two);
    var r0 := Racing(s, map[]);
    var r1 := Next(r0, ReadRole(1, one));
    var r2 := Next(r1, ReadRole(2, two));
    var r3 := Next(r2, Count(1));
    var r4 := Next(r3, Count(2));
    RunStep(r0, ReadRole(1, one), [ReadRole(2, two), Count(1), Count(2), Write(1), Write(2)]);
    RunStep(r1, ReadRole(2, two), [Count(1), Count(2), Write(1), Write(2)]);
    RunStep(r2, Count(1), [Count(2), Write(1), Write(2)]);
    RunStep(r3, Count(2), [Write(1), Write(2)]);
    BothWrite(s, one, two);
  }

  lemma BothWrite(s: State, one: Change, two: Change)
    requires Valid(one) && Valid(two) && one.id != two.id && Admins(s) == {one.id, two.id}
    ensures var r := Racing(s, map[1 := Ready(one), 2 := Ready(two)]);
            var t := RunMoves(r, [Write(1), Write(2)]);
            t.flights == map[] && !HasAdmin(t.store)
  {
    var r := Racing(s, map[1 := Ready(one), 2 := Ready(two)]);
    var t := Next(r, Write(1));
    RunStep(r, Write(1), [Write(2)]);
    RunStep(t, Write(2), []);
    assert t.flights == map[2 := Ready(two)];
    assert Next(t, Write(2)).flights == map[];
    assert [1, 2][1..] == [2] && [2][1..] == [];
    assert Writes(t, [2]) == Writes(Next(t, Write(2)), []);
    assert Writes(r, [1, 2]) == Next(t, Write(2));
    CompletedExact(r, [1, 2]);
    forall a | IsAdmin(s, a)
      ensures Targeted(r.flights, a)
    {
      assert a in Admins(s);
      assert r.flights[if a == one.id then 1 else 2].change.id == a;
    }
  }
}
