/** The agent's stream contexts: every context that is created is cancelled once, whoever ends it. */
module Streams {
  import opened Common
  import opened Strings

  type Id = string
  type Context = nat

  datatype Kind = Log | Event

  datatype Key = Key(kind: Kind, id: Id)

  // `installing`: contexts created by a start that has not taken the lock yet.  `held`: cancel
  // functions in the local variables of callers that have released the lock and are about to call
  // them.  `cancelled` counts the calls made.  `home` is history: what each context was created for.
  datatype State = State(
    logs: map<Id, Context>, events: map<Id, Context>,
    installing: map<Context, Key>, held: multiset<Context>, cancelled: multiset<Context>,
    home: map<Context, Key>)

  // Steps are the sections between lock operations: Create and Install make up a start, Take and
  // Cancel a stop.  A goroutine that ends takes whatever its own key holds, as its deferred stop.
  datatype Step =
    | Create(c: Context, key: Key)
    | Install(c: Context)
    | Take(key: Key)
    | Finish(c: Context)
    | TakeAll
    | Cancel(c: Context)

  const INIT := State(map[], map[], map[], multiset{}, multiset{}, map[])

  function Table(s: State, kind: Kind): map<Id, Context> {
    if kind.Log? then s.logs else s.events
  }

  function WithTable(s: State, kind: Kind, m: map<Id, Context>): State {
    if kind.Log? then s.(logs := m) else s.(events := m)
  }

  function Entry(m: map<Id, Context>, id: Id): multiset<Context> {
    if id in m then multiset{m[id]} else multiset{}
  }

  // Under the lock: cancel the stream already there, then store this one.
  function Installed(s: State, c: Context, key: Key): State {
    var m := Table(s, key.kind);
    WithTable(s, key.kind, m[key.id := c])
      .(installing := s.installing - {c}, cancelled := s.cancelled + Entry(m, key.id))
  }

  // Under the lock: remove the entry and keep its cancel function.
  function Taken(s: State, key: Key): State {
    var m := Table(s, key.kind);
    WithTable(s, key.kind, m - {key.id}).(held := s.held + Entry(m, key.id))
  }

  function Next(s: State, st: Step): State {
    match st
    case Create(c, key) =>
      if c in s.home then s else s.(installing := s.installing[c := key], home := s.home[c := key])
    case Install(c) => if c in s.installing then Installed(s, c, s.installing[c]) else s
    case Take(key) => Taken(s, key)
    case Finish(c) => if c in s.home && c !in s.installing then Taken(s, s.home[c]) else s
    case TakeAll =>
      s.(logs := map[], events := map[], held := s.held + multiset(s.logs.Values) + multiset(s.events.Values))
    case Cancel(c) =>
      if c in s.held then s.(held := s.held - multiset{c}, cancelled := s.cancelled + multiset{c}) else s
  }

  function Run(s: State, steps: seq<Step>): State
    decreases |steps|
  {
    if steps == [] then s else Run(Next(s, steps[0]), steps[1..])
  }

  // ---------------------------------------------------------------- conservation

  ghost predicate AtHome(m: map<Id, Context>, kind: Kind, home: map<Context, Key>) {
    forall id :: id in m ==> m[id] in home && home[m[id]] == Key(kind, id)
  }

  ghost predicate TablesHome(s: State) {
    AtHome(s.logs, Log, s.home) && AtHome(s.events, Event, s.home)
  }

  predicate InTable(s: State, c: Context) {
    c in s.home && s.home[c].id in Table(s, s.home[c].kind) && Table(s, s.home[c].kind)[s.home[c].id] == c
  }

  // In how many places a context is.
  function Places(s: State, c: Context): nat {
    (if c in s.installing then 1 else 0) + (if InTable(s, c) then 1 else 0) + s.held[c] + s.cancelled[c]
  }

  // A table holds contexts only under their own keys, and every context ever created is in exactly
  // one place, once: being installed, in its table, held by a caller about to cancel it, cancelled.
  ghost predicate Conserved(s: State) {
    && TablesHome(s)
    && (forall c :: c in s.installing ==> c in s.home && s.home[c] == s.installing[c])
    && (forall c :: Places(s, c) == if c in s.home then 1 else 0)
  }

  lemma EntryIs(s: State, key: Key, c: Context)
    requires TablesHome(s)
    ensures Entry(Table(s, key.kind), key.id)[c] == if InTable(s, c) && s.home[c] == key then 1 else 0
  {
  }

  lemma TakenTable(s: State, key: Key, c: Context)
    requires TablesHome(s)
    ensures InTable(Taken(s, key), c) <==> InTable(s, c) && s.home[c] != key
    ensures TablesHome(Taken(s, key))
  {
  }

  lemma KeepsTaken(s: State, key: Key)
    requires Conserved(s)
    ensures Conserved(Taken(s, key))
  {
    forall c
      ensures Places(Taken(s, key), c) == Places(s, c)
    {
      TakenPlaces(s, key, c);
    }
    TakenTable(s, key, 0);
  }

  lemma TakenPlaces(s: State, key: Key, c: Context)
    requires TablesHome(s)
    ensures Places(Taken(s, key), c) == Places(s, c)
  {
    EntryIs(s, key, c);
    TakenTable(s, key, c);
  }

  lemma InstalledTable(s: State, c: Context, key: Key, x: Context)
    requires TablesHome(s) && c in s.home && s.home[c] == key
    ensures InTable(Installed(s, c, key), x) <==> x == c || (InTable(s, x) && s.home[x] != key)
    ensures TablesHome(Installed(s, c, key))
  {
  }

  lemma InstalledPlaces(s: State, c: Context, key: Key, x: Context)
    requires TablesHome(s) && c in s.home && s.home[c] == key && c in s.installing && !InTable(s, c)
    ensures Places(Installed(s, c, key), x) == Places(s, x)
  {
    EntryIs(s, key, x);
    InstalledTable(s, c, key, x);
  }

  lemma KeepsInstalled(s: State, c: Context)
    requires Conserved(s) && c in s.installing
    ensures Conserved(Installed(s, c, s.installing[c]))
  {
    var key := s.installing[c];
    assert Places(s, c) == 1;
    forall x
      ensures Places(Installed(s, c, key), x) == Places(s, x)
    {
      InstalledPlaces(s, c, key, x);
    }
    InstalledTable(s, c, key, c);
  }

  lemma KeepsCreated(s: State, c: Context, key: Key)
    requires Conserved(s) && c !in s.home
    ensures Conserved(Next(s, Create(c, key)))
  {
    var t := Next(s, Create(c, key));
    assert Places(s, c) == 0;
    forall x
      ensures Places(t, x) == if x == c then 1 else Places(s, x)
    {
      if x == c {
        assert !InTable(t, c);
      }
    }
  }

  lemma KeepsTakenAll(s: State)
    requires Conserved(s)
    ensures Conserved(Next(s, TakeAll))
  {
    var t := Next(s, TakeAll);
    forall c
      ensures Places(t, c) == Places(s, c)
    {
      assert c in s.logs.Values <==> InTable(s, c) && s.home[c].kind.Log?;
      assert c in s.events.Values <==> InTable(s, c) && s.home[c].kind.Event?;
    }
  }

  lemma KeepsCancelled(s: State, c: Context)
    requires Conserved(s) && c in s.held
    ensures Conserved(Next(s, Cancel(c)))
  {
    var t := Next(s, Cancel(c));
    forall x
      ensures Places(t, x) == Places(s, x)
    {
      assert InTable(t, x) <==> InTable(s, x);
    }
  }

  lemma StepKeeps(s: State, st: Step)
    requires Conserved(s)
    ensures Conserved(Next(s, st))
  {
    match st {
      case Create(c, key) =>
        if c !in s.home {
          KeepsCreated(s, c, key);
        }
      case Install(c) =>
        if c in s.installing {
          KeepsInstalled(s, c);
        }
      case Take(key) => KeepsTaken(s, key);
      case Finish(c) =>
        if c in s.home && c !in s.installing {
          KeepsTaken(s, s.home[c]);
        }
      case TakeAll => KeepsTakenAll(s);
      case Cancel(c) =>
        if c in s.held {
          KeepsCancelled(s, c);
        }
    }
  }

  // Every interleaving of starts, restarts, stops, ending goroutines and cancel-all.
  lemma {:induction false} EveryRun(s: State, steps: seq<Step>)
    requires Conserved(s)
    ensures Conserved(Run(s, steps))
    decreases |steps|
  {
    if steps != [] {
      StepKeeps(s, steps[0]);
      EveryRun(Next(s, steps[0]), steps[1..]);
    }
  }

  // What the steps do: an installed context is in the table under its key, and the one that was there
  // is cancelled; a stop takes the entry out and holds it; cancel-all takes every entry out.
  lemma InstallDoes(s: State, c: Context, id: Id)
    requires c in s.installing && s.installing[c].id == id
    ensures var key, t := s.installing[c], Next(s, Install(c));
            && c !in t.installing
            && (key.kind.Log? ==> t.logs == s.logs[id := c] && t.events == s.events)
            && (key.kind.Event? ==> t.events == s.events[id := c] && t.logs == s.logs)
            && (forall was :: InTable(s, was) && s.home[was] == key ==> was in t.cancelled)
  {
  }

  lemma TakeDoes(s: State, key: Key)
    ensures var t := Next(s, Take(key));
            && t.logs == (if key.kind.Log? then s.logs - {key.id} else s.logs)
            && t.events == (if key.kind.Event? then s.events - {key.id} else s.events)
            && (forall was :: InTable(s, was) && s.home[was] == key ==> was in t.held)
  {
  }

  lemma TakeAllDoes(s: State)
    ensures var t := Next(s, TakeAll);
            && t.logs == map[] && t.events == map[]
            && (forall c :: InTable(s, c) ==> c in t.held)
  {
  }

  lemma CancelDoes(s: State, c: Context)
    requires c in s.held
    ensures c in Next(s, Cancel(c)).cancelled && Next(s, Cancel(c)).held == s.held - multiset{c}
  {
  }

  // Nobody is between two of its lock sections.
  predicate Quiet(s: State) {
    s.installing == map[] && s.held == multiset{}
  }

  // So in every quiet reachable state a context is either in its table, not cancelled, or gone from
  // it and cancelled exactly once; with the tables emptied by cancel-all, every one is cancelled once.
  lemma QuietSplit(steps: seq<Step>, c: Context)
    requires var s := Run(INIT, steps); Quiet(s) && c in s.home
    ensures var s := Run(INIT, steps);
            s.cancelled[c] == if InTable(s, c) then 0 else 1
    ensures var s := Run(INIT, steps);
            s.logs == map[] && s.events == map[] ==> s.cancelled[c] == 1
  {
    EveryRun(INIT, steps);
    assert Places(Run(INIT, steps), c) == 1;
  }

  // A goroutine's deferred stop goes by id: it takes another goroutine's context exactly when the
  // stream was restarted under its id, and then that stream is live and nobody asked it to stop.
  lemma FinishTakes(s: State, c: Context, other: Context)
    requires Conserved(s) && c in s.home && c !in s.installing && other != c
    ensures Next(s, Finish(c)).held[other] > s.held[other] <==> InTable(s, other) && s.home[other] == s.home[c]
    ensures InTable(s, other) ==> s.cancelled[other] == 0 && s.held[other] == 0
  {
    assert Places(s, other) <= 1;
    var key := s.home[c];
    assert other in Entry(Table(s, key.kind), key.id) <==> InTable(s, other) && s.home[other] == key;
  }

  // It happens: a stream restarted under the same id is cancelled by the old goroutine's ending.
  lemma RestartLost(id: Id)
    ensures var k := Key(Log, id);
            var restarted := Next(Next(Next(Next(INIT, Create(1, k)), Install(1)), Create(2, k)), Install(2));
            restarted.logs == map[id := 2] && restarted.cancelled == multiset{1} &&
            Next(Next(restarted, Finish(1)), Cancel(2)).cancelled == multiset{1, 2}
  {
    var k := Key(Log, id);
    var first := Next(Next(INIT, Create(1, k)), Install(1));
    assert first == State(map[id := 1], map[], map[], multiset{}, multiset{}, map[1 := k]);
    var created := Next(first, Create(2, k));
    assert created.installing == map[2 := k];
    var restarted := Next(created, Install(2));
    assert restarted.logs == map[id := 2] && restarted.home == map[1 := k, 2 := k];
    assert restarted.installing == map[];
    assert Next(restarted, Finish(1)).held == multiset{2};
  }

  // ---------------------------------------------------------------- the agent's tables

  class StreamTables {
    var logs: map<Id, Context>
    var events: map<Id, Context>
    var cancelled: seq<Context>  // the calls of cancel functions, in order

    constructor ()
      ensures logs == map[] && events == map[] && cancelled == []
    {
      logs, events, cancelled := map[], map[], [];
    }

    // StartLogStream and StartEventStream, for a context the caller created; a blank request id, or
    // for logs a blank container id, is refused.
    method Start(kind: Kind, c: Context, id: Id, container: string) returns (ok: bool)
      modifies this
      ensures ok == (!Blank(id) && (kind.Log? ==> !Blank(container)))
      ensures !ok ==> logs == old(logs) && events == old(events) && cancelled == old(cancelled)
      ensures ok ==> (logs, events) == if kind.Log? then (old(logs)[id := c], old(events)) else (old(logs), old(events)[id := c])
      ensures ok ==> multiset(cancelled) == multiset(old(cancelled)) + Entry(if kind.Log? then old(logs) else old(events), id)
    {
      if TrimSpace(id) == "" {
        return false;
      }
      if kind.Log? && TrimSpace(container) == "" {
        return false;
      }
      match kind {
        case Log =>
          if id in logs {
            cancelled := cancelled + [logs[id]];
          }
          logs := logs[id := c];
        case Event =>
          if id in events {
            cancelled := cancelled + [events[id]];
          }
          events := events[id := c];
      }
      ok := true;
    }

    method Stop(kind: Kind, id: Id)
      modifies this
      ensures (logs, events) == if kind.Log? then (old(logs) - {id}, old(events)) else (old(logs), old(events) - {id})
      ensures multiset(cancelled) == multiset(old(cancelled)) + Entry(if kind.Log? then old(logs) else old(events), id)
    {
      var m := if kind.Log? then logs else events;
      match kind {
        case Log => logs := logs - {id};
        case Event => events := events - {id};
      }
      if id in m {
        cancelled := cancelled + [m[id]];
      }
    }

    // Collects the cancel functions and empties both tables, then calls them.
    method CancelAll()
      modifies this
      ensures logs == map[] && events == map[]
      ensures exists ls, es :: Lists(ls, old(logs)) && Lists(es, old(events)) && cancelled == old(cancelled) + ls + es
    {
      var logCancels, eventCancels;
      logCancels, logs := Collect(logs);
      eventCancels, events := Collect(events);
      ghost var before := cancelled;
      var i := 0;
      while i < |logCancels|
        invariant 0 <= i <= |logCancels| && logs == map[] && events == map[]
        invariant cancelled == before + logCancels[..i]
      {
        cancelled := cancelled + [logCancels[i]];
        i := i + 1;
      }
      i := 0;
      while i < |eventCancels|
        invariant 0 <= i <= |eventCancels| && logs == map[] && events == map[]
        invariant cancelled == before + logCancels + eventCancels[..i]
      {
        cancelled := cancelled + [eventCancels[i]];
        i := i + 1;
      }
    }
  }

  // The list has each entry's context once, in some order of the ids.
  ghost predicate Lists(cancels: seq<Context>, m: map<Id, Context>) {
    exists ids: seq<Id> :: ListsBy(cancels, m, ids)
  }

  ghost predicate ListsBy(cancels: seq<Context>, m: map<Id, Context>, ids: seq<Id>) {
    && |ids| == |cancels| == |m|
    && (forall i :: 0 <= i < |ids| ==> ids[i] in m && m[ids[i]] == cancels[i])
    && (forall i, j :: 0 <= i < j < |ids| ==> ids[i] != ids[j])
  }

  // Ranging over a map while deleting from it.
  method Collect(m: map<Id, Context>) returns (cancels: seq<Context>, rest: map<Id, Context>)
    ensures rest == map[] && Lists(cancels, m)
  {
    ghost var ids: seq<Id> := [];
    cancels, rest := [], m;
    while rest != map[]
      invariant |ids| == |cancels| && |ids| + |rest| == |m|
      invariant forall id :: id in rest ==> id in m && m[id] == rest[id] && id !in ids
      invariant forall i :: 0 <= i < |ids| ==> ids[i] in m && m[ids[i]] == cancels[i]
      invariant forall i, j :: 0 <= i < j < |ids| ==> ids[i] != ids[j]
      decreases |rest|
    {
      var id :| id in rest;
      assert |rest| == |rest.Keys| && |rest - {id}| == |(rest - {id}).Keys|;
      assert (rest - {id}).Keys == rest.Keys - {id};
      cancels, ids := cancels + [rest[id]], ids + [id];
      rest := rest - {id};
    }
    assert ListsBy(cancels, m, ids);
  }
}
