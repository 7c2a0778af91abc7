/** The podman cache over interleaved runs: how old an answer can be, and what invalidation guarantees.

    A container listing is cached, and the fetch that fills it reads cached statistics.  The clock is
    read before the lock is taken, the fetch runs without the lock, and the result is stored under it,
    so other callers, actions and the clock can move between any two of these. */
module CacheRuns {
  import opened Common

  type Host = string
  type Caller = nat

  // Statistics with the host they came from, the version of that host's podman state they show, and
  // when they were stored.
  datatype Stats = Stats(host: Host, version: nat, at: int)

  // A stored listing: `started` is when its fetch began, `at` when it was stored.
  datatype Row = Row(host: Host, version: nat, stats: Option<Stats>, started: int, at: int)

  datatype Entry = Entry(list: Option<Row>, stats: Option<Stats>)

  // Why statistics are wanted: by themselves, or for a listing whose `podman ps` has run.
  datatype Want = Alone | ForList(started: int, version: nat)

  // Where a call stands.  An answer served from the cache has the clock reading of its lookup.
  datatype Phase =
    | Asked(now: int)
    | Fetching(started: int)
    | Listed(want: Want)
    | StatsAsked(want: Want, now: int)
    | StatsFetching(want: Want)
    | StatsFetched(want: Want, version: nat)
    | Storing(started: int, version: nat, nested: Option<Stats>)
    | GotList(row: Row, hit: Option<int>)
    | GotStats(stats: Stats, hit: Option<int>)
    | Acted
    | Failed

  datatype Call = Call(host: Host, phase: Phase)

  datatype State = State(clock: int, ttl: int, podman: map<Host, nat>, cache: map<Host, Entry>, calls: map<Caller, Call>)

  datatype Step =
    | Tick(elapsed: nat)
    | Outside(host: Host)                        // podman's state changes by itself
    | AskList(caller: Caller, host: Host)
    | AskStats(caller: Caller, host: Host)
    | Lookup(caller: Caller)                     // under the read lock
    | Ps(caller: Caller, ok: bool, empty: bool)
    | NestedStats(caller: Caller)
    | RunStats(caller: Caller, ok: bool)
    | Store(caller: Caller)                      // under the write lock
    | Act(caller: Caller, host: Host)            // a container action, removal, pull or update succeeds
    | Invalidate(caller: Caller)                 // and then invalidates its host

  function TtlOf(ttl: int): int {
    if ttl <= 0 then 3 else ttl
  }

  function Init(ttl: int, clock: int): State {
    State(clock, TtlOf(ttl), map[], map[], map[])
  }

  function Version(s: State, h: Host): nat {
    if h in s.podman then s.podman[h] else 0
  }

  function EntryOf(s: State, h: Host): Entry {
    if h in s.cache then s.cache[h] else Entry(None, None)
  }

  function Fresher(at: int, now: int, ttl: int): bool {
    now - at < ttl
  }

  // ---------------------------------------------------------------- steps

  function Bump(s: State, h: Host): State {
    s.(podman := s.podman[h := Version(s, h) + 1])
  }

  function Move(s: State, k: Caller, h: Host, p: Phase): State {
    s.(calls := s.calls[k := Call(h, p)])
  }

  // Statistics are there (or could not be had): hand them to whoever wanted them.
  function Give(want: Want, stats: Option<Stats>, hit: Option<int>): Phase {
    match want
    case ForList(started, version) => Storing(started, version, stats)
    case Alone => if stats.Some? then GotStats(stats.value, hit) else Failed
  }

  function LookedUp(e: Entry, p: Phase, clock: int, ttl: int): Phase {
    match p
    case Asked(now) =>
      if e.list.Some? && Fresher(e.list.value.at, now, ttl) then GotList(e.list.value, Some(now)) else Fetching(clock)
    case StatsAsked(want, now) =>
      if e.stats.Some? && Fresher(e.stats.value.at, now, ttl) then Give(want, e.stats, Some(now)) else StatsFetching(want)
    case _ => p
  }

  function Stored(s: State, k: Caller): State
    requires k in s.calls
  {
    var Call(h, p) := s.calls[k];
    match p
    case Storing(started, version, stats) =>
      var row := Row(h, version, stats, started, s.clock);
      Move(s, k, h, GotList(row, None)).(cache := s.cache[h := EntryOf(s, h).(list := Some(row))])
    case StatsFetched(want, version) =>
      var stats := Stats(h, version, s.clock);
      Move(s, k, h, Give(want, Some(stats), None)).(cache := s.cache[h := EntryOf(s, h).(stats := Some(stats))])
    case _ => s
  }

  function Advance(s: State, k: Caller, st: Step): State
    requires k in s.calls
  {
    var Call(h, p) := s.calls[k];
    match st
    case Lookup(_) => Move(s, k, h, LookedUp(EntryOf(s, h), p, s.clock, s.ttl))
    case Ps(_, ok, empty) =>
      if !p.Fetching? then s
      else if !ok then Move(s, k, h, Failed)
      else if empty then Move(s, k, h, Storing(p.started, Version(s, h), None))
      else Move(s, k, h, Listed(ForList(p.started, Version(s, h))))
    case NestedStats(_) => if p.Listed? then Move(s, k, h, StatsAsked(p.want, s.clock)) else s
    case RunStats(_, ok) =>
      if !p.StatsFetching? then s
      else if ok then Move(s, k, h, StatsFetched(p.want, Version(s, h)))
      else Move(s, k, h, Give(p.want, None, None))
    case Store(_) => Stored(s, k)
    case Invalidate(_) => if p.Acted? then s.(cache := s.cache - {h}) else s
    case _ => s
  }

  function Next(s: State, st: Step): State {
    match st
    case Tick(elapsed) => s.(clock := s.clock + elapsed)
    case Outside(h) => Bump(s, h)
    case AskList(k, h) => if k in s.calls then s else Move(s, k, h, Asked(s.clock))
    case AskStats(k, h) => if k in s.calls then s else Move(s, k, h, StatsAsked(Alone, s.clock))
    case Act(k, h) => if k in s.calls then s else Move(Bump(s, h), k, h, Acted)
    case _ => if st.caller in s.calls then Advance(s, st.caller, st) else s
  }

  function Run(s: State, steps: seq<Step>): State
    decreases |steps|
  {
    if steps == [] then s else Run(Next(s, steps[0]), steps[1..])
  }

  // ---------------------------------------------------------------- age and ownership

  ghost predicate StatsOk(stats: Stats, h: Host, clock: int) {
    stats.host == h && stats.at <= clock
  }

  // Statistics in a listing were looked up no earlier than the listing's fetch began.
  ghost predicate NestedOk(stats: Option<Stats>, started: int, h: Host, clock: int, ttl: int) {
    stats.Some? ==> StatsOk(stats.value, h, clock) && started - stats.value.at < ttl
  }

  ghost predicate RowOk(row: Row, h: Host, clock: int, ttl: int) {
    row.host == h && row.started <= row.at <= clock && NestedOk(row.stats, row.started, h, clock, ttl)
  }

  ghost predicate EntryOk(e: Entry, h: Host, clock: int, ttl: int) {
    && (e.list.Some? ==> RowOk(e.list.value, h, clock, ttl))
    && (e.stats.Some? ==> StatsOk(e.stats.value, h, clock))
  }

  ghost predicate WantOk(want: Want, now: int) {
    want.ForList? ==> want.started <= now
  }

  ghost predicate PhaseOk(p: Phase, h: Host, clock: int, ttl: int) {
    match p
    case Asked(now) => now <= clock
    case Fetching(started) => started <= clock
    case Listed(want) => WantOk(want, clock)
    case StatsAsked(want, now) => WantOk(want, now) && now <= clock
    case StatsFetching(want) => WantOk(want, clock)
    case StatsFetched(want, _) => WantOk(want, clock)
    case Storing(started, _, stats) => started <= clock && NestedOk(stats, started, h, clock, ttl)
    case GotList(row, hit) => RowOk(row, h, clock, ttl) && (hit.Some? ==> Fresher(row.at, hit.value, ttl))
    case GotStats(stats, hit) => StatsOk(stats, h, clock) && (hit.Some? ==> Fresher(stats.at, hit.value, ttl))
    case Acted => true
    case Failed => true
  }

  ghost predicate Inv(s: State) {
    && s.ttl > 0
    && (forall h :: h in s.cache ==> EntryOk(s.cache[h], h, s.clock, s.ttl))
    && (forall k :: k in s.calls ==> PhaseOk(s.calls[k].phase, s.calls[k].host, s.clock, s.ttl))
  }

  lemma Older(p: Phase, h: Host, clock: int, later: int, ttl: int)
    requires PhaseOk(p, h, clock, ttl) && clock <= later
    ensures PhaseOk(p, h, later, ttl)
  {
  }

  lemma LookedUpOk(e: Entry, p: Phase, h: Host, clock: int, ttl: int)
    requires EntryOk(e, h, clock, ttl) && PhaseOk(p, h, clock, ttl)
    ensures PhaseOk(LookedUp(e, p, clock, ttl), h, clock, ttl)
  {
  }

  lemma StoredOk(s: State, k: Caller)
    requires Inv(s) && k in s.calls
    ensures Inv(Stored(s, k))
  {
    var Call(h, p) := s.calls[k];
    assert PhaseOk(p, h, s.clock, s.ttl);
    assert EntryOk(EntryOf(s, h), h, s.clock, s.ttl);
  }

  lemma AdvanceOk(s: State, k: Caller, st: Step)
    requires Inv(s) && k in s.calls
    ensures Inv(Advance(s, k, st))
  {
    var Call(h, p) := s.calls[k];
    assert PhaseOk(p, h, s.clock, s.ttl);
    if st.Store? {
      StoredOk(s, k);
    } else if st.Lookup? {
      LookedUpOk(EntryOf(s, h), p, h, s.clock, s.ttl);
    }
  }

  lemma InvStep(s: State, st: Step)
    requires Inv(s)
    ensures Inv(Next(s, st))
  {
    match st {
      case Tick(elapsed) =>
        forall k | k in s.calls
          ensures PhaseOk(s.calls[k].phase, s.calls[k].host, s.clock + elapsed, s.ttl)
        {
          Older(s.calls[k].phase, s.calls[k].host, s.clock, s.clock + elapsed, s.ttl);
        }
      case Outside(_) =>
      case AskList(_, _) =>
      case AskStats(_, _) =>
      case Act(_, _) =>
      case _ =>
        if st.caller in s.calls {
          AdvanceOk(s, st.caller, st);
        }
    }
  }

  lemma {:induction false} InvRun(s: State, steps: seq<Step>)
    requires Inv(s)
    ensures Inv(Run(s, steps))
    decreases |steps|
  {
    if steps != [] {
      InvStep(s, steps[0]);
      InvRun(Next(s, steps[0]), steps[1..]);
    }
  }

  lemma {:induction false} TtlRun(s: State, steps: seq<Step>)
    ensures Run(s, steps).ttl == s.ttl
    decreases |steps|
  {
    if steps != [] {
      TtlRun(Next(s, steps[0]), steps[1..]);
    }
  }

  // Every run of a cache made with this ttl (three seconds when it is not positive), every caller with
  // an answer: the data is its host's own.  A cached listing was stored less than ttl before the lookup,
  // and the statistics in it less than 2 ttl plus the time its fetch took; in a listing fetched for the
  // caller, less than ttl plus that time.
  lemma HowOld(ttl: int, clock: int, steps: seq<Step>, k: Caller)
    ensures var s := Run(Init(ttl, clock), steps);
            var life := if ttl > 0 then ttl else 3;
            k in s.calls && s.calls[k].phase.GotList? ==>
              var GotList(row, hit) := s.calls[k].phase;
              var took := row.at - row.started;
              && row.host == s.calls[k].host && took >= 0
              && (hit.Some? ==> hit.value - row.at < life)
              && (row.stats.Some? ==> row.stats.value.host == row.host)
              && (row.stats.Some? && hit.Some? ==> hit.value - row.stats.value.at < 2 * life + took)
              && (row.stats.Some? && hit.None? ==> row.at - row.stats.value.at < life + took)
    ensures var s := Run(Init(ttl, clock), steps);
            var life := if ttl > 0 then ttl else 3;
            k in s.calls && s.calls[k].phase.GotStats? ==>
              var GotStats(stats, hit) := s.calls[k].phase;
              stats.host == s.calls[k].host && (hit.Some? ==> hit.value - stats.at < life)
  {
    InvRun(Init(ttl, clock), steps);
    TtlRun(Init(ttl, clock), steps);
    var s := Run(Init(ttl, clock), steps);
    assert k in s.calls ==> PhaseOk(s.calls[k].phase, s.calls[k].host, s.clock, s.ttl);
  }

  // And the other half: a lookup is answered from the cache, without a fetch, exactly when what is
  // cached for its host is younger than that.
  lemma YoungServed(ttl: int, clock: int, steps: seq<Step>, k: Caller)
    ensures var s := Run(Init(ttl, clock), steps);
            var life := if ttl > 0 then ttl else 3;
            k in s.calls && s.calls[k].phase.Asked? ==>
              var Call(h, Asked(now)) := s.calls[k];
              Next(s, Lookup(k)).calls[k] ==
                if h in s.cache && s.cache[h].list.Some? && now - s.cache[h].list.value.at < life
                then Call(h, GotList(s.cache[h].list.value, Some(now))) else Call(h, Fetching(s.clock))
    ensures var s := Run(Init(ttl, clock), steps);
            var life := if ttl > 0 then ttl else 3;
            k in s.calls && s.calls[k].phase.StatsAsked? && s.calls[k].phase.want.Alone? ==>
              var Call(h, StatsAsked(_, now)) := s.calls[k];
              Next(s, Lookup(k)).calls[k] ==
                if h in s.cache && s.cache[h].stats.Some? && now - s.cache[h].stats.value.at < life
                then Call(h, GotStats(s.cache[h].stats.value, Some(now))) else Call(h, StatsFetching(Alone))
  {
    TtlRun(Init(ttl, clock), steps);
  }

  // A fetch: what `podman ps` showed is stored and returned, together with the statistics that were
  // cached and young enough, or else those fetched and stored now, or none when fetching them failed or
  // the listing was empty.
  lemma FetchPath(s: State, k: Caller)
    requires k in s.calls
    ensures var Call(h, p) := s.calls[k];
            && (p.Fetching? ==> Next(s, Ps(k, true, false)).calls[k].phase == Listed(ForList(p.started, Version(s, h))))
            && (p.Fetching? ==> Next(s, Ps(k, true, true)).calls[k].phase == Storing(p.started, Version(s, h), None))
            && (p.Listed? ==> Next(s, NestedStats(k)).calls[k].phase == StatsAsked(p.want, s.clock))
            && (p.StatsAsked? && p.want.ForList? ==>
                  Next(s, Lookup(k)).calls[k].phase ==
                    if h in s.cache && s.cache[h].stats.Some? && p.now - s.cache[h].stats.value.at < s.ttl
                    then Storing(p.want.started, p.want.version, s.cache[h].stats) else StatsFetching(p.want))
            && (p.StatsFetching? && p.want.ForList? ==>
                  && Next(s, RunStats(k, true)).calls[k].phase == StatsFetched(p.want, Version(s, h))
                  && Next(s, RunStats(k, false)).calls[k].phase == Storing(p.want.started, p.want.version, None))
    ensures var Call(h, p) := s.calls[k];
            var t := Next(s, Store(k));
            && (p.StatsFetched? && p.want.ForList? ==>
                  && t.calls[k].phase == Storing(p.want.started, p.want.version, Some(Stats(h, p.version, s.clock)))
                  && h in t.cache && t.cache[h].stats == Some(Stats(h, p.version, s.clock)))
            && (p.Storing? ==>
                  var row := Row(h, p.version, p.nested, p.started, s.clock);
                  t.calls[k].phase == GotList(row, None) && h in t.cache && t.cache[h].list == Some(row))
  {
  }

  // ---------------------------------------------------------------- reading after an action

  ghost predicate StatsSee(stats: Option<Stats>, v: nat) {
    stats.Some? ==> stats.value.version >= v
  }

  ghost predicate RowSees(row: Row, v: nat) {
    row.version >= v && StatsSee(row.stats, v)
  }

  ghost predicate EntrySees(e: Entry, v: nat) {
    (e.list.Some? ==> RowSees(e.list.value, v)) && StatsSee(e.stats, v)
  }

  predicate WantSees(want: Want, v: nat) {
    want.ForList? ==> want.version >= v
  }

  // The fetch in this phase holds nothing older than version v.
  ghost predicate HoldsNothingOlder(p: Phase, v: nat) {
    match p
    case Listed(want) => WantSees(want, v)
    case StatsAsked(want, _) => WantSees(want, v)
    case StatsFetching(want) => WantSees(want, v)
    case StatsFetched(want, version) => WantSees(want, v) && version >= v
    case Storing(_, version, stats) => version >= v && StatsSee(stats, v)
    case _ => true
  }

  ghost predicate NoFetchBehind(s: State, h: Host, v: nat) {
    forall k :: k in s.calls && s.calls[k].host == h ==> HoldsNothingOlder(s.calls[k].phase, v)
  }

  // From here on nothing older than v can be read for this host.
  ghost predicate Settled(s: State, h: Host, v: nat) {
    Version(s, h) >= v && EntrySees(EntryOf(s, h), v) && NoFetchBehind(s, h, v)
  }

  // A call that is answered shows at least version v.
  ghost predicate Reflects(p: Phase, v: nat) {
    (p.GotList? ==> RowSees(p.row, v)) && (p.GotStats? ==> p.stats.version >= v)
  }

  lemma GiveSees(want: Want, stats: Option<Stats>, hit: Option<int>, v: nat)
    requires WantSees(want, v) && StatsSee(stats, v)
    ensures HoldsNothingOlder(Give(want, stats, hit), v) && Reflects(Give(want, stats, hit), v)
  {
  }

  lemma LookedUpSees(e: Entry, p: Phase, clock: int, ttl: int, v: nat)
    requires EntrySees(e, v) && HoldsNothingOlder(p, v)
    ensures HoldsNothingOlder(LookedUp(e, p, clock, ttl), v)
    ensures Reflects(p, v) ==> Reflects(LookedUp(e, p, clock, ttl), v)
  {
    if p.StatsAsked? {
      GiveSees(p.want, e.stats, Some(p.now), v);
    }
  }

  // Every step keeps a host settled, and every call that was not already answered reflects version v.
  lemma StoredSettled(s: State, k: Caller, h: Host, v: nat)
    requires Settled(s, h, v) && k in s.calls
    ensures Settled(Stored(s, k), h, v)
    ensures s.calls[k].host == h && Reflects(s.calls[k].phase, v) ==> Reflects(Stored(s, k).calls[k].phase, v)
  {
    var p := s.calls[k].phase;
    if s.calls[k].host == h {
      assert HoldsNothingOlder(p, v);
      if p.StatsFetched? {
        GiveSees(p.want, Some(Stats(h, p.version, s.clock)), None, v);
      }
    }
  }

  lemma AdvanceSettled(s: State, k: Caller, st: Step, h: Host, v: nat)
    requires Settled(s, h, v) && k in s.calls
    ensures Settled(Advance(s, k, st), h, v)
    ensures s.calls[k].host == h && Reflects(s.calls[k].phase, v) ==> Reflects(Advance(s, k, st).calls[k].phase, v)
  {
    var p := s.calls[k].phase;
    if st.Store? {
      StoredSettled(s, k, h, v);
    } else if s.calls[k].host == h {
      assert HoldsNothingOlder(p, v);
      if st.Lookup? {
        LookedUpSees(EntryOf(s, h), p, s.clock, s.ttl, v);
      } else if st.RunStats? && p.StatsFetching? {
        GiveSees(p.want, None, None, v);
      }
    }
  }

  ghost predicate AllReflect(s: State, h: Host, v: nat, earlier: set<Caller>) {
    forall k :: k in s.calls && k !in earlier && s.calls[k].host == h ==> Reflects(s.calls[k].phase, v)
  }

  lemma SettledStart(s: State, st: Step, h: Host, v: nat, earlier: set<Caller>)
    requires Settled(s, h, v) && AllReflect(s, h, v, earlier)
    requires st.Tick? || st.Outside? || st.AskList? || st.AskStats? || st.Act?
    ensures Settled(Next(s, st), h, v) && AllReflect(Next(s, st), h, v, earlier)
  {
  }

  lemma SettledStep(s: State, st: Step, h: Host, v: nat, earlier: set<Caller>)
    requires Settled(s, h, v) && AllReflect(s, h, v, earlier)
    ensures Settled(Next(s, st), h, v) && AllReflect(Next(s, st), h, v, earlier)
  {
    if st.Tick? || st.Outside? || st.AskList? || st.AskStats? || st.Act? {
      SettledStart(s, st, h, v, earlier);
    } else if st.caller in s.calls {
      AdvanceSettled(s, st.caller, st, h, v);
    }
  }

  lemma {:induction false} SettledRun(s: State, steps: seq<Step>, h: Host, v: nat, earlier: set<Caller>)
    requires Settled(s, h, v) && AllReflect(s, h, v, earlier)
    ensures AllReflect(Run(s, steps), h, v, earlier)
    decreases |steps|
  {
    if steps != [] {
      SettledStep(s, steps[0], h, v, earlier);
      SettledRun(Next(s, steps[0]), steps[1..], h, v, earlier);
    }
  }

  // An action on h has succeeded and now invalidates h, at podman version v.  If no fetch in flight
  // holds data from before v, every call begun later that is answered, in every continuation, shows
  // version v or later, statistics included.
  lemma ReadsAfterAction(s: State, actor: Caller, steps: seq<Step>, k: Caller)
    requires actor in s.calls && s.calls[actor].phase.Acted?
    requires NoFetchBehind(s, s.calls[actor].host, Version(s, s.calls[actor].host))
    requires k !in s.calls
    ensures var h := s.calls[actor].host;
            var t := Run(Next(s, Invalidate(actor)), steps);
            k in t.calls && t.calls[k].host == h ==> Reflects(t.calls[k].phase, Version(s, h))
  {
    var h := s.calls[actor].host;
    SettledRun(Next(s, Invalidate(actor)), steps, h, Version(s, h), s.calls.Keys);
  }

  // The hypothesis is needed: whatever the state, one fetch about to store a listing from before the
  // action is enough for a call begun after the invalidation to be answered with it.
  lemma StaleFetchWins(s: State, slow: Caller, k: Caller, v: nat)
    requires Inv(s) && slow in s.calls && s.calls[slow].phase.Storing? && k !in s.calls
    requires !HoldsNothingOlder(s.calls[slow].phase, v)
    ensures Spoilt(Run(s, [Store(slow), AskList(k, s.calls[slow].host), Lookup(k)]), s.calls[slow].host, k, v)
  {
    var h := s.calls[slow].host;
    var t := Next(s, Store(slow));
    Serves(t, h, k);
    RunCons(s, Store(slow), [AskList(k, h), Lookup(k)]);
  }

  // Call k on host h is answered with something older than version v.
  ghost predicate Spoilt(s: State, h: Host, k: Caller, v: nat) {
    k in s.calls && s.calls[k].host == h && !Reflects(s.calls[k].phase, v)
  }

  lemma RunCons(s: State, st: Step, rest: seq<Step>)
    ensures Run(s, [st] + rest) == Run(Next(s, st), rest)
  {
    assert ([st] + rest)[1..] == rest;
  }

  // What has just been stored is what the next call gets.
  lemma Serves(s: State, h: Host, k: Caller)
    requires s.ttl > 0 && k !in s.calls && h in s.cache && s.cache[h].list.Some? && s.cache[h].list.value.at == s.clock
    ensures Run(s, [AskList(k, h), Lookup(k)]).calls == s.calls[k := Call(h, GotList(s.cache[h].list.value, Some(s.clock)))]
  {
    var t := Next(s, AskList(k, h));
    RunCons(s, AskList(k, h), [Lookup(k)]);
    RunCons(t, Lookup(k), []);
    assert Fresher(s.clock, s.clock, s.ttl);
    assert t.calls[k := Call(h, GotList(s.cache[h].list.value, Some(s.clock)))]
        == s.calls[k := Call(h, GotList(s.cache[h].list.value, Some(s.clock)))];
  }

  lemma ServesStats(s: State, h: Host, k: Caller)
    requires s.ttl > 0 && k !in s.calls && h in s.cache && s.cache[h].stats.Some? && s.cache[h].stats.value.at == s.clock
    ensures Run(s, [AskStats(k, h), Lookup(k)]).calls == s.calls[k := Call(h, GotStats(s.cache[h].stats.value, Some(s.clock)))]
  {
    var t := Next(s, AskStats(k, h));
    RunCons(s, AskStats(k, h), [Lookup(k)]);
    RunCons(t, Lookup(k), []);
    assert Fresher(s.clock, s.clock, s.ttl);
    assert t.calls[k := Call(h, GotStats(s.cache[h].stats.value, Some(s.clock)))]
        == s.calls[k := Call(h, GotStats(s.cache[h].stats.value, Some(s.clock)))];
  }

  function Rank(p: Phase): nat {
    match p
    case Listed(_) => 3
    case StatsAsked(_, _) => 2
    case StatsFetching(_) => 1
    case _ => 0
  }

  // The step that brings a fetch holding old data closer to storing it: look for statistics, miss
  // them, fail to get them.
  function Onward(slow: Caller, p: Phase): Step {
    if p.Listed? then NestedStats(slow)
    else if p.StatsAsked? then Lookup(slow)
    else RunStats(slow, false)
  }

  lemma Advances(s: State, slow: Caller, v: nat)
    requires slow in s.calls && s.calls[slow].host !in s.cache && Rank(s.calls[slow].phase) > 0
    requires !HoldsNothingOlder(s.calls[slow].phase, v)
    ensures var p := s.calls[slow].phase;
            var t := Next(s, Onward(slow, p));
            && t.calls.Keys == s.calls.Keys && t.cache == s.cache && t.calls[slow].host == s.calls[slow].host
            && !HoldsNothingOlder(t.calls[slow].phase, v) && Rank(t.calls[slow].phase) < Rank(p)
  {
  }

  // Any fetch that holds data older than v can spoil a call begun later.
  lemma {:induction false} Spoils(s: State, slow: Caller, k: Caller, v: nat) returns (steps: seq<Step>)
    requires Inv(s) && slow in s.calls && k !in s.calls && s.calls[slow].host !in s.cache
    requires !HoldsNothingOlder(s.calls[slow].phase, v)
    ensures Spoilt(Run(s, steps), s.calls[slow].host, k, v)
    decreases Rank(s.calls[slow].phase)
  {
    var h, p := s.calls[slow].host, s.calls[slow].phase;
    if p.Storing? {
      StaleFetchWins(s, slow, k, v);
      steps := [Store(slow), AskList(k, h), Lookup(k)];
    } else if p.StatsFetched? {
      steps := SpoilsStats(s, slow, k, v);
    } else {
      var st := Onward(slow, p);
      Advances(s, slow, v);
      InvStep(s, st);
      steps := Spoils(Next(s, st), slow, k, v);
      RunCons(s, st, steps);
      steps := [st] + steps;
    }
  }

  lemma SpoilsStats(s: State, slow: Caller, k: Caller, v: nat) returns (steps: seq<Step>)
    requires Inv(s) && slow in s.calls && k !in s.calls && s.calls[slow].phase.StatsFetched?
    requires !HoldsNothingOlder(s.calls[slow].phase, v)
    ensures Spoilt(Run(s, steps), s.calls[slow].host, k, v)
  {
    var h, p := s.calls[slow].host, s.calls[slow].phase;
    var t := Next(s, Store(slow));
    if p.version < v {
      ServesStats(t, h, k);
      steps := [AskStats(k, h), Lookup(k)];
    } else {
      InvStep(s, Store(slow));
      StaleFetchWins(t, slow, k, v);
      steps := [Store(slow), AskList(k, h), Lookup(k)];
    }
    RunCons(s, Store(slow), steps);
    steps := [Store(slow)] + steps;
  }

  // In every continuation, every call begun from now on that is answered shows version v or later.
  ghost predicate AlwaysReflects(s: State, h: Host, v: nat) {
    forall steps, k :: k !in s.calls ==> !Spoilt(Run(s, steps), h, k, v)
  }

  // The exact condition: after an action's invalidation every later call reflects the action, in every
  // continuation, if and only if no fetch in flight holds data from before it.
  lemma InvalidateExact(s: State, actor: Caller)
    requires Inv(s) && actor in s.calls && s.calls[actor].phase.Acted?
    ensures var h := s.calls[actor].host;
            AlwaysReflects(Next(s, Invalidate(actor)), h, Version(s, h)) <==> NoFetchBehind(s, h, Version(s, h))
  {
    var h := s.calls[actor].host;
    var v := Version(s, h);
    var t := Next(s, Invalidate(actor));
    assert t.calls == s.calls && h !in t.cache;
    if NoFetchBehind(s, h, v) {
      forall steps, k | k !in t.calls
        ensures !Spoilt(Run(t, steps), h, k, v)
      {
        ReadsAfterAction(s, actor, steps, k);
      }
    } else {
      var slow :| slow in s.calls && s.calls[slow].host == h && !HoldsNothingOlder(s.calls[slow].phase, v);
      InvStep(s, Invalidate(actor));
      var k := FreshNumber(s.calls.Keys);
      var steps := Spoils(t, slow, k, v);
      assert k !in t.calls && Spoilt(Run(t, steps), h, k, v);
    }
  }
}
