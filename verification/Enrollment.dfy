/** Enrollment as interleaved steps: concurrent Enroll calls, credential checks, cleanup, revocation, restart. */
module Enrollment {
  import opened Common
  import opened Strings
  import opened EnrollStore

  type Call = nat

  // Where an Enroll call stands between two of its locked sections.
  datatype Phase =
    | Validated(token: Token)
    | Generated(token: Token, agent: AgentId, credential: Credential)
    | Consumed(token: Token, agent: AgentId, credential: Credential)
    | Registered(agent: AgentId, credential: Credential)

  // Where a validCredential call stands.
  datatype Stage = Start | NotByAgent | NotByCredential | Answered(ok: bool)

  // `valid` and `invalid`: the pair was, at some instant since the call began, accepted or rejected by
  // the simple rule.
  datatype Check = Check(agent: AgentId, credential: Credential, stage: Stage, valid: bool, invalid: bool)

  datatype Use = Use(agent: AgentId, at: int)

  datatype Issue = Issue(token: Token, credential: Credential)

  // History: every token created with its expiry, every id and credential generated, every token
  // consumed, every credential registered, every agent revoked that a restart would not bring back.
  datatype Past = Past(
    made: map<Token, int>, agents: set<AgentId>, secrets: set<Credential>,
    consumed: map<Token, Use>, issued: map<AgentId, Issue>, revoked: set<AgentId>)

  datatype State = State(
    up: bool, now: int, persistent: bool, file: File,
    tokens: map<Token, TokenRow>, creds: map<AgentId, Record>, memory: map<AgentId, Credential>,
    calls: map<Call, Phase>, checks: map<Call, Check>, past: Past)

  datatype Step =
    | Tick(elapsed: nat)
    | CreateToken(token: Token, expires: int)
    | Validate(call: Call, given: string)
    | Generate(call: Call, agent: AgentId, credential: Credential)
    | ConsumeToken(call: Call)
    | Register(call: Call, host: string, order: seq<AgentId>, write: Write)
    | Remember(call: Call)
    | Cleanup(asOf: int)
    | Revoke(agent: AgentId, order: seq<AgentId>, write: Write)
    | Restart
    | Ask(call: Call, agent: AgentId, credential: Credential)
    | ByAgent(call: Call)
    | ByCredential(call: Call, found: Option<Record>)
    | ByMemory(call: Call)

  function Init(persistent: bool, now: int): State {
    State(true, now, persistent, Missing, map[], map[], map[], map[], map[], Past(map[], {}, {}, map[], map[], {}))
  }

  // A cut file is unreadable or empty, never a valid list.
  predicate Plausible(write: Write) {
    write.Cut? ==> write.left.Empty? || write.left.Garbage?
  }

  // ---------------------------------------------------------------- steps

  function Ended(s: State, call: Call): State {
    s.(calls := s.calls - {call})
  }

  function DoCreate(s: State, token: Token, expires: int): State {
    if token in s.past.made then s
    else
      s.(tokens := s.tokens[token := TokenRow(expires, false, "")],
         past := s.past.(made := s.past.made[token := expires]))
  }

  function DoValidate(s: State, call: Call, token: Token): State {
    if call in s.calls || token == "" || !Usable(s.tokens, token, s.now) then s
    else s.(calls := s.calls[call := Validated(token)])
  }

  function DoGenerate(s: State, call: Call, agent: AgentId, credential: Credential): State {
    if call !in s.calls || !s.calls[call].Validated? || agent in s.past.agents || credential in s.past.secrets || agent == "" then s
    else
      s.(calls := s.calls[call := Generated(s.calls[call].token, agent, credential)],
         past := s.past.(agents := s.past.agents + {agent}, secrets := s.past.secrets + {credential}))
  }

  function DoConsume(s: State, call: Call): State {
    if call !in s.calls || !s.calls[call].Generated? then s
    else
      var p := s.calls[call];
      if !Usable(s.tokens, p.token, s.now) then Ended(s, call)
      else
        s.(tokens := Consume(s.tokens, p.token, p.agent),
           calls := s.calls[call := Consumed(p.token, p.agent, p.credential)],
           past := s.past.(consumed := s.past.consumed[p.token := Use(p.agent, s.now)]))
  }

  function DoRegister(s: State, call: Call, host: string, order: seq<AgentId>, write: Write): State {
    if call !in s.calls || !s.calls[call].Consumed? || !Plausible(write) then s
    else
      var p := s.calls[call];
      var creds := s.creds[p.agent := Record(p.agent, TrimSpace(host), p.credential, true)];
      if !Orders(order, creds.Keys) then s
      else
        OrdersMember(order, creds.Keys);
        var (ok, file) := Writing(s.file, Saved(creds, order), s.persistent, write);
        var calls := if ok then s.calls[call := Registered(p.agent, p.credential)] else s.calls - {call};
        s.(creds := creds, file := file, calls := calls,
           past := s.past.(issued := s.past.issued[p.agent := Issue(p.token, p.credential)]))
  }

  function DoRemember(s: State, call: Call): State {
    if call !in s.calls || !s.calls[call].Registered? then s
    else s.(memory := s.memory[s.calls[call].agent := s.calls[call].credential], calls := s.calls - {call})
  }

  // The clock is read before the lock is taken.
  function DoCleanup(s: State, asOf: int): State {
    if asOf > s.now then s else s.(tokens := Unexpired(s.tokens, asOf))
  }

  // What a restart would load; None when the new process does not come up.
  function Restored(persistent: bool, file: File): Option<map<AgentId, Record>> {
    if persistent then Loaded(file) else Some(map[])
  }

  // A restart would accept this agent.
  predicate Returns(restored: Option<map<AgentId, Record>>, agent: AgentId) {
    restored.Some? && agent in restored.value && restored.value[agent].active
  }

  function DoRevoke(s: State, agent: AgentId, order: seq<AgentId>, write: Write): State {
    if agent !in s.creds || !Orders(order, s.creds.Keys) || !Plausible(write) then s
    else
      var creds := s.creds[agent := s.creds[agent].(active := false)];
      assert creds.Keys == s.creds.Keys;
      OrdersMember(order, creds.Keys);
      var file := Writing(s.file, Saved(creds, order), s.persistent, write).1;
      var gone := !Returns(Restored(s.persistent, file), agent);
      s.(creds := creds, file := file,
         past := s.past.(revoked := if gone then s.past.revoked + {agent} else s.past.revoked))
  }

  // The process ends; a new one loads the file, and does not come up when the file is unreadable.
  function DoRestart(s: State): State {
    var loaded := Restored(s.persistent, s.file);
    s.(up := loaded.Some?, tokens := map[], creds := if loaded.Some? then loaded.value else map[],
       memory := map[], calls := map[], checks := map[])
  }

  // One lock section of validCredential.
  ghost function Asked(c: Check, creds: map<AgentId, Record>, memory: map<AgentId, Credential>, st: Step): Check {
    match st
    case ByAgent(_) =>
      if c.stage != Start then c
      else c.(stage := if c.agent in creds then Answered(Active(creds, c.agent, c.credential)) else NotByAgent)
    case ByCredential(_, found) =>
      if c.stage != NotByAgent || !FoundBy(creds, c.credential, found) then c
      else c.(stage := if found.Some? then Answered(found.value.active && found.value.agent == c.agent) else NotByCredential)
    case ByMemory(_) =>
      if c.stage != NotByCredential then c
      else c.(stage := Answered(c.agent in memory && memory[c.agent] == c.credential))
    case _ => c
  }

  predicate Looks(st: Step) {
    st.ByAgent? || st.ByCredential? || st.ByMemory?
  }

  ghost function DoCheck(s: State, st: Step): State
    requires Looks(st)
  {
    if st.call !in s.checks then s
    else s.(checks := s.checks[st.call := Asked(s.checks[st.call], s.creds, s.memory, st)])
  }

  function DoAsk(s: State, call: Call, agent: AgentId, credential: Credential): State {
    if call in s.checks then s
    else s.(checks := s.checks[call := Check(agent, credential, Start, false, false)])
  }

  ghost function Core(s: State, st: Step): State {
    match st
    case Tick(elapsed) => s.(now := s.now + elapsed)
    case CreateToken(token, expires) => DoCreate(s, token, expires)
    case Validate(call, given) => DoValidate(s, call, TrimSpace(given))
    case Generate(call, agent, credential) => DoGenerate(s, call, agent, credential)
    case ConsumeToken(call) => DoConsume(s, call)
    case Register(call, host, order, write) => DoRegister(s, call, host, order, write)
    case Remember(call) => DoRemember(s, call)
    case Cleanup(asOf) => DoCleanup(s, asOf)
    case Revoke(agent, order, write) => DoRevoke(s, agent, order, write)
    case Restart => DoRestart(s)
    case Ask(call, agent, credential) => DoAsk(s, call, agent, credential)
    case ByAgent(_) => DoCheck(s, st)
    case ByCredential(_, _) => DoCheck(s, st)
    case ByMemory(_) => DoCheck(s, st)
  }

  // After every step, each check in progress notes what the rule says now.
  function Noted(c: Check, creds: map<AgentId, Record>): Check {
    if Active(creds, c.agent, c.credential) then c.(valid := true) else c.(invalid := true)
  }

  function NoteAll(checks: map<Call, Check>, creds: map<AgentId, Record>): map<Call, Check> {
    map k | k in checks :: Noted(checks[k], creds)
  }

  ghost function Next(s: State, st: Step): State {
    if !s.up && !st.Restart? then s
    else
      var t := Core(s, st);
      t.(checks := NoteAll(t.checks, t.creds))
  }

  ghost function Run(s: State, steps: seq<Step>): State
    decreases |steps|
  {
    if steps == [] then s else Run(Next(s, steps[0]), steps[1..])
  }

  // ---------------------------------------------------------------- invariants

  ghost predicate TokensOk(tokens: map<Token, TokenRow>, made: map<Token, int>, consumed: map<Token, Use>) {
    && (forall t :: t in tokens ==> t in made && tokens[t].expires == made[t])
    && (forall t :: t in consumed ==> t in made && consumed[t].at <= made[t] && (t in tokens ==> tokens[t].used))
  }

  ghost predicate IssuedOk(issued: map<AgentId, Issue>, consumed: map<Token, Use>, agents: set<AgentId>, secrets: set<Credential>) {
    && (forall a :: a in issued ==> a in agents && a != "" && issued[a].credential in secrets)
    && (forall a :: a in issued ==> issued[a].token in consumed && consumed[issued[a].token].agent == a)
    && (forall a, b :: a in issued && b in issued && issued[a].credential == issued[b].credential ==> a == b)
  }

  // A call that has generated an id and has not registered it yet.
  predicate Holding(p: Phase) {
    p.Generated? || p.Consumed?
  }

  ghost predicate PhaseOk(p: Phase, issued: map<AgentId, Issue>, consumed: map<Token, Use>, agents: set<AgentId>, secrets: set<Credential>) {
    && (Holding(p) ==> p.agent in agents && p.agent != "" && p.credential in secrets && p.agent !in issued)
    && (p.Consumed? ==> p.token in consumed && consumed[p.token].agent == p.agent)
    && (p.Registered? ==> p.agent in issued && issued[p.agent].credential == p.credential)
  }

  ghost predicate CallsOk(calls: map<Call, Phase>, issued: map<AgentId, Issue>, consumed: map<Token, Use>, agents: set<AgentId>, secrets: set<Credential>) {
    && (forall k :: k in calls ==> PhaseOk(calls[k], issued, consumed, agents, secrets))
    && (forall k, l :: k in calls && l in calls && k != l && Holding(calls[k]) && Holding(calls[l]) ==>
          calls[k].agent != calls[l].agent && calls[k].credential != calls[l].credential)
    && (forall k, a :: k in calls && Holding(calls[k]) && a in issued ==> issued[a].credential != calls[k].credential)
  }

  ghost predicate RecordOk(r: Record, issued: map<AgentId, Issue>) {
    r.agent in issued && issued[r.agent].credential == r.credential
  }

  ghost predicate CredsOk(creds: map<AgentId, Record>, issued: map<AgentId, Issue>) {
    Keyed(creds) && forall a :: a in creds ==> RecordOk(creds[a], issued)
  }

  ghost predicate FileOk(file: File, issued: map<AgentId, Issue>) {
    file.Holds? ==> forall e :: e in file.entries ==> e.Some? && RecordOk(e.value, issued)
  }

  ghost predicate MemoryOk(memory: map<AgentId, Credential>, calls: map<Call, Phase>, creds: map<AgentId, Record>) {
    && Remembered(memory, creds)
    && (forall k :: k in calls && calls[k].Registered? ==>
          calls[k].agent in creds && creds[calls[k].agent].credential == calls[k].credential)
  }

  ghost predicate RevokedOk(revoked: set<AgentId>, issued: map<AgentId, Issue>, creds: map<AgentId, Record>, restored: Option<map<AgentId, Record>>) {
    forall a :: a in revoked ==> a in issued && (a in creds ==> !creds[a].active) && !Returns(restored, a)
  }

  ghost predicate CheckOk(c: Check, creds: map<AgentId, Record>) {
    match c.stage
    case Start => true
    case Answered(ok) => if ok then c.valid else c.invalid
    case _ => c.invalid && (c.agent in creds && creds[c.agent].credential == c.credential ==> c.valid)
  }

  ghost predicate ChecksOk(checks: map<Call, Check>, creds: map<AgentId, Record>) {
    forall k :: k in checks ==> CheckOk(checks[k], creds)
  }

  ghost predicate Base(s: State) {
    && TokensOk(s.tokens, s.past.made, s.past.consumed)
    && IssuedOk(s.past.issued, s.past.consumed, s.past.agents, s.past.secrets)
    && CallsOk(s.calls, s.past.issued, s.past.consumed, s.past.agents, s.past.secrets)
    && CredsOk(s.creds, s.past.issued) && FileOk(s.file, s.past.issued)
    && MemoryOk(s.memory, s.calls, s.creds)
    && RevokedOk(s.past.revoked, s.past.issued, s.creds, Restored(s.persistent, s.file))
  }

  ghost predicate Inv(s: State) {
    Base(s) && ChecksOk(s.checks, s.creds)
  }

  // History is never rewritten.
  ghost predicate Grows(s: Past, t: Past) {
    && s.revoked <= t.revoked
    && (forall k :: k in s.made ==> k in t.made && t.made[k] == s.made[k])
    && (forall k :: k in s.consumed ==> k in t.consumed && t.consumed[k] == s.consumed[k])
    && (forall a :: a in s.issued ==> a in t.issued && t.issued[a] == s.issued[a])
  }

  // ---------------------------------------------------------------- each step keeps them

  lemma CallsDrop(calls: map<Call, Phase>, k: Call, issued: map<AgentId, Issue>, consumed: map<Token, Use>, agents: set<AgentId>, secrets: set<Credential>)
    requires CallsOk(calls, issued, consumed, agents, secrets)
    ensures CallsOk(calls - {k}, issued, consumed, agents, secrets)
  {
  }

  lemma CallsValidated(calls: map<Call, Phase>, k: Call, token: Token, issued: map<AgentId, Issue>, consumed: map<Token, Use>, agents: set<AgentId>, secrets: set<Credential>)
    requires CallsOk(calls, issued, consumed, agents, secrets) && k !in calls
    ensures CallsOk(calls[k := Validated(token)], issued, consumed, agents, secrets)
  {
  }

  lemma CallsGenerated(calls: map<Call, Phase>, k: Call, p: Phase, issued: map<AgentId, Issue>, consumed: map<Token, Use>, agents: set<AgentId>, secrets: set<Credential>)
    requires CallsOk(calls, issued, consumed, agents, secrets) && IssuedOk(issued, consumed, agents, secrets)
    requires k in calls && p.Generated? && p.agent !in agents && p.credential !in secrets && p.agent != ""
    ensures CallsOk(calls[k := p], issued, consumed, agents + {p.agent}, secrets + {p.credential})
  {
  }

  lemma KeepsGenerate(s: State, call: Call, agent: AgentId, credential: Credential)
    requires Base(s)
    ensures Base(DoGenerate(s, call, agent, credential)) && Grows(s.past, DoGenerate(s, call, agent, credential).past)
  {
    var t := DoGenerate(s, call, agent, credential);
    if t != s {
      CallsGenerated(s.calls, call, Generated(s.calls[call].token, agent, credential), s.past.issued, s.past.consumed, s.past.agents, s.past.secrets);
      assert IssuedOk(t.past.issued, t.past.consumed, t.past.agents, t.past.secrets);
      MemoryCalls(s.memory, s.calls, t.calls, call, s.creds);
    }
  }

  lemma ConsumeTokens(tokens: map<Token, TokenRow>, made: map<Token, int>, consumed: map<Token, Use>, token: Token, agent: AgentId, now: int)
    requires TokensOk(tokens, made, consumed) && Usable(tokens, token, now)
    ensures token !in consumed && TokensOk(Consume(tokens, token, agent), made, consumed[token := Use(agent, now)])
  {
  }

  lemma ConsumeIssued(issued: map<AgentId, Issue>, consumed: map<Token, Use>, agents: set<AgentId>, secrets: set<Credential>, token: Token, use: Use)
    requires IssuedOk(issued, consumed, agents, secrets) && token !in consumed
    ensures IssuedOk(issued, consumed[token := use], agents, secrets)
  {
  }

  lemma ConsumeCalls(calls: map<Call, Phase>, k: Call, issued: map<AgentId, Issue>, consumed: map<Token, Use>, agents: set<AgentId>, secrets: set<Credential>, now: int)
    requires CallsOk(calls, issued, consumed, agents, secrets) && k in calls && calls[k].Generated?
    requires calls[k].token !in consumed
    ensures var p := calls[k];
            CallsOk(calls[k := Consumed(p.token, p.agent, p.credential)], issued, consumed[p.token := Use(p.agent, now)], agents, secrets)
  {
    var p := calls[k];
    var calls', consumed' := calls[k := Consumed(p.token, p.agent, p.credential)], consumed[p.token := Use(p.agent, now)];
    forall l | l in calls'
      ensures PhaseOk(calls'[l], issued, consumed', agents, secrets)
    {
      assert PhaseOk(calls[l], issued, consumed, agents, secrets);
    }
  }

  // A call that moves on without having registered leaves the memory's obligations alone.
  lemma MemoryCalls(memory: map<AgentId, Credential>, calls: map<Call, Phase>, after: map<Call, Phase>, k: Call, creds: map<AgentId, Record>)
    requires MemoryOk(memory, calls, creds)
    requires after == calls - {k} || (k in after && !after[k].Registered? && after == calls[k := after[k]])
    ensures MemoryOk(memory, after, creds)
  {
  }

  lemma Spend(s: State, call: Call)
    requires Base(s) && call in s.calls && s.calls[call].Generated? && Usable(s.tokens, s.calls[call].token, s.now)
    ensures var t := DoConsume(s, call);
            && TokensOk(t.tokens, t.past.made, t.past.consumed)
            && IssuedOk(t.past.issued, t.past.consumed, t.past.agents, t.past.secrets)
            && CallsOk(t.calls, t.past.issued, t.past.consumed, t.past.agents, t.past.secrets)
            && MemoryOk(t.memory, t.calls, t.creds) && Grows(s.past, t.past)
  {
    var p := s.calls[call];
    MemoryCalls(s.memory, s.calls, DoConsume(s, call).calls, call, s.creds);
    ConsumeTokens(s.tokens, s.past.made, s.past.consumed, p.token, p.agent, s.now);
    ConsumeIssued(s.past.issued, s.past.consumed, s.past.agents, s.past.secrets, p.token, Use(p.agent, s.now));
    ConsumeCalls(s.calls, call, s.past.issued, s.past.consumed, s.past.agents, s.past.secrets, s.now);
  }

  lemma Refuse(s: State, call: Call)
    requires Base(s)
    ensures Base(Ended(s, call))
  {
    MemoryCalls(s.memory, s.calls, s.calls - {call}, call, s.creds);
    CallsDrop(s.calls, call, s.past.issued, s.past.consumed, s.past.agents, s.past.secrets);
  }

  lemma KeepsConsume(s: State, call: Call)
    requires Base(s)
    ensures Base(DoConsume(s, call)) && Grows(s.past, DoConsume(s, call).past)
  {
    if call in s.calls && s.calls[call].Generated? {
      if Usable(s.tokens, s.calls[call].token, s.now) {
        Spend(s, call);
      } else {
        Refuse(s, call);
      }
    }
  }

  // What the file holds after a save, in whatever order: a restart loads what it would have loaded
  // before, or the records now, or nothing.
  lemma SavedOk(file: File, creds: map<AgentId, Record>, order: seq<AgentId>, persistent: bool, write: Write, issued: map<AgentId, Issue>)
    requires Orders(order, creds.Keys) && (forall a :: a in order ==> a in creds) && Plausible(write)
    requires CredsOk(creds, issued) && FileOk(file, issued)
    ensures var after := Writing(file, Saved(creds, order), persistent, write).1;
            && FileOk(after, issued)
            && Restored(persistent, after) in {Restored(persistent, file), Some(creds), Some(map[]), None}
            && (persistent && (write.Written? || write.Short?) ==> Restored(persistent, after) == Some(creds))
  {
    SavedEntries(creds, order);
    LoadSaved(creds, order);
  }

  lemma RegisterIssued(issued: map<AgentId, Issue>, calls: map<Call, Phase>, k: Call, consumed: map<Token, Use>, agents: set<AgentId>, secrets: set<Credential>)
    requires IssuedOk(issued, consumed, agents, secrets) && CallsOk(calls, issued, consumed, agents, secrets)
    requires k in calls && calls[k].Consumed?
    ensures calls[k].agent !in issued
    ensures IssuedOk(issued[calls[k].agent := Issue(calls[k].token, calls[k].credential)], consumed, agents, secrets)
  {
    assert PhaseOk(calls[k], issued, consumed, agents, secrets);
  }

  // More issued credentials keep the records good.
  lemma MoreIssued(creds: map<AgentId, Record>, file: File, issued: map<AgentId, Issue>, r: Record, token: Token)
    requires CredsOk(creds, issued) && FileOk(file, issued) && r.agent !in issued && r.agent != ""
    ensures var issued' := issued[r.agent := Issue(token, r.credential)];
            r.agent !in creds && CredsOk(creds[r.agent := r], issued') && FileOk(file, issued')
  {
    var issued' := issued[r.agent := Issue(token, r.credential)];
    assert r.agent in creds ==> RecordOk(creds[r.agent], issued);
    forall a | a in creds
      ensures RecordOk(creds[a], issued')
    {
      assert RecordOk(creds[a], issued);
    }
  }

  lemma RegisterMemory(memory: map<AgentId, Credential>, calls: map<Call, Phase>, after: map<Call, Phase>, k: Call, creds: map<AgentId, Record>, r: Record)
    requires MemoryOk(memory, calls, creds) && r.agent !in creds
    requires after == calls - {k} || after == calls[k := Registered(r.agent, r.credential)]
    ensures MemoryOk(memory, after, creds[r.agent := r])
  {
  }

  lemma KeepsRegister(s: State, call: Call, host: string, order: seq<AgentId>, write: Write)
    requires Base(s)
    ensures Base(DoRegister(s, call, host, order, write)) && Grows(s.past, DoRegister(s, call, host, order, write).past)
  {
    var t := DoRegister(s, call, host, order, write);
    if t != s {
      var p := s.calls[call];
      var r := Record(p.agent, TrimSpace(host), p.credential, true);
      var creds := s.creds[p.agent := r];
      OrdersMember(order, creds.Keys);
      RegisterIssued(s.past.issued, s.calls, call, s.past.consumed, s.past.agents, s.past.secrets);
      MoreIssued(s.creds, s.file, s.past.issued, r, p.token);
      RegisterMemory(s.memory, s.calls, t.calls, call, s.creds, r);
      RegisterCalls(s.calls, call, t.calls, s.past.issued, t.past.issued, s.past.consumed, s.past.agents, s.past.secrets);
      SavedOk(s.file, creds, order, s.persistent, write, t.past.issued);
      RegisterRevoked(s.past.revoked, s.past.issued, s.creds, Restored(s.persistent, s.file), Restored(s.persistent, t.file), r, p.token);
    }
  }

  lemma RegisterRevoked(revoked: set<AgentId>, issued: map<AgentId, Issue>, creds: map<AgentId, Record>, before: Option<map<AgentId, Record>>, after: Option<map<AgentId, Record>>, r: Record, token: Token)
    requires RevokedOk(revoked, issued, creds, before) && r.agent !in issued
    requires after in {before, Some(creds[r.agent := r]), Some(map[]), None}
    ensures RevokedOk(revoked, issued[r.agent := Issue(token, r.credential)], creds[r.agent := r], after)
  {
  }

  lemma RegisterCalls(calls: map<Call, Phase>, call: Call, after: map<Call, Phase>, issued: map<AgentId, Issue>, issued': map<AgentId, Issue>, consumed: map<Token, Use>, agents: set<AgentId>, secrets: set<Credential>)
    requires CallsOk(calls, issued, consumed, agents, secrets) && call in calls && calls[call].Consumed?
    requires issued' == issued[calls[call].agent := Issue(calls[call].token, calls[call].credential)]
    requires after == calls - {call} || after == calls[call := Registered(calls[call].agent, calls[call].credential)]
    ensures CallsOk(after, issued', consumed, agents, secrets)
  {
    forall k | k in after
      ensures PhaseOk(after[k], issued', consumed, agents, secrets)
    {
      assert k != call ==> PhaseOk(calls[k], issued, consumed, agents, secrets);
    }
  }

  lemma KeepsRevoke(s: State, agent: AgentId, order: seq<AgentId>, write: Write)
    requires Base(s)
    ensures Base(DoRevoke(s, agent, order, write)) && Grows(s.past, DoRevoke(s, agent, order, write).past)
  {
    var t := DoRevoke(s, agent, order, write);
    if t != s {
      var creds := s.creds[agent := s.creds[agent].(active := false)];
      assert creds.Keys == s.creds.Keys;
      OrdersMember(order, creds.Keys);
      Deactivate(s.creds, agent, s.past.issued, s.memory, s.calls);
      SavedOk(s.file, creds, order, s.persistent, write, s.past.issued);
      RevokeRevoked(s.past.revoked, t.past.revoked, s.past.issued, s.creds, Restored(s.persistent, s.file), Restored(s.persistent, t.file), agent);
    }
  }

  lemma Deactivate(creds: map<AgentId, Record>, agent: AgentId, issued: map<AgentId, Issue>, memory: map<AgentId, Credential>, calls: map<Call, Phase>)
    requires CredsOk(creds, issued) && MemoryOk(memory, calls, creds) && agent in creds
    ensures var creds' := creds[agent := creds[agent].(active := false)];
            CredsOk(creds', issued) && MemoryOk(memory, calls, creds') && agent in issued
  {
    assert RecordOk(creds[agent], issued);
  }

  lemma RevokeRevoked(revoked: set<AgentId>, revoked': set<AgentId>, issued: map<AgentId, Issue>, creds: map<AgentId, Record>, before: Option<map<AgentId, Record>>, after: Option<map<AgentId, Record>>, agent: AgentId)
    requires RevokedOk(revoked, issued, creds, before) && agent in creds && agent in issued
    requires after in {before, Some(creds[agent := creds[agent].(active := false)]), Some(map[]), None}
    requires revoked' == revoked || (revoked' == revoked + {agent} && !Returns(after, agent))
    ensures RevokedOk(revoked', issued, creds[agent := creds[agent].(active := false)], after)
  {
  }

  lemma LoadedOk(file: File, issued: map<AgentId, Issue>)
    requires FileOk(file, issued)
    ensures Loaded(file).Some? ==> CredsOk(Loaded(file).value, issued)
  {
    if file.Holds? {
      LoadFrom(file.entries);
    }
  }

  lemma KeepsRestart(s: State)
    requires Base(s)
    ensures Base(DoRestart(s)) && Grows(s.past, DoRestart(s).past)
  {
    var t := DoRestart(s);
    LoadedOk(s.file, s.past.issued);
    assert CredsOk(t.creds, s.past.issued);
    assert TokensOk(t.tokens, s.past.made, s.past.consumed);
  }

  lemma AskedOk(c: Check, creds: map<AgentId, Record>, memory: map<AgentId, Credential>, st: Step)
    requires CheckOk(c, creds) && Keyed(creds) && Remembered(memory, creds) && Looks(st)
    ensures CheckOk(Noted(Asked(c, creds, memory, st), creds), creds)
  {
  }

  lemma KeepsCheck(checks: map<Call, Check>, creds: map<AgentId, Record>, memory: map<AgentId, Credential>, st: Step)
    requires ChecksOk(checks, creds) && Keyed(creds) && Remembered(memory, creds) && Looks(st) && st.call in checks
    ensures ChecksOk(NoteAll(checks[st.call := Asked(checks[st.call], creds, memory, st)], creds), creds)
  {
    AskedOk(checks[st.call], creds, memory, st);
    KeepsNotes(checks, creds, creds);
  }

  // The checks after a step that changes the records.
  lemma KeepsNotes(checks: map<Call, Check>, creds: map<AgentId, Record>, creds': map<AgentId, Record>)
    requires ChecksOk(checks, creds)
    requires RecordsFrom(creds, creds')
    ensures ChecksOk(NoteAll(checks, creds'), creds')
  {
    forall k | k in checks
      ensures CheckOk(Noted(checks[k], creds'), creds')
    {
      assert CheckOk(checks[k], creds);
    }
  }

  lemma KeepsCreate(s: State, token: Token, expires: int)
    requires Base(s)
    ensures Base(DoCreate(s, token, expires)) && Grows(s.past, DoCreate(s, token, expires).past)
  {
    var t := DoCreate(s, token, expires);
    assert TokensOk(t.tokens, t.past.made, t.past.consumed);
  }

  lemma KeepsCleanup(s: State, asOf: int)
    requires Base(s)
    ensures Base(DoCleanup(s, asOf)) && Grows(s.past, DoCleanup(s, asOf).past)
  {
    var t := DoCleanup(s, asOf);
    assert TokensOk(t.tokens, t.past.made, t.past.consumed);
  }

  lemma RememberMemory(memory: map<AgentId, Credential>, calls: map<Call, Phase>, k: Call, creds: map<AgentId, Record>)
    requires MemoryOk(memory, calls, creds) && k in calls && calls[k].Registered?
    ensures MemoryOk(memory[calls[k].agent := calls[k].credential], calls - {k}, creds)
  {
  }

  lemma KeepsRemember(s: State, call: Call)
    requires Base(s)
    ensures Base(DoRemember(s, call)) && Grows(s.past, DoRemember(s, call).past)
  {
    var t := DoRemember(s, call);
    if t != s {
      CallsDrop(s.calls, call, s.past.issued, s.past.consumed, s.past.agents, s.past.secrets);
      RememberMemory(s.memory, s.calls, call, s.creds);
    }
  }

  lemma KeepsValidate(s: State, call: Call, token: Token)
    requires Base(s)
    ensures Base(DoValidate(s, call, token)) && Grows(s.past, DoValidate(s, call, token).past)
  {
    var t := DoValidate(s, call, token);
    if t != s {
      CallsValidated(s.calls, call, token, s.past.issued, s.past.consumed, s.past.agents, s.past.secrets);
      MemoryCalls(s.memory, s.calls, t.calls, call, s.creds);
    }
  }

  lemma CoreCall(s: State, st: Step)
    requires Base(s) && (st.Validate? || st.Generate? || st.ConsumeToken? || st.Register? || st.Remember?)
    ensures Base(Core(s, st)) && Grows(s.past, Core(s, st).past)
  {
    match st {
      case Validate(call, given) => KeepsValidate(s, call, TrimSpace(given));
      case Generate(call, agent, credential) => KeepsGenerate(s, call, agent, credential);
      case ConsumeToken(call) => KeepsConsume(s, call);
      case Register(call, host, order, write) => KeepsRegister(s, call, host, order, write);
      case Remember(call) => KeepsRemember(s, call);
    }
  }

  lemma CoreStore(s: State, st: Step)
    requires Base(s) && (st.CreateToken? || st.Cleanup? || st.Revoke? || st.Restart?)
    ensures Base(Core(s, st)) && Grows(s.past, Core(s, st).past)
  {
    match st {
      case CreateToken(token, expires) => KeepsCreate(s, token, expires);
      case Cleanup(asOf) => KeepsCleanup(s, asOf);
      case Revoke(agent, order, write) => KeepsRevoke(s, agent, order, write);
      case Restart => KeepsRestart(s);
    }
  }

  lemma CoreQuiet(s: State, st: Step)
    requires st.Tick? || st.Ask? || Looks(st)
    ensures SameBase(s, Core(s, st))
  {
  }

  // Everything but the checks in progress.
  lemma CoreStep(s: State, st: Step)
    requires Base(s)
    ensures Base(Core(s, st)) && Grows(s.past, Core(s, st).past)
  {
    if st.Tick? || st.Ask? || Looks(st) {
      CoreQuiet(s, st);
      KeepsSame(s, Core(s, st));
    } else if st.CreateToken? || st.Cleanup? || st.Revoke? || st.Restart? {
      CoreStore(s, st);
    } else {
      CoreCall(s, st);
    }
  }

  ghost predicate SameBase(s: State, t: State) {
    && (s.tokens, s.creds, s.memory, s.calls) == (t.tokens, t.creds, t.memory, t.calls)
    && (s.file, s.persistent, s.past) == (t.file, t.persistent, t.past)
  }

  lemma KeepsSame(s: State, t: State)
    requires Base(s) && SameBase(s, t)
    ensures Base(t) && Grows(s.past, t.past)
  {
  }

  // How a step can change the records: an inactive one was there before with the same credential.
  ghost predicate RecordsFrom(before: map<AgentId, Record>, after: map<AgentId, Record>) {
    forall a :: a in after && !after[a].active ==> a in before && before[a].credential == after[a].credential
  }

  lemma RegisterFrom(s: State, call: Call, host: string, order: seq<AgentId>, write: Write)
    ensures RecordsFrom(s.creds, DoRegister(s, call, host, order, write).creds)
  {
  }

  lemma RevokeFrom(s: State, agent: AgentId, order: seq<AgentId>, write: Write)
    ensures RecordsFrom(s.creds, DoRevoke(s, agent, order, write).creds)
  {
  }

  lemma RecordsKept(s: State, st: Step)
    requires !st.Restart?
    ensures RecordsFrom(s.creds, Core(s, st).creds)
  {
    if st.Register? {
      RegisterFrom(s, st.call, st.host, st.order, st.write);
    } else if st.Revoke? {
      RevokeFrom(s, st.agent, st.order, st.write);
    } else {
      assert Core(s, st).creds == s.creds;
    }
  }

  // Steps other than lookups leave the checks alone, but for a new one.
  lemma ChecksStart(s: State, st: Step)
    requires ChecksOk(s.checks, s.creds) && !Looks(st)
    ensures ChecksOk(Core(s, st).checks, s.creds)
  {
    assert st.Restart? ==> Core(s, st).checks == map[];
  }

  lemma StepNotes(s: State, st: Step)
    requires ChecksOk(s.checks, s.creds) && Keyed(s.creds) && Remembered(s.memory, s.creds) && !st.Restart?
    ensures ChecksOk(NoteAll(Core(s, st).checks, Core(s, st).creds), Core(s, st).creds)
  {
    if Looks(st) {
      LookNotes(s, st);
    } else {
      ChecksStart(s, st);
      RecordsKept(s, st);
      KeepsNotes(Core(s, st).checks, s.creds, Core(s, st).creds);
    }
  }

  lemma LookNotes(s: State, st: Step)
    requires ChecksOk(s.checks, s.creds) && Keyed(s.creds) && Remembered(s.memory, s.creds) && Looks(st)
    ensures ChecksOk(NoteAll(DoCheck(s, st).checks, s.creds), s.creds) && DoCheck(s, st).creds == s.creds
  {
    if st.call in s.checks {
      KeepsCheck(s.checks, s.creds, s.memory, st);
    } else {
      KeepsNotes(s.checks, s.creds, s.creds);
    }
  }

  // Every step keeps the invariant and only adds to history.
  lemma InvStep(s: State, st: Step)
    requires Inv(s)
    ensures Inv(Next(s, st)) && Grows(s.past, Next(s, st).past)
  {
    if s.up || st.Restart? {
      CoreStep(s, st);
      KeepsSame(Core(s, st), Next(s, st));
      if !st.Restart? {
        StepNotes(s, st);
      }
    }
  }

  // ---------------------------------------------------------------- whole runs

  lemma {:induction false} InvRun(s: State, steps: seq<Step>)
    requires Inv(s)
    ensures Inv(Run(s, steps)) && Grows(s.past, Run(s, steps).past)
    decreases |steps|
  {
    if steps != [] {
      InvStep(s, steps[0]);
      InvRun(Next(s, steps[0]), steps[1..]);
    }
  }

  // Credentials inject into tokens: every credential issued was paid for by a token that was created,
  // was consumed for that very agent and not after its expiry; no two credentials share a token; and
  // a consumed token is never usable again.
  ghost predicate OneCredentialPerToken(s: State) {
    && (forall a :: a in s.past.issued ==>
          var t := s.past.issued[a].token;
          t in s.past.made && t in s.past.consumed && s.past.consumed[t].agent == a && s.past.consumed[t].at <= s.past.made[t])
    && (forall a, b :: a in s.past.issued && b in s.past.issued && a != b ==>
          s.past.issued[a].token != s.past.issued[b].token && s.past.issued[a].credential != s.past.issued[b].credential)
    && (forall t, later :: t in s.past.consumed ==> !Usable(s.tokens, t, later))
  }

  lemma InvFundsOnce(s: State)
    requires Inv(s)
    ensures OneCredentialPerToken(s)
  {
  }

  lemma Reachable(persistent: bool, now: int, steps: seq<Step>)
    ensures Inv(Run(Init(persistent, now), steps))
  {
    assert Inv(Init(persistent, now));
    InvRun(Init(persistent, now), steps);
  }

  lemma TokensFundOnce(persistent: bool, now: int, steps: seq<Step>)
    ensures OneCredentialPerToken(Run(Init(persistent, now), steps))
  {
    Reachable(persistent, now, steps);
    InvFundsOnce(Run(Init(persistent, now), steps));
  }

  // Once consumed, a token stays consumed by the same agent and unusable in every later state.
  lemma ConsumedForGood(s: State, steps: seq<Step>, token: Token, later: int)
    requires Inv(s) && token in s.past.consumed
    ensures token in Run(s, steps).past.consumed && Run(s, steps).past.consumed[token] == s.past.consumed[token]
    ensures !Usable(Run(s, steps).tokens, token, later)
  {
    InvRun(s, steps);
  }

  // In every reachable state the three-way lookup is the simple rule, and only a pair that was issued
  // together passes it.
  lemma LookupIsRule(persistent: bool, now: int, steps: seq<Step>, found: Option<Record>, agent: AgentId, credential: Credential)
    requires FoundBy(Run(Init(persistent, now), steps).creds, credential, found)
    ensures var s := Run(Init(persistent, now), steps);
            && ThreeWay(s.creds, s.memory, found, agent, credential) == Active(s.creds, agent, credential)
            && (Active(s.creds, agent, credential) ==> agent in s.past.issued && s.past.issued[agent].credential == credential)
  {
    Reachable(persistent, now, steps);
    var s := Run(Init(persistent, now), steps);
    ThreeWayIsRule(s.creds, s.memory, found, agent, credential);
  }

  // A check spread over three lock sections answers what the rule said at some instant of the call.
  lemma CheckLinearizes(persistent: bool, now: int, steps: seq<Step>, call: Call)
    ensures var s := Run(Init(persistent, now), steps);
            call in s.checks && s.checks[call].stage.Answered? ==>
              if s.checks[call].stage.ok then s.checks[call].valid else s.checks[call].invalid
  {
    Reachable(persistent, now, steps);
    var s := Run(Init(persistent, now), steps);
    assert call in s.checks ==> CheckOk(s.checks[call], s.creds);
  }

  // What a restart right after the revocation would find.
  lemma RevokeLeaves(s: State, agent: AgentId, order: seq<AgentId>, write: Write)
    requires Base(s) && Plausible(write) && agent in s.creds && Orders(order, s.creds.Keys)
    ensures Returns(Restored(s.persistent, DoRevoke(s, agent, order, write).file), agent)
        <==> s.persistent && write.Untouched? && Returns(Loaded(s.file), agent)
  {
    var creds := s.creds[agent := s.creds[agent].(active := false)];
    assert creds.Keys == s.creds.Keys;
    OrdersMember(order, creds.Keys);
    Deactivate(s.creds, agent, s.past.issued, s.memory, s.calls);
    SavedOk(s.file, creds, order, s.persistent, write, s.past.issued);
  }

  lemma RevokeStep(s: State, agent: AgentId, order: seq<AgentId>, write: Write)
    requires Inv(s) && s.up && Plausible(write) && agent in s.creds && Orders(order, s.creds.Keys)
    ensures var t := Next(s, Revoke(agent, order, write));
            && Inv(t) && t.file == DoRevoke(s, agent, order, write).file && t.persistent == s.persistent
            && (!Returns(Restored(t.persistent, t.file), agent) ==> agent in t.past.revoked)
  {
    RevokeNext(s, agent, order, write);
    InvStep(s, Revoke(agent, order, write));
  }

  lemma RevokeNext(s: State, agent: AgentId, order: seq<AgentId>, write: Write)
    requires s.up && Plausible(write) && agent in s.creds && Orders(order, s.creds.Keys)
    ensures var t, u := Next(s, Revoke(agent, order, write)), DoRevoke(s, agent, order, write);
            t.file == u.file && t.persistent == u.persistent == s.persistent && t.past == u.past
    ensures var u := DoRevoke(s, agent, order, write);
            !Returns(Restored(s.persistent, u.file), agent) ==> agent in u.past.revoked
  {
  }

  lemma StaysRevoked(t: State, agent: AgentId, steps: seq<Step>, credential: Credential)
    requires Inv(t) && agent in t.past.revoked
    ensures !Active(Run(t, steps).creds, agent, credential)
  {
    InvRun(t, steps);
  }

  lemma BackAgain(t: State, agent: AgentId)
    requires Returns(Restored(t.persistent, t.file), agent)
    ensures !NeverActive(t, agent)
  {
    var u := Next(t, Restart);
    assert [Restart][1..] == [];
    assert Run(t, [Restart]) == Run(u, []) == u;
    assert Active(u.creds, agent, u.creds[agent].credential);
  }

  ghost predicate NeverActive(s: State, agent: AgentId) {
    forall steps, credential :: !Active(Run(s, steps).creds, agent, credential)
  }

  // A revoked agent is rejected in every later state, restarts included, unless there is a file that
  // accepts it and saving the revocation failed before touching that file: exactly then it returns.
  lemma RevokeExact(s: State, agent: AgentId, order: seq<AgentId>, write: Write)
    requires Inv(s) && s.up && Plausible(write) && agent in s.creds && Orders(order, s.creds.Keys)
    ensures NeverActive(Next(s, Revoke(agent, order, write)), agent)
        <==> !(s.persistent && write.Untouched? && Returns(Loaded(s.file), agent))
  {
    var t := Next(s, Revoke(agent, order, write));
    RevokeLeaves(s, agent, order, write);
    RevokeStep(s, agent, order, write);
    if Returns(Restored(t.persistent, t.file), agent) {
      BackAgain(t, agent);
    } else {
      forall steps, credential
        ensures !Active(Run(t, steps).creds, agent, credential)
      {
        StaysRevoked(t, agent, steps, credential);
      }
    }
  }

  // In particular, after a successful revoke the agent is rejected in every later state.
  lemma RevokedForGood(s: State, agent: AgentId, order: seq<AgentId>, write: Write, steps: seq<Step>, credential: Credential)
    requires Inv(s) && s.up && Plausible(write) && agent in s.creds && Orders(order, s.creds.Keys)
    requires s.persistent ==> write == Written
    ensures !Active(Run(Next(s, Revoke(agent, order, write)), steps).creds, agent, credential)
  {
    RevokeExact(s, agent, order, write);
  }

  // Success is needed: when saving the revocation fails before touching the file, a restart brings
  // the credential back.
  lemma UnsavedRevokeReturns(s: State, agent: AgentId, credential: Credential, order: seq<AgentId>, order': seq<AgentId>)
    requires s.up && s.persistent && Keyed(s.creds) && Active(s.creds, agent, credential)
    requires Orders(order, s.creds.Keys) && Orders(order', s.creds.Keys) && (forall a :: a in order ==> a in s.creds)
    requires s.file == Holds(Saved(s.creds, order))
    ensures Active(Next(Next(s, Revoke(agent, order', Untouched)), Restart).creds, agent, credential)
  {
    LoadSaved(s.creds, order);
    RevokeNext(s, agent, order', Untouched);
    assert DoRevoke(s, agent, order', Untouched).file == s.file;
  }

  // ---------------------------------------------------------------- what enrollment gives

  // Creating a token makes it usable until it expires; cleaning up removes exactly the expired ones; a
  // restart forgets all tokens and everything in progress.
  lemma TokenSteps(s: State, token: Token, expires: int, asOf: int)
    requires s.up
    ensures token !in s.past.made ==>
              var t := Next(s, CreateToken(token, expires));
              token in t.tokens && forall at :: Usable(t.tokens, token, at) <==> at <= expires
    ensures asOf <= s.now ==>
              var t := Next(s, Cleanup(asOf));
              forall k :: k in t.tokens <==> k in s.tokens && asOf <= s.tokens[k].expires
    ensures var t := Next(s, Restart); t.tokens == map[] && t.calls == map[] && t.memory == map[]
  {
  }

  lemma CallTokens(s: State, st: Step)
    requires st.Validate? || st.Generate? || st.Register? || st.Remember?
    ensures Core(s, st).tokens == s.tokens
  {
  }

  lemma TokensSame(s: State, st: Step)
    requires !st.CreateToken? && !st.ConsumeToken? && !st.Cleanup? && !st.Restart?
    ensures Core(s, st).tokens == s.tokens
  {
    if st.Validate? || st.Generate? || st.Register? || st.Remember? {
      CallTokens(s, st);
    } else if !st.Revoke? {
      CoreQuiet(s, st);
    }
  }

  lemma TokenCore(s: State, st: Step, token: Token)
    requires token in s.tokens && token in s.past.made && !st.Restart?
    ensures var t := Core(s, st);
            || token in t.past.consumed
            || (token in t.tokens && t.tokens[token] == s.tokens[token])
            || s.tokens[token].expires < s.now
  {
    if st.ConsumeToken? {
      ConsumeOne(s, st.call, token);
    } else if !st.CreateToken? && !st.Cleanup? {
      TokensSame(s, st);
    }
  }

  // An unused token that has not expired stays usable until it is consumed or the manager restarts.
  lemma TokenStep(s: State, st: Step, token: Token)
    requires token in s.tokens && token in s.past.made && !st.Restart?
    ensures var t := Next(s, st);
            || token in t.past.consumed
            || (token in t.tokens && t.tokens[token] == s.tokens[token])
            || s.tokens[token].expires < s.now
  {
    TokenCore(s, st, token);
  }

  lemma ConsumeOne(s: State, call: Call, token: Token)
    requires token in s.tokens
    ensures var t := DoConsume(s, call);
            token in t.past.consumed || (token in t.tokens && t.tokens[token] == s.tokens[token])
  {
  }

  lemma {:induction false} TimePasses(s: State, steps: seq<Step>)
    ensures Run(s, steps).now >= s.now
    decreases |steps|
  {
    if steps != [] {
      NowGrows(s, steps[0]);
      TimePasses(Next(s, steps[0]), steps[1..]);
    }
  }

  lemma NowGrows(s: State, st: Step)
    ensures Next(s, st).now >= s.now
  {
  }

  lemma {:induction false} TokenLives(s: State, steps: seq<Step>, token: Token)
    requires Inv(s) && token in s.tokens && !s.tokens[token].used && Restart !in steps
    requires Run(s, steps).now <= s.tokens[token].expires && token !in Run(s, steps).past.consumed
    ensures Usable(Run(s, steps).tokens, token, Run(s, steps).now)
    decreases |steps|
  {
    if steps != [] {
      var t := Next(s, steps[0]);
      TokenStep(s, steps[0], token);
      InvStep(s, steps[0]);
      InvRun(t, steps[1..]);
      NowGrows(s, steps[0]);
      TimePasses(t, steps[1..]);
      TokenLives(t, steps[1..], token);
    }
  }

  // An enrollment with a usable token, uninterrupted and saved: the agent's credential is accepted, its
  // record has the host given, and the token is used up for it.
  lemma EnrollWorks(s: State, call: Call, given: string, agent: AgentId, credential: Credential, host: string, order: seq<AgentId>)
    requires s.up && call !in s.calls && TrimSpace(given) != "" && Usable(s.tokens, TrimSpace(given), s.now)
    requires agent !in s.past.agents && credential !in s.past.secrets && agent != "" && agent !in s.creds
    requires Orders(order, s.creds.Keys + {agent})
    ensures var t := Next(Next(Next(Next(s, Validate(call, given)), Generate(call, agent, credential)), ConsumeToken(call)), Register(call, host, order, Written));
            && agent in t.creds && t.creds[agent] == Record(agent, TrimSpace(host), credential, true)
            && Active(t.creds, agent, credential)
            && TrimSpace(given) in t.tokens && t.tokens[TrimSpace(given)].used && t.tokens[TrimSpace(given)].agent == agent
  {
    var token := TrimSpace(given);
    var s1 := Next(s, Validate(call, given));
    EnrollBegins(s, call, given, agent, credential);
    var s2 := Next(s1, Generate(call, agent, credential));
    EnrollConsumes(s2, call, token, agent, credential);
    var s3 := Next(s2, ConsumeToken(call));
    EnrollStores(s3, call, token, agent, credential, host, order);
  }

  lemma EnrollBegins(s: State, call: Call, given: string, agent: AgentId, credential: Credential)
    requires s.up && call !in s.calls && TrimSpace(given) != "" && Usable(s.tokens, TrimSpace(given), s.now)
    requires agent !in s.past.agents && credential !in s.past.secrets && agent != ""
    ensures var t := Next(Next(s, Validate(call, given)), Generate(call, agent, credential));
            && t.up && t.now == s.now && t.tokens == s.tokens && t.creds == s.creds && t.persistent == s.persistent
            && call in t.calls && t.calls[call] == Generated(TrimSpace(given), agent, credential)
  {
    var s1 := Next(s, Validate(call, given));
    assert s1.calls[call] == Validated(TrimSpace(given));
  }

  lemma EnrollConsumes(s: State, call: Call, token: Token, agent: AgentId, credential: Credential)
    requires s.up && Usable(s.tokens, token, s.now) && call in s.calls && s.calls[call] == Generated(token, agent, credential)
    ensures var t := Next(s, ConsumeToken(call));
            && t.up && t.creds == s.creds && call in t.calls && t.calls[call] == Consumed(token, agent, credential)
            && token in t.tokens && t.tokens[token] == TokenRow(s.tokens[token].expires, true, agent)
  {
  }

  lemma EnrollStores(s: State, call: Call, token: Token, agent: AgentId, credential: Credential, host: string, order: seq<AgentId>)
    requires s.up && call in s.calls && s.calls[call] == Consumed(token, agent, credential) && Orders(order, s.creds.Keys + {agent})
    ensures var t := Next(s, Register(call, host, order, Written));
            && t.tokens == s.tokens && agent in t.creds && t.creds[agent] == Record(agent, TrimSpace(host), credential, true)
            && forall a :: a in s.creds && a != agent ==> a in t.creds && t.creds[a] == s.creds[a]
  {
    var r := Record(agent, TrimSpace(host), credential, true);
    assert s.creds[agent := r].Keys == s.creds.Keys + {agent};
  }
}
