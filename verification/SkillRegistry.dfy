/** The domain-skill registry: versions read and inserted optimistically under a unique constraint by
    concurrent calls, and a running score that retires a skill for good. */
module SkillRegistry {
  import opened Wrappers

  const RETIRE_THRESHOLD: int := -3
  const VERSION_RETRIES: nat := 3

  type SkillId = nat
  type CallId = nat
  type Domain = string

  datatype Status = Active | Retired
  datatype Skill = Skill(domain: Domain, version: nat, content: string, score: int, status: Status)

  /** A call of `record_skill` past its duplicate check: about to read the maximum, or to insert. */
  datatype Phase = Reading | Inserting(version: nat)
  datatype Call = Call(domain: Domain, content: string, attempt: nat, phase: Phase, begun: nat)

  datatype Fact = Stored(call: CallId, domain: Domain, version: nat, id: SkillId)

  datatype State = State(skills: map<SkillId, Skill>, calls: map<CallId, Call>, log: seq<Fact>)

  /** What a call, or a part of it, comes to. */
  datatype Outcome =
    | Proceeds | Rejected | Duplicate(id: SkillId) | ManyDuplicates | Inserted(id: SkillId) | RaceExhausted

  predicate Holds(skills: map<SkillId, Skill>, domain: Domain, version: nat) {
    exists id :: id in skills && skills[id].domain == domain && skills[id].version == version
  }

  function Twins(skills: map<SkillId, Skill>, domain: Domain, content: string): set<SkillId> {
    set id | id in skills && skills[id].domain == domain && skills[id].content == content && skills[id].status == Active
  }

  /** An active row of the domain with the same content. */
  predicate IsActiveCopy(skills: map<SkillId, Skill>, domain: Domain, content: string, id: SkillId) {
    id in skills && skills[id] == Skill(domain, skills[id].version, content, skills[id].score, Active)
  }

  lemma TwinsAreCopies(skills: map<SkillId, Skill>, domain: Domain, content: string)
    ensures forall id :: id in Twins(skills, domain, content) <==> IsActiveCopy(skills, domain, content, id)
  {
  }

  /** `max(version) or 0`. */
  ghost predicate IsMaxVersion(skills: map<SkillId, Skill>, domain: Domain, max: nat) {
    (forall id :: id in skills && skills[id].domain == domain ==> skills[id].version <= max) &&
    (max == 0 || Holds(skills, domain, max))
  }

  // ---------------------------------------------------------------- recording

  ghost function Begin(s: State, c: CallId, domain: Domain, content: string, clean: bool): (State, Outcome) {
    var twins := Twins(s.skills, domain, content);
    if !clean then (s, Rejected)
    else if |twins| > 1 then (s, ManyDuplicates)
    else if |twins| == 1 then (s, Duplicate(var id :| id in twins; id))
    else (s.(calls := s.calls[c := Call(domain, content, 0, Reading, |s.log|)]), Proceeds)
  }

  ghost function ReadMax(s: State, c: CallId, max: nat): State
    requires c in s.calls
  {
    s.(calls := s.calls[c := s.calls[c].(phase := Inserting(max + 1))])
  }

  /** The insert commits unless another row took the version; the third collision ends the call. */
  ghost function TryInsert(s: State, c: CallId, id: SkillId): (State, Outcome)
    requires c in s.calls && s.calls[c].phase.Inserting?
  {
    var call := s.calls[c];
    var version := call.phase.version;
    if Holds(s.skills, call.domain, version) then
      if call.attempt + 1 >= VERSION_RETRIES then (s.(calls := s.calls - {c}), RaceExhausted)
      else (s.(calls := s.calls[c := call.(attempt := call.attempt + 1, phase := Reading)]), Proceeds)
    else
      (State(s.skills[id := Skill(call.domain, version, call.content, 0, Active)], s.calls - {c},
             s.log + [Stored(c, call.domain, version, id)]), Inserted(id))
  }

  // ---------------------------------------------------------------- feedback

  function Rate(skill: Skill, delta: int): Skill {
    var score := skill.score + delta;
    skill.(score := score, status := if score <= RETIRE_THRESHOLD then Retired else skill.status)
  }

  ghost function AddFeedback(s: State, id: SkillId, delta: int): State {
    if id !in s.skills then s else s.(skills := s.skills[id := Rate(s.skills[id], delta)])
  }

  // ---------------------------------------------------------------- runs

  datatype Event =
    | Begun(c: CallId, domain: Domain, content: string, clean: bool)
    | MaxRead(c: CallId, max: nat)
    | InsertTried(c: CallId, id: SkillId)
    | Rated(id: SkillId, delta: int)

  ghost predicate Enabled(s: State, e: Event) {
    match e
    case Begun(c, _, _, _) => c !in s.calls
    case MaxRead(c, max) => c in s.calls && s.calls[c].phase.Reading? && IsMaxVersion(s.skills, s.calls[c].domain, max)
    case InsertTried(c, id) => c in s.calls && s.calls[c].phase.Inserting? && id !in s.skills
    case Rated(_, _) => true
  }

  ghost function Next(s: State, e: Event): State
    requires Enabled(s, e)
  {
    match e
    case Begun(c, domain, content, clean) => Begin(s, c, domain, content, clean).0
    case MaxRead(c, max) => ReadMax(s, c, max)
    case InsertTried(c, id) => TryInsert(s, c, id).0
    case Rated(id, delta) => AddFeedback(s, id, delta)
  }

  ghost function After(s: State, es: seq<Event>): Option<State> {
    if es == [] then Some(s)
    else
      var n := |es| - 1;
      var m := After(s, es[..n]);
      if m.None? || !Enabled(m.value, es[n]) then None else Some(Next(m.value, es[n]))
  }

  const Empty: State := State(map[], map[], [])

  // ---------------------------------------------------------------- the invariant

  ghost function Count(log: seq<Fact>, domain: Domain): nat {
    if log == [] then 0
    else Count(log[..|log| - 1], domain) + if log[|log| - 1].domain == domain then 1 else 0
  }

  ghost predicate Numbered(s: State) {
    (forall id :: id in s.skills ==> 1 <= s.skills[id].version <= Count(s.log, s.skills[id].domain)) &&
    (forall a, b :: a in s.skills && b in s.skills && a != b && s.skills[a].domain == s.skills[b].domain
      ==> s.skills[a].version != s.skills[b].version)
  }

  ghost predicate Gapless(s: State) {
    forall domain, v: nat :: 1 <= v <= Count(s.log, domain) ==> Holds(s.skills, domain, v)
  }

  /** What a call knows: every failed attempt stands for an insert of somebody else since it began. */
  ghost predicate CallOk(s: State, c: CallId)
    requires c in s.calls
  {
    var call := s.calls[c];
    call.begun <= |s.log| && call.attempt < VERSION_RETRIES &&
    (forall i :: call.begun <= i < |s.log| ==> s.log[i].call != c) &&
    var before := Count(s.log[..call.begun], call.domain);
    match call.phase
    case Reading => before + call.attempt <= Count(s.log, call.domain)
    case Inserting(version) => before + call.attempt < version <= Count(s.log, call.domain) + 1
  }

  ghost predicate Safe(s: State) {
    Numbered(s) && Gapless(s) && forall c :: c in s.calls ==> CallOk(s, c)
  }

  lemma CountSnoc(log: seq<Fact>, f: Fact, domain: Domain)
    ensures Count(log + [f], domain) == Count(log, domain) + if f.domain == domain then 1 else 0
  {
    assert (log + [f])[..|log|] == log;
  }

  lemma MaxIsCount(s: State, domain: Domain, max: nat)
    requires Numbered(s) && Gapless(s) && IsMaxVersion(s.skills, domain, max)
    ensures max == Count(s.log, domain)
  {
    if Count(s.log, domain) > 0 {
      assert Holds(s.skills, domain, Count(s.log, domain));
    }
  }

  lemma InsertCounts(s: State, c: CallId, id: SkillId, domain: Domain)
    requires Safe(s) && Enabled(s, InsertTried(c, id))
    requires !Holds(s.skills, s.calls[c].domain, s.calls[c].phase.version)
    ensures s.calls[c].phase.version == Count(s.log, s.calls[c].domain) + 1
    ensures Count(TryInsert(s, c, id).0.log, domain) ==
      Count(s.log, domain) + if s.calls[c].domain == domain then 1 else 0
  {
    assert CallOk(s, c);
    CountSnoc(s.log, Stored(c, s.calls[c].domain, s.calls[c].phase.version, id), domain);
  }

  lemma InsertKeepsCall(s: State, c: CallId, id: SkillId, k: CallId)
    requires Safe(s) && Enabled(s, InsertTried(c, id)) && k in TryInsert(s, c, id).0.calls
    requires !Holds(s.skills, s.calls[c].domain, s.calls[c].phase.version)
    ensures CallOk(TryInsert(s, c, id).0, k)
  {
    var t := TryInsert(s, c, id).0;
    assert CallOk(s, k);
    assert t.log[..s.calls[k].begun] == s.log[..s.calls[k].begun];
    InsertCounts(s, c, id, s.calls[k].domain);
  }

  lemma InsertIsGapless(s: State, c: CallId, id: SkillId, domain: Domain, v: nat)
    requires Safe(s) && Enabled(s, InsertTried(c, id))
    requires !Holds(s.skills, s.calls[c].domain, s.calls[c].phase.version)
    requires 1 <= v <= Count(TryInsert(s, c, id).0.log, domain)
    ensures Holds(TryInsert(s, c, id).0.skills, domain, v)
  {
    var t, call := TryInsert(s, c, id).0, s.calls[c];
    InsertCounts(s, c, id, domain);
    if domain == call.domain && v == call.phase.version {
      assert t.skills[id].version == v;
    } else {
      assert Holds(s.skills, domain, v);
      var a :| a in s.skills && s.skills[a].domain == domain && s.skills[a].version == v;
      assert t.skills[a] == s.skills[a];
    }
  }

  lemma InsertIsNumbered(s: State, c: CallId, id: SkillId)
    requires Safe(s) && Enabled(s, InsertTried(c, id))
    requires !Holds(s.skills, s.calls[c].domain, s.calls[c].phase.version)
    ensures Numbered(TryInsert(s, c, id).0)
  {
    var t := TryInsert(s, c, id).0;
    forall a | a in t.skills
      ensures 1 <= t.skills[a].version <= Count(t.log, t.skills[a].domain)
    {
      InsertCounts(s, c, id, t.skills[a].domain);
    }
  }

  lemma InsertIsSafe(s: State, c: CallId, id: SkillId)
    requires Safe(s) && Enabled(s, InsertTried(c, id))
    requires !Holds(s.skills, s.calls[c].domain, s.calls[c].phase.version)
    ensures Safe(TryInsert(s, c, id).0)
  {
    var t := TryInsert(s, c, id).0;
    InsertIsNumbered(s, c, id);
    forall domain, v: nat | 1 <= v <= Count(t.log, domain) ensures Holds(t.skills, domain, v) {
      InsertIsGapless(s, c, id, domain, v);
    }
    forall k | k in t.calls ensures CallOk(t, k) {
      InsertKeepsCall(s, c, id, k);
    }
  }

  lemma CollisionIsSafe(s: State, c: CallId, id: SkillId)
    requires Safe(s) && Enabled(s, InsertTried(c, id))
    requires Holds(s.skills, s.calls[c].domain, s.calls[c].phase.version)
    ensures Safe(TryInsert(s, c, id).0)
  {
    var t := TryInsert(s, c, id).0;
    assert CallOk(s, c);
    forall k | k in t.calls
      ensures CallOk(t, k)
    {
      assert CallOk(s, k);
    }
  }

  lemma RateIsSafe(s: State, id: SkillId, delta: int)
    requires Safe(s)
    ensures Safe(AddFeedback(s, id, delta))
  {
    var t := AddFeedback(s, id, delta);
    forall domain, v: nat | 1 <= v <= Count(t.log, domain)
      ensures Holds(t.skills, domain, v)
    {
      assert Holds(s.skills, domain, v);
      var a :| a in s.skills && s.skills[a].domain == domain && s.skills[a].version == v;
      assert t.skills[a].version == v;
    }
    forall k | k in t.calls
      ensures CallOk(t, k)
    {
      assert CallOk(s, k);
    }
  }

  lemma CallsMoveIsSafe(s: State, t: State, c: CallId)
    requires Safe(s) && t.skills == s.skills && t.log == s.log && c in t.calls && t.calls == s.calls[c := t.calls[c]]
    requires CallOk(t, c)
    ensures Safe(t)
  {
    forall k | k in t.calls
      ensures CallOk(t, k)
    {
      if k != c { assert CallOk(s, k); }
    }
  }

  lemma NextIsSafe(s: State, e: Event)
    requires Safe(s) && Enabled(s, e)
    ensures Safe(Next(s, e))
  {
    match e
    case Begun(c, domain, content, clean) =>
      if Begin(s, c, domain, content, clean).1 == Proceeds {
        assert s.log[..|s.log|] == s.log;
        CallsMoveIsSafe(s, Next(s, e), c);
      }
    case MaxRead(c, max) =>
      assert CallOk(s, c);
      MaxIsCount(s, s.calls[c].domain, max);
      CallsMoveIsSafe(s, Next(s, e), c);
    case InsertTried(c, id) =>
      if Holds(s.skills, s.calls[c].domain, s.calls[c].phase.version) { CollisionIsSafe(s, c, id); }
      else { InsertIsSafe(s, c, id); }
    case Rated(id, delta) => RateIsSafe(s, id, delta);
  }

  lemma {:induction false} RunsAreSafe(es: seq<Event>)
    requires After(Empty, es).Some?
    ensures Safe(After(Empty, es).value)
  {
    if es != [] {
      var n := |es| - 1;
      RunsAreSafe(es[..n]);
      NextIsSafe(After(Empty, es[..n]).value, es[n]);
    }
  }

  // ---------------------------------------------------------------- the theorems on versions

  /** Under any interleaving the versions of a domain are exactly 1 to n, each held by one row. */
  lemma VersionsAreExactly(es: seq<Event>, domain: Domain, v: nat)
    requires After(Empty, es).Some?
    ensures var s := After(Empty, es).value;
      && (Holds(s.skills, domain, v) <==> 1 <= v <= Count(s.log, domain))
      && (forall a, b :: a in s.skills && b in s.skills && s.skills[a].domain == s.skills[b].domain == domain &&
                         s.skills[a].version == s.skills[b].version == v
            ==> a == b)
  {
    RunsAreSafe(es);
  }

  lemma {:induction false} CountSplit(a: seq<Fact>, b: seq<Fact>, domain: Domain)
    ensures Count(a + b, domain) == Count(a, domain) + Count(b, domain)
  {
    if b == [] {
      assert a + b == a;
    } else {
      var n := |b| - 1;
      assert a + b == (a + b[..n]) + [b[n]] && b == b[..n] + [b[n]];
      CountSplit(a, b[..n], domain);
      CountSnoc(a + b[..n], b[n], domain);
    }
  }

  /** A call gives up on the race only after three other calls' inserts committed in its domain. */
  lemma GivesUpOnlyAfterThree(es: seq<Event>, c: CallId, id: SkillId)
    requires After(Empty, es).Some? && Enabled(After(Empty, es).value, InsertTried(c, id))
    requires TryInsert(After(Empty, es).value, c, id).1 == RaceExhausted
    ensures var s := After(Empty, es).value; var call := s.calls[c];
      && call.begun <= |s.log|
      && Count(s.log[call.begun..], call.domain) >= 3
      && forall i :: call.begun <= i < |s.log| ==> s.log[i].call != c
  {
    RunsAreSafe(es);
    ThirdCollisionCounts(After(Empty, es).value, c, id);
  }

  lemma ThirdCollisionCounts(s: State, c: CallId, id: SkillId)
    requires Safe(s) && Enabled(s, InsertTried(c, id)) && TryInsert(s, c, id).1 == RaceExhausted
    ensures var call := s.calls[c];
      && call.begun <= |s.log|
      && Count(s.log[call.begun..], call.domain) >= 3
      && forall i :: call.begun <= i < |s.log| ==> s.log[i].call != c
  {
    var call := s.calls[c];
    assert CallOk(s, c);
    HeldVersionIsCounted(s, call.domain, call.phase.version);
    CutLog(s.log, call.begun);
    CountSplit(s.log[..call.begun], s.log[call.begun..], call.domain);
  }

  lemma HeldVersionIsCounted(s: State, domain: Domain, version: nat)
    requires Numbered(s) && Holds(s.skills, domain, version)
    ensures version <= Count(s.log, domain)
  {
  }

  lemma CutLog(log: seq<Fact>, k: nat)
    requires k <= |log|
    ensures log == log[..k] + log[k..]
  {
  }

  /** A collision ends the call exactly on its third attempt; before that the call reads again. */
  lemma CollisionEndsTheThirdAttempt(s: State, c: CallId, id: SkillId)
    requires Enabled(s, InsertTried(c, id))
    ensures var (t, r) := TryInsert(s, c, id); var call := s.calls[c];
      var taken := exists k :: k in s.skills && s.skills[k].domain == call.domain &&
                               s.skills[k].version == call.phase.version;
      && (r == RaceExhausted <==> taken && call.attempt >= 2)
      && (r == Proceeds <==> taken && call.attempt < 2)
      && (r == Proceeds ==> c in t.calls && t.calls[c] == call.(attempt := call.attempt + 1, phase := Reading))
      && (taken ==> t.skills == s.skills && t.log == s.log)
      && (!taken ==> r == Inserted(id) && c !in t.calls)
      && (!taken ==> t.skills == s.skills[id := Skill(call.domain, call.phase.version, call.content, 0, Active)])
  {
  }

  // ---------------------------------------------------------------- the theorems on feedback

  function RateAll(skill: Skill, deltas: seq<int>): Skill {
    if deltas == [] then skill else Rate(RateAll(skill, deltas[..|deltas| - 1]), deltas[|deltas| - 1])
  }

  function Sum(deltas: seq<int>): int {
    if deltas == [] then 0 else Sum(deltas[..|deltas| - 1]) + deltas[|deltas| - 1]
  }

  /** Over every serial feedback the score is the sum, and a skill is retired exactly when it was, or
      when some running score reached the threshold. */
  lemma {:induction false} FeedbackAddsUp(skill: Skill, deltas: seq<int>)
    ensures RateAll(skill, deltas).score == skill.score + Sum(deltas)
    ensures RateAll(skill, deltas).status == Retired <==>
      skill.status == Retired ||
      exists i :: 0 < i <= |deltas| && skill.score + Sum(deltas[..i]) <= RETIRE_THRESHOLD
  {
    if deltas != [] {
      var n := |deltas| - 1;
      FeedbackAddsUp(skill, deltas[..n]);
      assert forall i :: 0 < i <= n ==> deltas[..n][..i] == deltas[..i];
      assert deltas[..|deltas|] == deltas;
    }
  }

  lemma {:induction false} RetiredStaysRetired(skill: Skill, deltas: seq<int>)
    requires skill.status == Retired
    ensures RateAll(skill, deltas).status == Retired
  {
    FeedbackAddsUp(skill, deltas);
  }

  /** The feedback a row has had in a run since it was stored. */
  function FeedbackOf(es: seq<Event>, id: SkillId): seq<int> {
    if es == [] then []
    else
      var before := FeedbackOf(es[..|es| - 1], id);
      match es[|es| - 1]
      case Rated(i, delta) => if i == id then before + [delta] else before
      case InsertTried(_, i) => if i == id then [] else before
      case _ => before
  }

  function Unrated(skill: Skill): Skill {
    skill.(score := 0, status := Active)
  }

  lemma RateAllSnoc(skill: Skill, deltas: seq<int>, delta: int)
    ensures RateAll(skill, deltas + [delta]) == Rate(RateAll(skill, deltas), delta)
  {
    assert (deltas + [delta])[..|deltas|] == deltas;
  }

  lemma {:induction false} RowIsRated(es: seq<Event>, id: SkillId)
    requires After(Empty, es).Some? && id in After(Empty, es).value.skills
    ensures var row := After(Empty, es).value.skills[id]; row == RateAll(Unrated(row), FeedbackOf(es, id))
  {
    var before, e := es[..|es| - 1], es[|es| - 1];
    var s := After(Empty, before).value;
    if id in s.skills {
      RowIsRated(before, id);
      if e.Rated? && e.id == id { RateAllSnoc(Unrated(s.skills[id]), FeedbackOf(before, id), e.delta); }
    }
  }

  /** After any run a stored skill's score is the sum of the feedback since it was stored, and it is
      retired exactly when some running score reached the threshold. */
  lemma StoredFeedbackAddsUp(es: seq<Event>, id: SkillId)
    requires After(Empty, es).Some? && id in After(Empty, es).value.skills
    ensures var row, deltas := After(Empty, es).value.skills[id], FeedbackOf(es, id);
      && row.score == Sum(deltas)
      && (row.status == Retired <==> exists i :: 0 < i <= |deltas| && Sum(deltas[..i]) <= -3)
  {
    RowIsRated(es, id);
    FeedbackAddsUp(Unrated(After(Empty, es).value.skills[id]), FeedbackOf(es, id));
  }

  /** One verdict rates every skill its run used, as often as it used it. */
  function RateUsed(skills: map<SkillId, Skill>, used: seq<SkillId>, delta: int): (r: map<SkillId, Skill>)
    ensures r.Keys == skills.Keys
  {
    if used == [] then skills
    else
      var n := |used| - 1;
      var before := RateUsed(skills, used[..n], delta);
      if used[n] in before then before[used[n] := Rate(before[used[n]], delta)] else before
  }

  /** A skill after a verdict on a run that used it `n` times: its score is moved by one for each use, and it
      is retired if it was before or its score got down to -3. The rest of the row stays. */
  predicate Judged(before: Skill, after: Skill, n: nat, success: bool) {
    (if success then after.score == before.score + n else after.score == before.score - n) &&
    (after.status == Retired <==>
      before.status == Retired || (n > 0 && (if success then before.score + 1 else before.score - n) <= -3)) &&
    after.domain == before.domain && after.version == before.version && after.content == before.content
  }

  lemma {:induction false} VerdictMovesScores(skills: map<SkillId, Skill>, used: seq<SkillId>, success: bool,
                                              id: SkillId)
    requires id in skills
    ensures Judged(skills[id], RateUsed(skills, used, if success then 1 else -1)[id], multiset(used)[id], success)
  {
    if used != [] {
      var n := |used| - 1;
      VerdictMovesScores(skills, used[..n], success, id);
      assert used == used[..n] + [used[n]];
    }
  }

  // ---------------------------------------------------------------- duplicates

  /** Was this row stored since the call checked? */
  ghost predicate StoredSince(s: State, c: CallId, id: SkillId)
    requires c in s.calls
  {
    exists i :: s.calls[c].begun <= i < |s.log| && s.log[i].id == id
  }

  /** A call checked when no active row had its content: those there are now were stored since. */
  ghost predicate Saw(s: State, c: CallId)
    requires c in s.calls
  {
    forall id :: id in Twins(s.skills, s.calls[c].domain, s.calls[c].content) ==> StoredSince(s, c, id)
  }

  lemma SawStays(s: State, t: State, c: CallId)
    requires c in s.calls && c in t.calls && Saw(s, c) && s.log <= t.log
    requires t.calls[c].domain == s.calls[c].domain && t.calls[c].content == s.calls[c].content
    requires t.calls[c].begun == s.calls[c].begun <= |s.log|
    requires forall id :: id in Twins(t.skills, t.calls[c].domain, t.calls[c].content) ==>
      id in Twins(s.skills, t.calls[c].domain, t.calls[c].content) ||
      exists i :: |s.log| <= i < |t.log| && t.log[i].id == id
    ensures Saw(t, c)
  {
    forall id | id in Twins(t.skills, t.calls[c].domain, t.calls[c].content)
      ensures StoredSince(t, c, id)
    {
      if id in Twins(s.skills, t.calls[c].domain, t.calls[c].content) {
        var i :| s.calls[c].begun <= i < |s.log| && s.log[i].id == id;
        assert t.log[i].id == id;
      }
    }
  }

  lemma NextKeepsSaw(s: State, e: Event, c: CallId)
    requires Safe(s) && Enabled(s, e) && c in Next(s, e).calls && (c in s.calls ==> Saw(s, c))
    ensures Saw(Next(s, e), c)
  {
    var t := Next(s, e);
    if c in s.calls {
      assert CallOk(s, c);
      if |t.log| > |s.log| { assert t.log[|s.log|].id == e.id; }
      SawStays(s, t, c);
    }
  }

  lemma {:induction false} RunsSee(es: seq<Event>, c: CallId)
    requires After(Empty, es).Some? && c in After(Empty, es).value.calls
    ensures Saw(After(Empty, es).value, c)
  {
    var n := |es| - 1;
    var s := After(Empty, es[..n]).value;
    RunsAreSafe(es[..n]);
    if c in s.calls { RunsSee(es[..n], c); }
    NextKeepsSaw(s, es[n], c);
  }

  /** The duplicate check is no constraint: in any run an insert leaves twins exactly when an active row
      of its content was stored since the call checked. */
  lemma InsertMakesTwinsIff(es: seq<Event>, c: CallId, id: SkillId)
    requires After(Empty, es).Some? && Enabled(After(Empty, es).value, InsertTried(c, id))
    requires TryInsert(After(Empty, es).value, c, id).1 == Inserted(id)
    ensures var s := After(Empty, es).value; var t, call := TryInsert(s, c, id).0, s.calls[c];
      |Twins(t.skills, call.domain, call.content)| > 1 <==>
        exists other :: other in Twins(s.skills, call.domain, call.content) && StoredSince(s, c, other)
  {
    var s := After(Empty, es).value;
    var t, call := TryInsert(s, c, id).0, s.calls[c];
    RunsSee(es, c);
    assert Twins(t.skills, call.domain, call.content) == Twins(s.skills, call.domain, call.content) + {id};
    if other :| other in Twins(s.skills, call.domain, call.content) {
      assert StoredSince(s, c, other);
    }
  }

  // ---------------------------------------------------------------- when duplicates can still come

  predicate LastTry(call: Call) {
    call.phase.Inserting? && call.attempt + 1 >= VERSION_RETRIES
  }

  /** The calls past the check for this content that will read the version again if they collide. */
  function Flexible(s: State, domain: Domain, content: string): set<CallId> {
    set c | c in s.calls && s.calls[c].domain == domain && s.calls[c].content == content && !LastTry(s.calls[c])
  }

  /** Those on their last try whose version is still free; of them only one can get it. */
  ghost function Pending(s: State, domain: Domain, content: string): set<CallId> {
    set c | c in s.calls && s.calls[c].domain == domain && s.calls[c].content == content && LastTry(s.calls[c]) &&
            !Holds(s.skills, domain, s.calls[c].phase.version)
  }

  /** The active rows of this content there are, and can still be without another call for it. */
  ghost function Chances(s: State, domain: Domain, content: string): nat {
    |Twins(s.skills, domain, content)| + |Flexible(s, domain, content)| +
      (if Pending(s, domain, content) == {} then 0 else 1)
  }

  predicate BeginsFor(e: Event, domain: Domain, content: string) {
    e.Begun? && e.domain == domain && e.content == content
  }

  lemma {:induction false} SmallerSet<T>(a: set<T>, b: set<T>)
    requires a <= b
    ensures |a| <= |b|
    decreases a
  {
    if a != {} {
      var x :| x in a;
      SmallerSet(a - {x}, b - {x});
    }
  }

  lemma BeginChances(s: State, c: CallId, domain: Domain, content: string)
    requires c !in s.calls && Begin(s, c, domain, content, true).1 == Proceeds
    ensures Chances(Begin(s, c, domain, content, true).0, domain, content) == Chances(s, domain, content) + 1
  {
    var t := Begin(s, c, domain, content, true).0;
    assert Flexible(t, domain, content) == Flexible(s, domain, content) + {c};
    assert Pending(t, domain, content) == Pending(s, domain, content);
  }

  lemma ReadChances(s: State, c: CallId, max: nat, domain: Domain, content: string)
    requires c in s.calls && s.calls[c].phase.Reading?
    ensures Chances(ReadMax(s, c, max), domain, content) <= Chances(s, domain, content)
  {
    var t := ReadMax(s, c, max);
    assert Flexible(t, domain, content) <= Flexible(s, domain, content);
    SmallerSet(Flexible(t, domain, content), Flexible(s, domain, content));
    if c in Flexible(s, domain, content) && c !in Flexible(t, domain, content) {
      assert Flexible(t, domain, content) <= Flexible(s, domain, content) - {c};
      SmallerSet(Flexible(t, domain, content), Flexible(s, domain, content) - {c});
    } else {
      assert Pending(t, domain, content) <= Pending(s, domain, content);
    }
  }

  lemma CollisionChances(s: State, c: CallId, id: SkillId, domain: Domain, content: string)
    requires Enabled(s, InsertTried(c, id)) && Holds(s.skills, s.calls[c].domain, s.calls[c].phase.version)
    ensures Chances(TryInsert(s, c, id).0, domain, content) == Chances(s, domain, content)
  {
    var t := TryInsert(s, c, id).0;
    assert Flexible(t, domain, content) == Flexible(s, domain, content);
    assert Pending(t, domain, content) == Pending(s, domain, content);
  }

  lemma {:induction false} NoneLeftPending(s: State, c: CallId, id: SkillId)
    requires Safe(s) && Enabled(s, InsertTried(c, id))
    requires !Holds(s.skills, s.calls[c].domain, s.calls[c].phase.version)
    ensures Pending(TryInsert(s, c, id).0, s.calls[c].domain, s.calls[c].content) == {}
  {
    var t, call := TryInsert(s, c, id).0, s.calls[c];
    assert CallOk(s, c);
    assert t.skills[id].domain == call.domain && t.skills[id].version == call.phase.version;
    forall k | k in t.calls && t.calls[k].domain == call.domain && LastTry(t.calls[k])
      ensures Holds(t.skills, call.domain, t.calls[k].phase.version)
    {
      assert CallOk(s, k);
      if t.calls[k].phase.version != call.phase.version {
        assert Holds(s.skills, call.domain, t.calls[k].phase.version);
        HoldsStays(s.skills, id, t.skills[id], call.domain, t.calls[k].phase.version);
      }
    }
  }

  lemma HoldsStays(skills: map<SkillId, Skill>, id: SkillId, row: Skill, domain: Domain, version: nat)
    requires id !in skills && Holds(skills, domain, version)
    ensures Holds(skills[id := row], domain, version)
  {
    var a :| a in skills && skills[a].domain == domain && skills[a].version == version;
    assert skills[id := row][a] == skills[a];
  }

  lemma OwnInsertSets(s: State, c: CallId, id: SkillId)
    requires Enabled(s, InsertTried(c, id)) && !Holds(s.skills, s.calls[c].domain, s.calls[c].phase.version)
    ensures var t, call := TryInsert(s, c, id).0, s.calls[c];
      && Twins(t.skills, call.domain, call.content) == Twins(s.skills, call.domain, call.content) + {id}
      && id !in Twins(s.skills, call.domain, call.content)
      && Flexible(t, call.domain, call.content) == Flexible(s, call.domain, call.content) - {c}
      && (c in Flexible(s, call.domain, call.content) <==> !LastTry(call))
      && (c in Pending(s, call.domain, call.content) <==> LastTry(call))
  {
  }

  lemma OwnInsertChances(s: State, c: CallId, id: SkillId)
    requires Safe(s) && Enabled(s, InsertTried(c, id))
    requires !Holds(s.skills, s.calls[c].domain, s.calls[c].phase.version)
    ensures var call := s.calls[c];
      Chances(TryInsert(s, c, id).0, call.domain, call.content) <= Chances(s, call.domain, call.content)
  {
    NoneLeftPending(s, c, id);
    OwnInsertSets(s, c, id);
  }

  lemma OtherInsertChances(s: State, c: CallId, id: SkillId, domain: Domain, content: string)
    requires Safe(s) && Enabled(s, InsertTried(c, id))
    requires !Holds(s.skills, s.calls[c].domain, s.calls[c].phase.version)
    requires s.calls[c].domain != domain || s.calls[c].content != content
    ensures Chances(TryInsert(s, c, id).0, domain, content) <= Chances(s, domain, content)
  {
    var t := TryInsert(s, c, id).0;
    assert Twins(t.skills, domain, content) == Twins(s.skills, domain, content);
    assert Flexible(t, domain, content) == Flexible(s, domain, content);
    forall k | k in Pending(t, domain, content)
      ensures k in Pending(s, domain, content)
    {
      if Holds(s.skills, domain, s.calls[k].phase.version) {
        HoldsStays(s.skills, id, t.skills[id], domain, s.calls[k].phase.version);
      }
    }
  }

  lemma RateChances(s: State, id: SkillId, delta: int, domain: Domain, content: string)
    ensures Chances(AddFeedback(s, id, delta), domain, content) <= Chances(s, domain, content)
  {
    var t := AddFeedback(s, id, delta);
    assert Twins(t.skills, domain, content) <= Twins(s.skills, domain, content);
    SmallerSet(Twins(t.skills, domain, content), Twins(s.skills, domain, content));
    assert Flexible(t, domain, content) == Flexible(s, domain, content);
    forall k | k in Pending(t, domain, content)
      ensures k in Pending(s, domain, content)
    {
      if Holds(s.skills, domain, s.calls[k].phase.version) {
        var a :| a in s.skills && s.skills[a].domain == domain && s.skills[a].version == s.calls[k].phase.version;
        assert t.skills[a].version == s.skills[a].version && t.skills[a].domain == domain;
      }
    }
  }

  lemma OtherBeginChances(s: State, e: Event, domain: Domain, content: string)
    requires Enabled(s, e) && e.Begun? && !BeginsFor(e, domain, content)
    ensures Chances(Next(s, e), domain, content) == Chances(s, domain, content)
  {
    assert Flexible(Next(s, e), domain, content) == Flexible(s, domain, content);
    assert Pending(Next(s, e), domain, content) == Pending(s, domain, content);
  }

  /** Only beginning another call for the content raises its chances. */
  lemma NextChances(s: State, e: Event, domain: Domain, content: string)
    requires Safe(s) && Enabled(s, e) && !BeginsFor(e, domain, content)
    ensures Chances(Next(s, e), domain, content) <= Chances(s, domain, content)
  {
    match e
    case Begun(_, _, _, _) => OtherBeginChances(s, e, domain, content);
    case MaxRead(c, max) => ReadChances(s, c, max, domain, content);
    case Rated(id, delta) => RateChances(s, id, delta, domain, content);
    case InsertTried(c, id) =>
      if Holds(s.skills, s.calls[c].domain, s.calls[c].phase.version) { CollisionChances(s, c, id, domain, content); }
      else if s.calls[c].domain == domain && s.calls[c].content == content { OwnInsertChances(s, c, id); }
      else { OtherInsertChances(s, c, id, domain, content); }
  }

  lemma {:induction false} RunKeepsSafe(s: State, es: seq<Event>)
    requires Safe(s) && After(s, es).Some?
    ensures Safe(After(s, es).value)
  {
    if es != [] {
      RunKeepsSafe(s, es[..|es| - 1]);
      NextIsSafe(After(s, es[..|es| - 1]).value, es[|es| - 1]);
    }
  }

  lemma {:induction false} RunChances(s: State, es: seq<Event>, domain: Domain, content: string)
    requires Safe(s) && After(s, es).Some? && forall e :: e in es ==> !BeginsFor(e, domain, content)
    ensures Chances(After(s, es).value, domain, content) <= Chances(s, domain, content)
  {
    if es != [] {
      var before := es[..|es| - 1];
      RunChances(s, before, domain, content);
      RunKeepsSafe(s, before);
      assert es[|es| - 1] in es;
      NextChances(After(s, before).value, es[|es| - 1], domain, content);
    }
  }

  // ---------------------------------------------------------------- every chance can be taken

  lemma {:induction false} FreshId(ids: set<SkillId>) returns (id: SkillId)
    ensures id !in ids && forall k :: k in ids ==> k < id
    decreases ids
  {
    if ids == {} {
      id := 0;
    } else {
      var x :| x in ids;
      var y := FreshId(ids - {x});
      assert forall k :: k in ids ==> k == x || k in ids - {x};
      id := if x < y then y else x + 1;
    }
  }

  /** What a call leaves behind when it gets its row in. */
  ghost predicate GotIn(s: State, es: seq<Event>, c: CallId, id: SkillId)
    requires c in s.calls
  {
    After(s, es).Some? && (forall e :: e in es ==> !e.Begun?) && id !in s.skills &&
    var t := After(s, es).value;
    id in t.skills && t.skills - {id} == s.skills && t.calls == s.calls - {c} &&
    t.skills[id].domain == s.calls[c].domain && t.skills[id].content == s.calls[c].content &&
    t.skills[id].status == Active
  }

  lemma InsertGetsIn(s: State, c: CallId) returns (es: seq<Event>, id: SkillId)
    requires c in s.calls && s.calls[c].phase.Inserting?
    requires !Holds(s.skills, s.calls[c].domain, s.calls[c].phase.version)
    ensures GotIn(s, es, c, id)
  {
    id := FreshId(s.skills.Keys);
    es := [InsertTried(c, id)];
    AfterOne(s, InsertTried(c, id));
    var t := TryInsert(s, c, id).0;
    assert t.skills - {id} == s.skills;
  }

  lemma AfterOne(s: State, e: Event)
    requires Enabled(s, e)
    ensures After(s, [e]) == Some(Next(s, e))
  {
    assert [e][..0] == [];
    assert After(s, []) == Some(s);
  }

  lemma {:induction false} AfterConcat(s: State, es: seq<Event>, more: seq<Event>)
    requires After(s, es).Some?
    ensures After(s, es + more) == After(After(s, es).value, more)
  {
    if more == [] {
      assert es + more == es;
    } else {
      var n := |more| - 1;
      AfterConcat(s, es, more[..n]);
      assert (es + more)[..|es + more| - 1] == es + more[..n];
    }
  }

  /** A step that moves only the call `c` before it gets in. */
  lemma ThenGetsIn(s: State, e: Event, c: CallId, more: seq<Event>, id: SkillId)
    requires Enabled(s, e) && !e.Begun? && c in s.calls && c in Next(s, e).calls && Next(s, e).skills == s.skills
    requires Next(s, e).calls - {c} == s.calls - {c} && GotIn(Next(s, e), more, c, id)
    requires Next(s, e).calls[c].domain == s.calls[c].domain && Next(s, e).calls[c].content == s.calls[c].content
    ensures GotIn(s, [e] + more, c, id)
  {
    AfterOne(s, e);
    AfterConcat(s, [e], more);
  }

  lemma ReadGetsIn(s: State, c: CallId) returns (es: seq<Event>, id: SkillId)
    requires Safe(s) && c in s.calls && s.calls[c].phase.Reading?
    ensures GotIn(s, es, c, id)
  {
    var domain := s.calls[c].domain;
    var max := Count(s.log, domain);
    if max > 0 { assert Holds(s.skills, domain, max); }
    assert IsMaxVersion(s.skills, domain, max);
    var e := MaxRead(c, max);
    assert !Holds(s.skills, domain, max + 1);
    var more;
    more, id := InsertGetsIn(Next(s, e), c);
    ThenGetsIn(s, e, c, more, id);
    es := [e] + more;
  }

  lemma FlexibleGetsIn(s: State, c: CallId) returns (es: seq<Event>, id: SkillId)
    requires Safe(s) && c in s.calls && !LastTry(s.calls[c])
    ensures GotIn(s, es, c, id)
  {
    if s.calls[c].phase.Reading? {
      es, id := ReadGetsIn(s, c);
    } else if !Holds(s.skills, s.calls[c].domain, s.calls[c].phase.version) {
      es, id := InsertGetsIn(s, c);
    } else {
      var unused := FreshId(s.skills.Keys);
      var e := InsertTried(c, unused);
      NextIsSafe(s, e);
      var more;
      more, id := ReadGetsIn(Next(s, e), c);
      ThenGetsIn(s, e, c, more, id);
      es := [e] + more;
    }
  }

  /** One more active row, one call less, and all other calls as they were. */
  lemma GotInCounts(s: State, es: seq<Event>, c: CallId, id: SkillId)
    requires c in s.calls && GotIn(s, es, c, id)
    ensures var t, domain, content := After(s, es).value, s.calls[c].domain, s.calls[c].content;
      && |Twins(t.skills, domain, content)| == |Twins(s.skills, domain, content)| + 1
      && |Flexible(t, domain, content)| >= |Flexible(s, domain, content)| - (if LastTry(s.calls[c]) then 0 else 1)
  {
    var t, domain, content := After(s, es).value, s.calls[c].domain, s.calls[c].content;
    assert forall k :: k in s.skills ==> k in t.skills - {id} && t.skills[k] == (t.skills - {id})[k] == s.skills[k];
    assert Twins(t.skills, domain, content) == Twins(s.skills, domain, content) + {id};
    assert Flexible(t, domain, content) == Flexible(s, domain, content) - {c};
  }

  ghost predicate TwinsAfter(s: State, es: seq<Event>, domain: Domain, content: string) {
    After(s, es).Some? && (forall e :: e in es ==> !BeginsFor(e, domain, content)) &&
    |Twins(After(s, es).value.skills, domain, content)| > 1
  }

  lemma {:induction false} ChancesAreTaken(s: State, domain: Domain, content: string) returns (es: seq<Event>)
    requires Safe(s) && Chances(s, domain, content) > 1
    ensures TwinsAfter(s, es, domain, content)
    decreases 2 - |Twins(s.skills, domain, content)|
  {
    if |Twins(s.skills, domain, content)| > 1 {
      es := [];
    } else {
      var first, id, c;
      if Pending(s, domain, content) != {} {
        c :| c in Pending(s, domain, content);
        first, id := InsertGetsIn(s, c);
      } else {
        assert Flexible(s, domain, content) != {};
        c :| c in Flexible(s, domain, content);
        first, id := FlexibleGetsIn(s, c);
      }
      GotInCounts(s, first, c, id);
      RunKeepsSafe(s, first);
      var more := ChancesAreTaken(After(s, first).value, domain, content);
      AfterConcat(s, first, more);
      es := first + more;
    }
  }

  /** From a reachable state, without another call for the content, twins of it can come about exactly
      when the active rows and the calls that can still insert are at least two. */
  lemma TwinsReachableIff(s: State, domain: Domain, content: string)
    requires Safe(s)
    ensures (exists es :: TwinsAfter(s, es, domain, content)) <==> Chances(s, domain, content) > 1
  {
    if Chances(s, domain, content) > 1 {
      var es := ChancesAreTaken(s, domain, content);
    }
    if es :| TwinsAfter(s, es, domain, content) {
      RunChances(s, es, domain, content);
    }
  }

  /** No call past the check for this content can still insert. */
  ghost predicate NoneCanInsert(s: State, domain: Domain, content: string) {
    Flexible(s, domain, content) == {} && Pending(s, domain, content) == {}
  }

  /** A call that passes the check makes twins possible exactly when another call for the content can
      still insert. */
  lemma BeginningAllowsTwinsIff(s: State, c: CallId, domain: Domain, content: string)
    requires Safe(s) && c !in s.calls && Begin(s, c, domain, content, true).1 == Proceeds
    ensures (exists es :: TwinsAfter(Begin(s, c, domain, content, true).0, es, domain, content)) <==>
      !NoneCanInsert(s, domain, content)
  {
    NextIsSafe(s, Begun(c, domain, content, true));
    BeginChances(s, c, domain, content);
    TwinsReachableIff(Begin(s, c, domain, content, true).0, domain, content);
  }

  /** Every call for the content that passed the check did so when no other could still insert. */
  ghost predicate OneAtATime(es: seq<Event>, domain: Domain, content: string)
    requires After(Empty, es).Some?
  {
    es == [] ||
    (var before, e := es[..|es| - 1], es[|es| - 1];
     OneAtATime(before, domain, content) &&
     (BeginsFor(e, domain, content) ==>
        NoneCanInsert(After(Empty, before).value, domain, content) ||
        Next(After(Empty, before).value, e) == After(Empty, before).value))
  }

  /** So in a run in which calls for a content do not overlap, it is never stored twice. */
  lemma {:induction false} NoOverlapNoTwins(es: seq<Event>, domain: Domain, content: string)
    requires After(Empty, es).Some? && OneAtATime(es, domain, content)
    ensures Chances(After(Empty, es).value, domain, content) <= 1
    ensures |Twins(After(Empty, es).value.skills, domain, content)| <= 1
  {
    if es == [] {
      assert Twins(map[], domain, content) == {} && Flexible(Empty, domain, content) == {} &&
        Pending(Empty, domain, content) == {};
    } else {
      var before, e := es[..|es| - 1], es[|es| - 1];
      var s := After(Empty, before).value;
      NoOverlapNoTwins(before, domain, content);
      RunsAreSafe(before);
      if !BeginsFor(e, domain, content) {
        NextChances(s, e, domain, content);
      } else if Next(s, e) != s {
        BeginChances(s, e.c, domain, content);
      }
    }
  }

  function FirstOfTwins(domain: Domain, content: string): seq<Event> {
    [Begun(1, domain, content, true), Begun(2, domain, content, true), MaxRead(1, 0), InsertTried(1, 11)]
  }

  function TwinRun(domain: Domain, content: string): seq<Event> {
    FirstOfTwins(domain, content) + [MaxRead(2, 1)] + [InsertTried(2, 12)]
  }

  lemma AfterSnoc(es: seq<Event>, s: State, e: Event)
    requires After(Empty, es) == Some(s) && Enabled(s, e)
    ensures After(Empty, es + [e]) == Some(Next(s, e))
  {
    assert (es + [e])[..|es|] == es;
  }

  lemma FirstIsStored(domain: Domain, content: string)
    ensures After(Empty, FirstOfTwins(domain, content)) ==
      Some(State(map[11 := Skill(domain, 1, content, 0, Active)], map[2 := Call(domain, content, 0, Reading, 0)],
                 [Stored(1, domain, 1, 11)]))
  {
    var waiting := Call(domain, content, 0, Reading, 0);
    var es := [Begun(1, domain, content, true)];
    var s := Empty.(calls := map[1 := waiting]);
    assert Twins(map[], domain, content) == {};
    assert [] + es == es;
    AfterSnoc([], Empty, es[0]);
    assert After(Empty, es) == Some(s);
    AfterSnoc(es, s, Begun(2, domain, content, true));
    AfterSnoc(es + [Begun(2, domain, content, true)], s.(calls := map[1 := waiting, 2 := waiting]), MaxRead(1, 0));
    FirstCommits(domain, content, waiting);
    assert map[1 := waiting, 2 := waiting][1 := waiting.(phase := Inserting(1))]
           == map[1 := waiting.(phase := Inserting(1)), 2 := waiting];
    AfterSnoc(es + [Begun(2, domain, content, true)] + [MaxRead(1, 0)],
              s.(calls := map[1 := waiting.(phase := Inserting(1)), 2 := waiting]), InsertTried(1, 11));
    assert es + [Begun(2, domain, content, true)] + [MaxRead(1, 0)] + [InsertTried(1, 11)] ==
      FirstOfTwins(domain, content);
  }

  lemma FirstCommits(domain: Domain, content: string, waiting: Call)
    requires waiting == Call(domain, content, 0, Reading, 0)
    ensures var s := State(map[], map[1 := waiting.(phase := Inserting(1)), 2 := waiting], []);
      Next(s, InsertTried(1, 11)) ==
        State(map[11 := Skill(domain, 1, content, 0, Active)], map[2 := waiting], [Stored(1, domain, 1, 11)])
  {
    var calls := map[1 := waiting.(phase := Inserting(1)), 2 := waiting];
    assert calls - {1} == map[2 := waiting];
  }

  /** Two overlapping calls store the same content twice; after that, the check itself fails. */
  lemma OverlappingCallsMakeTwins(domain: Domain, content: string, c: CallId)
    ensures After(Empty, TwinRun(domain, content)).Some?
    ensures Begin(After(Empty, TwinRun(domain, content)).value, c, domain, content, true).1 == ManyDuplicates
  {
    FirstIsStored(domain, content);
    var es := FirstOfTwins(domain, content);
    var s := After(Empty, es).value;
    assert s.skills[11].version == 1;
    AfterSnoc(es, s, MaxRead(2, 1));
    AfterSnoc(es + [MaxRead(2, 1)], After(Empty, es + [MaxRead(2, 1)]).value, InsertTried(2, 12));
    var t := After(Empty, TwinRun(domain, content)).value;
    assert Twins(t.skills, domain, content) == {11, 12};
    assert |Twins(t.skills, domain, content)| == |{11, 12}| == 2;
  }

  /** That failure lasts until feedback retires one of the two: then the other is the duplicate. */
  lemma RetiringATwinEndsIt(s: State, domain: Domain, content: string, a: SkillId, b: SkillId, delta: int, c: CallId)
    requires Twins(s.skills, domain, content) == {a, b} && a != b && s.skills[a].score + delta <= RETIRE_THRESHOLD
    ensures Begin(s, c, domain, content, true).1 == ManyDuplicates
    ensures Begin(AddFeedback(s, a, delta), c, domain, content, true).1 == Duplicate(b)
  {
    assert a in Twins(s.skills, domain, content);
    assert {a, b} - {a} == {b};
    assert Twins(AddFeedback(s, a, delta).skills, domain, content) == {b};
  }

  // ---------------------------------------------------------------- loading

  predicate Before(a: Skill, b: Skill) {
    a.score > b.score || (a.score == b.score && a.version > b.version)
  }

  function Candidates(skills: map<SkillId, Skill>, domain: Domain): set<SkillId> {
    set id | id in skills && skills[id].domain == domain && skills[id].status == Active
  }

  /** What `load_skills` answers: the active skills of the domain in order, cut after `limit`. */
  ghost predicate IsTop(skills: map<SkillId, Skill>, from: set<SkillId>, limit: nat, top: seq<SkillId>) {
    from <= skills.Keys && |top| <= limit &&
    (forall i :: 0 <= i < |top| ==> top[i] in from) &&
    (forall i, j :: 0 <= i < j < |top| ==> Before(skills[top[i]], skills[top[j]])) &&
    (forall id, i :: id in from && id !in top && 0 <= i < |top| ==> Before(skills[top[i]], skills[id])) &&
    (|top| < limit ==> forall id :: id in from ==> id in top)
  }

  ghost predicate TellApart(skills: map<SkillId, Skill>, from: set<SkillId>) {
    from <= skills.Keys && forall a, b :: a in from && b in from && a != b ==> skills[a].version != skills[b].version
  }

  lemma {:induction false} BestExists(skills: map<SkillId, Skill>, from: set<SkillId>) returns (best: SkillId)
    requires TellApart(skills, from) && from != {}
    ensures best in from && forall id :: id in from && id != best ==> Before(skills[best], skills[id])
    decreases from
  {
    var x :| x in from;
    best := x;
    if from != {x} {
      assert from - {x} != {};
      var y := BestExists(skills, from - {x});
      if !Before(skills[x], skills[y]) { best := y; }
    }
  }

  /** The answer exists and is unique, since versions within a domain differ. */
  lemma {:induction false} TopExists(skills: map<SkillId, Skill>, from: set<SkillId>, limit: nat)
    returns (top: seq<SkillId>)
    requires TellApart(skills, from)
    ensures IsTop(skills, from, limit, top)
    decreases limit
  {
    if limit == 0 || from == {} {
      top := [];
    } else {
      var best := BestExists(skills, from);
      var rest := TopExists(skills, from - {best}, limit - 1);
      top := [best] + rest;
      assert forall id :: id in top <==> id == best || id in rest;
    }
  }

  lemma SameFirst(skills: map<SkillId, Skill>, from: set<SkillId>, limit: nat, a: seq<SkillId>, b: seq<SkillId>)
    requires IsTop(skills, from, limit, a) && IsTop(skills, from, limit, b) && a != [] && b != []
    ensures a[0] == b[0]
  {
    assert a[0] in from && b[0] in from;
    FirstIsBest(skills, from, limit, a, b[0]);
    FirstIsBest(skills, from, limit, b, a[0]);
  }

  lemma FirstIsBest(skills: map<SkillId, Skill>, from: set<SkillId>, limit: nat, top: seq<SkillId>, id: SkillId)
    requires IsTop(skills, from, limit, top) && top != [] && id in from
    ensures id == top[0] || Before(skills[top[0]], skills[id])
  {
    if id in top {
      var i :| 0 <= i < |top| && top[i] == id;
    }
  }

  lemma {:induction false} TopIsUnique(skills: map<SkillId, Skill>, from: set<SkillId>, limit: nat,
                                       a: seq<SkillId>, b: seq<SkillId>)
    requires IsTop(skills, from, limit, a) && IsTop(skills, from, limit, b)
    ensures a == b
    decreases limit
  {
    assert (a == [] || a[0] in from) && (b == [] || b[0] in from);
    if a != [] && b != [] {
      SameFirst(skills, from, limit, a, b);
      RestIsTop(skills, from, limit, a);
      RestIsTop(skills, from, limit, b);
      TopIsUnique(skills, from - {a[0]}, limit - 1, a[1..], b[1..]);
      assert a == [a[0]] + a[1..] && b == [b[0]] + b[1..];
    }
  }

  lemma RestIsTop(skills: map<SkillId, Skill>, from: set<SkillId>, limit: nat, top: seq<SkillId>)
    requires IsTop(skills, from, limit, top) && top != []
    ensures IsTop(skills, from - {top[0]}, limit - 1, top[1..])
  {
    var rest := top[1..];
    assert forall i :: 0 <= i < |rest| ==> rest[i] == top[i + 1];
    forall id | id in top && id != top[0]
      ensures id in rest
    {
      var i :| 0 <= i < |top| && top[i] == id;
      assert rest[i - 1] == id;
    }
  }

  /** In every reachable state, `load_skills` has exactly one answer. */
  lemma LoadIsDetermined(es: seq<Event>, domain: Domain, limit: nat, a: seq<SkillId>, b: seq<SkillId>)
    requires After(Empty, es).Some?
    ensures var s := After(Empty, es).value; var from := Candidates(s.skills, domain);
      && (exists top :: IsTop(s.skills, from, limit, top))
      && (IsTop(s.skills, from, limit, a) && IsTop(s.skills, from, limit, b) ==> a == b)
  {
    RunsAreSafe(es);
    var s := After(Empty, es).value;
    var top := TopExists(s.skills, Candidates(s.skills, domain), limit);
    var from := Candidates(s.skills, domain);
    if IsTop(s.skills, from, limit, a) && IsTop(s.skills, from, limit, b) {
      TopIsUnique(s.skills, from, limit, a, b);
    }
  }

  /** What the answer holds: active skills of the domain, the highest scores first and of equal scores the latest
      versions, and an active skill is left out only when the limit is reached by better ones. */
  lemma AnswerIsTheBest(skills: map<SkillId, Skill>, domain: Domain, limit: nat, top: seq<SkillId>)
    requires IsTop(skills, Candidates(skills, domain), limit, top)
    ensures |top| <= limit && forall id :: id in top ==> id in skills && skills[id].domain == domain
    ensures forall id :: id in top ==> skills[id].status == Active
    ensures forall i, j :: 0 <= i < j < |top| ==>
      skills[top[i]].score >= skills[top[j]].score &&
      (skills[top[i]].score == skills[top[j]].score ==> skills[top[i]].version > skills[top[j]].version)
    ensures forall id :: id in skills && skills[id].domain == domain && skills[id].status == Active && id !in top ==>
      |top| == limit && forall i :: 0 <= i < |top| ==>
        skills[top[i]].score >= skills[id].score &&
        (skills[top[i]].score == skills[id].score ==> skills[top[i]].version > skills[id].version)
  {
    forall id | id in top
      ensures id in Candidates(skills, domain)
    {
      var i :| 0 <= i < |top| && top[i] == id;
    }
    forall i, j | 0 <= i < j < |top|
      ensures skills[top[i]].score >= skills[top[j]].score
      ensures skills[top[i]].score == skills[top[j]].score ==> skills[top[i]].version > skills[top[j]].version
    {
      assert Before(skills[top[i]], skills[top[j]]);
    }
    forall id | id in Candidates(skills, domain) && id !in top
      ensures forall i :: 0 <= i < |top| ==> Before(skills[top[i]], skills[id])
    {
    }
  }

  // ---------------------------------------------------------------- the registry itself

  /** The table an attempt reads: at first the call's own, then the one the attempt before it met. */
  function Met(skills: map<SkillId, Skill>, tables: seq<map<SkillId, Skill>>, k: nat): map<SkillId, Skill>
    requires k <= |tables|
  {
    if k == 0 then skills else tables[k - 1]
  }

  /** Each attempt reads one more than the largest version it finds, and all but the last meet a row with
      theirs. */
  ghost predicate ReadVersions(skills: map<SkillId, Skill>, tables: seq<map<SkillId, Skill>>, domain: Domain,
                               tried: seq<nat>)
    requires |tried| <= |tables|
  {
    tried == [] ||
    (var n := |tried| - 1;
     ReadVersions(skills, tables, domain, tried[..n]) &&
     tried[n] > 0 && IsMaxVersion(Met(skills, tables, n), domain, tried[n] - 1) &&
     (n > 0 ==> Holds(tables[n - 1], domain, tried[n - 1])))
  }

  /** How the call ends, or goes on, after the attempts that read `tried`. */
  ghost predicate Ends(tables: seq<map<SkillId, Skill>>, domain: Domain, content: string, id: SkillId, tried: seq<nat>,
                       r: Outcome, skills: map<SkillId, Skill>)
    requires 0 < |tried| <= |tables|
  {
    var n := |tried| - 1;
    if Holds(tables[n], domain, tried[n]) then
      skills == tables[n] && r == if n + 1 < VERSION_RETRIES then Proceeds else RaceExhausted
    else
      r == Inserted(id) && skills == tables[n][id := Skill(domain, tried[n], content, 0, Active)]
  }

  class Registry {
    var skills: map<SkillId, Skill>
    ghost var calls: map<CallId, Call>
    ghost var log: seq<Fact>

    ghost function Snapshot(): State
      reads this
    {
      State(skills, calls, log)
    }

    constructor ()
      ensures Snapshot() == Empty
    {
      skills, calls, log := map[], map[], [];
    }

    /** The duplicate check of the call `c`. */
    method CheckContent(c: CallId, domain: Domain, content: string, clean: bool) returns (r: Outcome)
      modifies this`calls
      ensures (Snapshot(), r) == Begin(old(Snapshot()), c, domain, content, clean)
    {
      if !clean {
        return Rejected;
      }
      var twins := Twins(skills, domain, content);
      if |twins| > 1 {
        return ManyDuplicates;
      }
      if twins != {} {
        var id :| id in twins;
        assert |twins - {id}| == 0;
        return Duplicate(id);
      }
      calls := calls[c := Call(domain, content, 0, Reading, |log|)];
      r := Proceeds;
    }

    method SelectMaxVersion(domain: Domain) returns (max: nat)
      ensures IsMaxVersion(skills, domain, max)
    {
      max := 0;
      var rows := skills.Keys;
      while rows != {}
        invariant rows <= skills.Keys
        invariant forall id :: id in skills && id !in rows && skills[id].domain == domain ==> skills[id].version <= max
        invariant max == 0 || Holds(skills, domain, max)
        decreases rows
      {
        var id :| id in rows;
        if skills[id].domain == domain && skills[id].version > max {
          max := skills[id].version;
        }
        rows := rows - {id};
      }
    }

    method ReadVersion(c: CallId, domain: Domain) returns (version: nat)
      requires c in calls && calls[c].phase.Reading? && calls[c].domain == domain
      modifies this`calls
      ensures version >= 1 && IsMaxVersion(skills, domain, version - 1)
      ensures Snapshot() == ReadMax(old(Snapshot()), c, version - 1)
    {
      var max := SelectMaxVersion(domain);
      version := max + 1;
      calls := calls[c := calls[c].(phase := Inserting(version))];
    }

    /** The insert and its commit; an integrity error rolls back. */
    method CommitVersion(c: CallId, domain: Domain, version: nat, content: string, attempt: nat, id: SkillId)
      returns (r: Outcome)
      requires c in calls && calls[c] == Call(domain, content, attempt, Inserting(version), calls[c].begun)
      modifies this
      ensures (Snapshot(), r) == TryInsert(old(Snapshot()), c, id)
    {
      if Holds(skills, domain, version) {
        if attempt + 1 >= VERSION_RETRIES {
          calls := calls - {c};
          return RaceExhausted;
        }
        calls := calls[c := calls[c].(attempt := attempt + 1, phase := Reading)];
        return Proceeds;
      }
      skills := skills[id := Skill(domain, version, content, 0, Active)];
      calls := calls - {c};
      log := log + [Stored(c, domain, version, id)];
      r := Inserted(id);
    }

    /** One attempt: the read, what others do meanwhile, and the insert. */
    method Attempt(c: CallId, domain: Domain, content: string, attempt: nat, id: SkillId, table: map<SkillId, Skill>)
      returns (r: Outcome, version: nat)
      requires c in calls && calls[c] == Call(domain, content, attempt, Reading, calls[c].begun) && id !in table
      requires attempt < VERSION_RETRIES
      modifies this
      ensures version > 0 && IsMaxVersion(old(skills), domain, version - 1)
      ensures Holds(table, domain, version) ==> skills == table
      ensures Holds(table, domain, version) ==> r == if attempt + 1 < VERSION_RETRIES then Proceeds else RaceExhausted
      ensures !Holds(table, domain, version) ==> r == Inserted(id)
      ensures !Holds(table, domain, version) ==> skills == table[id := Skill(domain, version, content, 0, Active)]
      ensures r == Proceeds ==> c in calls && calls[c] == Call(domain, content, attempt + 1, Reading, calls[c].begun)
    {
      version := ReadVersion(c, domain);
      skills := table;
      r := CommitVersion(c, domain, version, content, attempt, id);
    }

    /** The attempts of a call that passed the check. */
    method InsertWithRetries(c: CallId, domain: Domain, content: string, id: SkillId, tables: seq<map<SkillId, Skill>>)
      returns (r: Outcome, tried: seq<nat>)
      requires |tables| == VERSION_RETRIES && forall k :: 0 <= k < |tables| ==> id !in tables[k]
      requires c in calls && calls[c] == Call(domain, content, 0, Reading, calls[c].begun)
      modifies this
      ensures 0 < |tried| <= VERSION_RETRIES && ReadVersions(old(skills), tables, domain, tried)
      ensures r != Proceeds && Ends(tables, domain, content, id, tried, r, skills)
    {
      tried, r := [], Proceeds;
      while r == Proceeds
        invariant |tried| <= VERSION_RETRIES && ReadVersions(old(skills), tables, domain, tried)
        invariant tried != [] ==> Ends(tables, domain, content, id, tried, r, skills)
        invariant tried == [] ==> r == Proceeds && skills == old(skills)
        invariant r == Proceeds ==> |tried| < VERSION_RETRIES && c in calls
        invariant r == Proceeds ==> calls[c] == Call(domain, content, |tried|, Reading, calls[c].begun)
        decreases VERSION_RETRIES - |tried|
      {
        ghost var before := tried;
        var version;
        r, version := Attempt(c, domain, content, |tried|, id, tables[|tried|]);
        tried := tried + [version];
        assert tried[..|tried| - 1] == before;
      }
    }

    /** The whole call. Between an attempt's read and its insert other calls may change the table, to
        `tables[k]` in attempt `k`; `tried` are the versions the attempts read. */
    method RecordSkill(c: CallId, domain: Domain, content: string, clean: bool, id: SkillId,
                       tables: seq<map<SkillId, Skill>>)
      returns (r: Outcome, tried: seq<nat>)
      requires c !in calls && |tables| == VERSION_RETRIES && forall k :: 0 <= k < |tables| ==> id !in tables[k]
      modifies this
      ensures r == Rejected <==> !clean
      ensures r.Duplicate? || r == ManyDuplicates <==>
        clean && exists k :: IsActiveCopy(old(skills), domain, content, k)
      ensures r.Duplicate? ==> IsActiveCopy(old(skills), domain, content, r.id)
      ensures clean && Twins(old(skills), domain, content) != {} ==>
        (r == ManyDuplicates <==> |Twins(old(skills), domain, content)| > 1) &&
        (r.Duplicate? <==> |Twins(old(skills), domain, content)| == 1)
      ensures !clean || Twins(old(skills), domain, content) != {} ==> skills == old(skills) && tried == []
      ensures clean && Twins(old(skills), domain, content) == {} ==>
        0 < |tried| <= VERSION_RETRIES && ReadVersions(old(skills), tables, domain, tried) &&
        r != Proceeds && Ends(tables, domain, content, id, tried, r, skills)
    {
      tried := [];
      TwinsAreCopies(skills, domain, content);
      r := CheckContent(c, domain, content, clean);
      if r == Proceeds {
        r, tried := InsertWithRetries(c, domain, content, id, tables);
      }
    }

    method RateSkill(id: SkillId, delta: int)
      modifies this`skills
      ensures Snapshot() == AddFeedback(old(Snapshot()), id, delta)
    {
      if id !in skills {
        return;
      }
      var skill := skills[id];
      skill := skill.(score := skill.score + delta);
      if skill.score <= RETIRE_THRESHOLD {
        skill := skill.(status := Retired);
      }
      skills := skills[id := skill];
    }

    method ScoreFromVerdict(used: seq<SkillId>, success: bool)
      modifies this`skills
      ensures skills == RateUsed(old(skills), used, if success then 1 else -1)
      ensures forall id :: id in old(skills) ==> Judged(old(skills)[id], skills[id], multiset(used)[id], success)
    {
      var delta := if success then 1 else -1;
      for k := 0 to |used|
        invariant skills == RateUsed(old(skills), used[..k], delta)
      {
        assert used[..k + 1][..k] == used[..k];
        RateSkill(used[k], delta);
      }
      assert used[..|used|] == used;
      forall id | id in old(skills)
        ensures Judged(old(skills)[id], skills[id], multiset(used)[id], success)
      {
        VerdictMovesScores(old(skills), used, success, id);
      }
    }
  }
}
