/** The fixed-window rate limiter: counters that expire, held against the log of all checks. */
module RateLimiter {
  import opened Wrappers

  type Key = string
  type Time = nat

  /** A counter's name: the key and the number of the window it counts. */
  type Slot = (Key, nat)

  datatype Counter = Counter(count: nat, expiresAt: Option<Time>)
  datatype Entry = Entry(key: Key, at: Time, limit: nat, admitted: bool)
  datatype State = State(counters: map<Slot, Counter>, clock: Time, log: seq<Entry>)

  datatype Refusal = Unavailable | TooManyRequests

  const Empty: State := State(map[], 0, [])

  predicate Expired(c: Counter, now: Time) {
    c.expiresAt.Some? && c.expiresAt.value <= now
  }

  /** What is left of the counters at `now`. */
  function Alive(counters: map<Slot, Counter>, now: Time): map<Slot, Counter> {
    map slot | slot in counters && !Expired(counters[slot], now) :: counters[slot]
  }

  function Value(counters: map<Slot, Counter>, slot: Slot): nat {
    if slot in counters then counters[slot].count else 0
  }

  function CheckKey(s: State, key: Key, limit: nat, window: nat, now: Time): State
    requires window > 0
  {
    var live := Alive(s.counters, now);
    var slot := (key, now / window);
    var count := Value(live, slot) + 1;
    var expiresAt := if slot in live && count != 1 then live[slot].expiresAt else Some(now + window);
    State(live[slot := Counter(count, expiresAt)], now, s.log + [Entry(key, now, limit, count <= limit)])
  }

  datatype Event = Checked(key: Key, limit: nat, now: Time)

  ghost predicate Windows(window: Key -> nat) {
    forall key :: window(key) > 0
  }

  ghost predicate Enabled(s: State, e: Event) {
    s.clock <= e.now
  }

  /** Runs of checks on a clock that never goes back, each key with a window of its own. */
  ghost function After(window: Key -> nat, es: seq<Event>): Option<State>
    requires Windows(window)
  {
    if es == [] then Some(Empty)
    else
      var n := |es| - 1;
      var m := After(window, es[..n]);
      if m.None? || !Enabled(m.value, es[n]) then None
      else Some(CheckKey(m.value, es[n].key, es[n].limit, window(es[n].key), es[n].now))
  }

  // ---------------------------------------------------------------- the log

  predicate Falls(e: Entry, key: Key, window: nat, bucket: nat)
    requires window > 0
  {
    e.key == key && e.at / window == bucket
  }

  /** How many checks of `key` fell in a window. */
  function Count(log: seq<Entry>, key: Key, window: nat, bucket: nat): nat
    requires window > 0
  {
    if log == [] then 0
    else Count(log[..|log| - 1], key, window, bucket) + if Falls(log[|log| - 1], key, window, bucket) then 1 else 0
  }

  /** How many of them were let through. */
  function Admitted(log: seq<Entry>, key: Key, window: nat, bucket: nat): nat
    requires window > 0
  {
    if log == [] then 0
    else
      var e := log[|log| - 1];
      Admitted(log[..|log| - 1], key, window, bucket) + if Falls(e, key, window, bucket) && e.admitted then 1 else 0
  }

  /** How many checks of `key` were let through from `start` up to, not including, `end`. */
  function AdmittedBetween(log: seq<Entry>, key: Key, start: Time, end: Time): nat {
    if log == [] then 0
    else
      var e := log[|log| - 1];
      AdmittedBetween(log[..|log| - 1], key, start, end) +
      if e.key == key && start <= e.at < end && e.admitted then 1 else 0
  }

  // ---------------------------------------------------------------- the invariant

  ghost predicate CounterOk(window: Key -> nat, s: State, slot: Slot)
    requires Windows(window) && slot in s.counters
  {
    var c := s.counters[slot];
    var w := window(slot.0);
    c.count >= 1 && c.count == Count(s.log, slot.0, w, slot.1) &&
    c.expiresAt.Some? && w <= c.expiresAt.value <= s.clock + w && (c.expiresAt.value - w) / w == slot.1
  }

  /** Only the counters of windows that are over are gone. */
  ghost predicate NoneLost(window: Key -> nat, s: State)
    requires Windows(window)
  {
    forall key, bucket: nat :: (key, bucket) !in s.counters && Count(s.log, key, window(key), bucket) > 0
      ==> bucket < s.clock / window(key)
  }

  ghost predicate Safe(window: Key -> nat, s: State)
    requires Windows(window)
  {
    (forall slot :: slot in s.counters ==> CounterOk(window, s, slot)) && NoneLost(window, s)
  }

  lemma Times(window: nat, p: nat, q: nat)
    requires p < q
    ensures window * p + window <= window * q
  {
    assert window * (p + 1) <= window * q;
  }

  lemma Divides(a: nat, window: nat, q: nat, r: nat)
    requires r < window && a == window * q + r
    ensures a / window == q
  {
    var p := a / window;
    assert a == window * p + a % window;
    if p < q { Times(window, p, q); }
    if q < p { Times(window, q, p); }
  }

  lemma Later(a: nat, b: nat, window: nat)
    requires window > 0 && a <= b
    ensures a / window <= b / window
  {
    if b / window < a / window { Times(window, b / window, a / window); }
  }

  lemma OneWindowOn(a: nat, window: nat)
    requires window > 0
    ensures (a + window) / window == a / window + 1
  {
    var q := a / window;
    assert window * (q + 1) == window * q + window;
    Divides(a + window, window, q + 1, a % window);
  }

  /** An expired counter's window is over. */
  lemma ExpiredIsOver(window: Key -> nat, s: State, slot: Slot, now: Time)
    requires Windows(window) && slot in s.counters && CounterOk(window, s, slot)
    requires Expired(s.counters[slot], now)
    ensures slot.1 < now / window(slot.0)
  {
    var w := window(slot.0);
    OneWindowOn(s.counters[slot].expiresAt.value - w, w);
    Later(s.counters[slot].expiresAt.value, now, w);
  }

  /** The counter of the running window is the log's count for it. */
  lemma RunningCount(window: Key -> nat, s: State, key: Key, now: Time)
    requires Windows(window) && Safe(window, s) && s.clock <= now
    ensures Value(Alive(s.counters, now), (key, now / window(key))) == Count(s.log, key, window(key), now / window(key))
  {
    var slot := (key, now / window(key));
    if slot in s.counters {
      assert CounterOk(window, s, slot);
      if Expired(s.counters[slot], now) {
        ExpiredIsOver(window, s, slot, now);
      }
    } else {
      Later(s.clock, now, window(key));
    }
  }

  lemma CountSnoc(log: seq<Entry>, e: Entry, key: Key, window: nat, bucket: nat)
    requires window > 0
    ensures Count(log + [e], key, window, bucket) ==
      Count(log, key, window, bucket) + if Falls(e, key, window, bucket) then 1 else 0
  {
    assert (log + [e])[..|log|] == log;
  }

  lemma CheckKeepsCounters(window: Key -> nat, s: State, key: Key, limit: nat, now: Time, slot: Slot)
    requires Windows(window) && Safe(window, s) && s.clock <= now
    requires slot in CheckKey(s, key, limit, window(key), now).counters
    ensures CounterOk(window, CheckKey(s, key, limit, window(key), now), slot)
  {
    var t := CheckKey(s, key, limit, window(key), now);
    CountSnoc(s.log, t.log[|s.log|], slot.0, window(slot.0), slot.1);
    if slot == (key, now / window(key)) {
      RunningCount(window, s, key, now);
    }
    if slot in s.counters {
      assert CounterOk(window, s, slot);
    }
  }

  lemma CheckLosesNone(window: Key -> nat, s: State, key: Key, limit: nat, now: Time)
    requires Windows(window) && Safe(window, s) && s.clock <= now
    ensures NoneLost(window, CheckKey(s, key, limit, window(key), now))
  {
    var t := CheckKey(s, key, limit, window(key), now);
    forall k, bucket: nat | (k, bucket) !in t.counters && Count(t.log, k, window(k), bucket) > 0
      ensures bucket < now / window(k)
    {
      CountSnoc(s.log, t.log[|s.log|], k, window(k), bucket);
      if (k, bucket) in s.counters {
        assert CounterOk(window, s, (k, bucket));
        ExpiredIsOver(window, s, (k, bucket), now);
      } else {
        Later(s.clock, now, window(k));
      }
    }
  }

  lemma {:induction false} RunsAreSafe(window: Key -> nat, es: seq<Event>)
    requires Windows(window) && After(window, es).Some?
    ensures Safe(window, After(window, es).value)
  {
    if es != [] {
      var n := |es| - 1;
      RunsAreSafe(window, es[..n]);
      var s, e := After(window, es[..n]).value, es[n];
      CheckLosesNone(window, s, e.key, e.limit, e.now);
      forall slot | slot in After(window, es).value.counters
        ensures CounterOk(window, After(window, es).value, slot)
      {
        CheckKeepsCounters(window, s, e.key, e.limit, e.now, slot);
      }
    }
  }

  // ---------------------------------------------------------------- the theorems

  /** After any run, whenever it is read, the counter of a key's running window is the log's count. */
  lemma CounterIsTheLogsCount(window: Key -> nat, es: seq<Event>, key: Key, now: Time)
    requires Windows(window) && After(window, es).Some? && After(window, es).value.clock <= now
    ensures var s := After(window, es).value;
      Value(Alive(s.counters, now), (key, now / window(key))) == Count(s.log, key, window(key), now / window(key))
  {
    RunsAreSafe(window, es);
    RunningCount(window, After(window, es).value, key, now);
  }

  lemma AliveIsRecent(window: Key -> nat, s: State, key: Key, now: Time, bucket: nat)
    requires Windows(window) && Safe(window, s) && s.clock <= now && (key, bucket) in Alive(s.counters, now)
    ensures bucket == now / window(key) || bucket + 1 == now / window(key)
  {
    assert CounterOk(window, s, (key, bucket));
    var w := window(key);
    var begun := s.counters[(key, bucket)].expiresAt.value - w;
    OneWindowOn(begun, w);
    Later(begun, now, w);
    Later(now, begun + w, w);
  }

  /** When the first check of `key` in a window came. */
  function FirstIn(log: seq<Entry>, key: Key, window: nat, bucket: nat): Option<Time>
    requires window > 0
  {
    if log == [] then None
    else
      var e, earlier := log[|log| - 1], FirstIn(log[..|log| - 1], key, window, bucket);
      if earlier.Some? then earlier else if Falls(e, key, window, bucket) then Some(e.at) else None
  }

  lemma {:induction false} NoneFirst(log: seq<Entry>, key: Key, window: nat, bucket: nat)
    requires window > 0
    ensures FirstIn(log, key, window, bucket) == None <==> Count(log, key, window, bucket) == 0
  {
    if log != [] { NoneFirst(log[..|log| - 1], key, window, bucket); }
  }

  lemma FirstSnoc(log: seq<Entry>, e: Entry, key: Key, window: nat, bucket: nat)
    requires window > 0
    ensures var earlier := FirstIn(log, key, window, bucket);
      FirstIn(log + [e], key, window, bucket) ==
        if earlier.Some? then earlier else if Falls(e, key, window, bucket) then Some(e.at) else None
  {
    assert (log + [e])[..|log|] == log;
  }

  ghost predicate ExpiresAfterFirst(window: Key -> nat, s: State, slot: Slot)
    requires Windows(window) && slot in s.counters
  {
    var first := FirstIn(s.log, slot.0, window(slot.0), slot.1);
    first.Some? && s.counters[slot].expiresAt == Some(first.value + window(slot.0))
  }

  lemma CheckKeepsExpiry(window: Key -> nat, s: State, key: Key, limit: nat, now: Time, slot: Slot)
    requires Windows(window) && Safe(window, s) && s.clock <= now
    requires slot in s.counters ==> ExpiresAfterFirst(window, s, slot)
    requires slot in CheckKey(s, key, limit, window(key), now).counters
    ensures ExpiresAfterFirst(window, CheckKey(s, key, limit, window(key), now), slot)
  {
    var t := CheckKey(s, key, limit, window(key), now);
    FirstSnoc(s.log, t.log[|s.log|], slot.0, window(slot.0), slot.1);
    if slot == (key, now / window(key)) {
      RunningCount(window, s, key, now);
      NoneFirst(s.log, key, window(key), now / window(key));
      if slot in s.counters { assert CounterOk(window, s, slot); }
    }
  }

  /** In every run a counter expires one window after the first check it counts, and later checks do not put
      that off. */
  lemma {:induction false} CounterExpiresAfterFirst(window: Key -> nat, es: seq<Event>, slot: Slot)
    requires Windows(window) && After(window, es).Some? && slot in After(window, es).value.counters
    ensures ExpiresAfterFirst(window, After(window, es).value, slot)
    ensures forall now: Time :: slot in Alive(After(window, es).value.counters, now) <==>
      now < FirstIn(After(window, es).value.log, slot.0, window(slot.0), slot.1).value + window(slot.0)
  {
    if es != [] {
      var n := |es| - 1;
      var s, e := After(window, es[..n]).value, es[n];
      RunsAreSafe(window, es[..n]);
      if slot in s.counters { CounterExpiresAfterFirst(window, es[..n], slot); }
      CheckKeepsExpiry(window, s, e.key, e.limit, e.now, slot);
    }
  }

  function KeysSlots(counters: map<Slot, Counter>, key: Key): set<Slot> {
    set slot | slot in counters && slot.0 == key
  }

  lemma AtMostTwo<T>(live: set<T>, a: T, b: T)
    requires forall x :: x in live ==> x == a || x == b
    ensures |live| <= 2
  {
    SubsetSize(live, {a, b});
  }

  /** At any moment only the running window's counter and the one before it are alive. */
  lemma AtMostTwoAlive(window: Key -> nat, es: seq<Event>, key: Key, now: Time)
    requires Windows(window) && After(window, es).Some? && After(window, es).value.clock <= now
    ensures var live := KeysSlots(Alive(After(window, es).value.counters, now), key); var b := now / window(key);
      |live| <= 2 && forall slot :: slot in live ==> slot.1 == b || slot.1 + 1 == b
  {
    RunsAreSafe(window, es);
    var s := After(window, es).value;
    var live := KeysSlots(Alive(s.counters, now), key);
    forall slot | slot in live
      ensures slot.1 == now / window(key) || slot.1 + 1 == now / window(key)
    {
      AliveIsRecent(window, s, key, now, slot.1);
    }
    var b := now / window(key);
    AtMostTwo(live, (key, b), (key, if b > 0 then b - 1 else 0));
  }

  lemma {:induction false} SubsetSize<T>(a: set<T>, b: set<T>)
    requires a <= b
    ensures |a| <= |b|
    decreases a
  {
    if a != {} {
      var x :| x in a;
      SubsetSize(a - {x}, b - {x});
    }
  }

  ghost predicate OneLimit(log: seq<Entry>, key: Key, limit: nat) {
    forall e :: e in log && e.key == key ==> e.limit == limit
  }

  /** Each window lets through exactly its first `limit` checks. */
  lemma {:induction false} WindowAdmitsItsLimit(window: Key -> nat, es: seq<Event>, key: Key, limit: nat, bucket: nat)
    requires Windows(window) && After(window, es).Some? && OneLimit(After(window, es).value.log, key, limit)
    ensures var log := After(window, es).value.log; var count := Count(log, key, window(key), bucket);
      Admitted(log, key, window(key), bucket) == if count < limit then count else limit
  {
    if es != [] {
      var n := |es| - 1;
      var s, t, e := After(window, es[..n]).value, After(window, es).value, es[n];
      assert t.log[..|t.log| - 1] == s.log;
      assert OneLimit(s.log, key, limit) by { assert forall x :: x in s.log ==> x in t.log; }
      WindowAdmitsItsLimit(window, es[..n], key, limit, bucket);
      RunsAreSafe(window, es[..n]);
      RunningCount(window, s, e.key, e.now);
      assert t.log[|t.log| - 1] in t.log;
    }
  }

  lemma NoWindowAdmitsMore(window: Key -> nat, es: seq<Event>, key: Key, limit: nat, bucket: nat)
    requires Windows(window) && After(window, es).Some? && OneLimit(After(window, es).value.log, key, limit)
    ensures Admitted(After(window, es).value.log, key, window(key), bucket) <= limit
  {
    WindowAdmitsItsLimit(window, es, key, limit, bucket);
  }

  lemma WithinTwo(at: nat, start: nat, window: nat)
    requires window > 0 && start <= at < start + window
    ensures at / window == start / window || at / window == start / window + 1
  {
    Later(start, at, window);
    Later(at, start + window, window);
    OneWindowOn(start, window);
  }

  lemma {:induction false} SpanIsTwoWindows(log: seq<Entry>, key: Key, window: nat, start: Time)
    requires window > 0
    ensures AdmittedBetween(log, key, start, start + window) <=
      Admitted(log, key, window, start / window) + Admitted(log, key, window, start / window + 1)
  {
    if log != [] {
      SpanIsTwoWindows(log[..|log| - 1], key, window, start);
      var e := log[|log| - 1];
      if e.key == key && start <= e.at < start + window {
        WithinTwo(e.at, start, window);
      }
    }
  }

  lemma TwoWindows(log: seq<Entry>, key: Key, window: nat, limit: nat, start: Time)
    requires window > 0 && forall bucket: nat :: Admitted(log, key, window, bucket) <= limit
    ensures AdmittedBetween(log, key, start, start + window) <= 2 * limit
  {
    SpanIsTwoWindows(log, key, window, start);
  }

  /** Any span as long as a window lets through at most twice the limit. */
  lemma AnySpanAdmitsAtMostTwice(window: Key -> nat, es: seq<Event>, key: Key, limit: nat, start: Time)
    requires Windows(window) && After(window, es).Some? && OneLimit(After(window, es).value.log, key, limit)
    ensures AdmittedBetween(After(window, es).value.log, key, start, start + window(key)) <= 2 * limit
  {
    var log := After(window, es).value.log;
    forall bucket: nat ensures Admitted(log, key, window(key), bucket) <= limit {
      NoWindowAdmitsMore(window, es, key, limit, bucket);
    }
    TwoWindows(log, key, window(key), limit, start);
  }

  // ---------------------------------------------------------------- the bound is reached

  function Burst(key: Key, limit: nat, at: Time, n: nat): seq<Event> {
    seq(n, i => Checked(key, limit, at))
  }

  function Straddle(key: Key, limit: nat, window: nat, m: nat): seq<Event>
    requires window > 1
  {
    Burst(key, limit, window - 1, limit) + Burst(key, limit, window, m)
  }

  /** One more check of `key` with its limit: the run goes on, and what the log tells of it. */
  lemma OneMoreCheck(window: Key -> nat, es: seq<Event>, key: Key, limit: nat, now: Time) returns (e: Entry)
    requires Windows(window) && window(key) > 1 && After(window, es).Some? && After(window, es).value.clock <= now
    requires OneLimit(After(window, es).value.log, key, limit)
    ensures var m := After(window, es + [Checked(key, limit, now)]);
      var was, w := After(window, es).value.log, window(key);
      && m.Some? && m.value.clock == now && OneLimit(m.value.log, key, limit)
      && (forall b: nat :: Count(m.value.log, key, w, b) == Count(was, key, w, b) + if now / w == b then 1 else 0)
      && m.value.log == was + [e] && e.key == key && e.at == now
  {
    var all := es + [Checked(key, limit, now)];
    assert all[..|all| - 1] == es;
    var s, t, w := After(window, es).value, After(window, all).value, window(key);
    forall b: nat
      ensures Count(t.log, key, w, b) == Count(s.log, key, w, b) + if now / w == b then 1 else 0
    {
      CountSnoc(s.log, t.log[|s.log|], key, w, b);
    }
    e := t.log[|s.log|];
    assert t.log == s.log + [e];
  }

  /** What the log of a burst over the boundary holds. */
  ghost predicate Straddles(log: seq<Entry>, key: Key, w: nat, before: nat, after: nat)
    requires w > 1
  {
    Count(log, key, w, 0) == before && Count(log, key, w, 1) == after &&
    AdmittedBetween(log, key, w - 1, w - 1 + w) == Admitted(log, key, w, 0) + Admitted(log, key, w, 1)
  }

  lemma AdmittedSnoc(log: seq<Entry>, e: Entry, key: Key, window: nat, bucket: nat)
    requires window > 0
    ensures Admitted(log + [e], key, window, bucket) ==
      Admitted(log, key, window, bucket) + if Falls(e, key, window, bucket) && e.admitted then 1 else 0
  {
    assert (log + [e])[..|log|] == log;
  }

  lemma BetweenSnoc(log: seq<Entry>, e: Entry, key: Key, start: Time, end: Time)
    ensures AdmittedBetween(log + [e], key, start, end) ==
      AdmittedBetween(log, key, start, end) + if e.key == key && start <= e.at < end && e.admitted then 1 else 0
  {
    assert (log + [e])[..|log|] == log;
  }

  lemma StraddleGrows(log: seq<Entry>, e: Entry, key: Key, w: nat)
    requires w > 1 && e.key == key && (e.at == w - 1 || e.at == w)
    requires AdmittedBetween(log, key, w - 1, w - 1 + w) == Admitted(log, key, w, 0) + Admitted(log, key, w, 1)
    ensures var all := log + [e];
      AdmittedBetween(all, key, w - 1, w - 1 + w) == Admitted(all, key, w, 0) + Admitted(all, key, w, 1)
  {
    Divides(w - 1, w, 0, w - 1);
    Divides(w, w, 1, 0);
    AdmittedSnoc(log, e, key, w, 0);
    AdmittedSnoc(log, e, key, w, 1);
    BetweenSnoc(log, e, key, w - 1, w - 1 + w);
  }

  lemma StraddleStep(window: Key -> nat, es: seq<Event>, key: Key, limit: nat, now: Time, before: nat, after: nat)
    requires Windows(window) && window(key) > 1 && (now == window(key) - 1 || now == window(key))
    requires After(window, es).Some? && After(window, es).value.clock <= now
    requires OneLimit(After(window, es).value.log, key, limit)
    requires Straddles(After(window, es).value.log, key, window(key), before, after)
    ensures var m := After(window, es + [Checked(key, limit, now)]); var late := if now == window(key) then 1 else 0;
      m.Some? && m.value.clock == now && OneLimit(m.value.log, key, limit) &&
      Straddles(m.value.log, key, window(key), before + 1 - late, after + late)
  {
    var w := window(key);
    Divides(w - 1, w, 0, w - 1);
    Divides(w, w, 1, 0);
    var e := OneMoreCheck(window, es, key, limit, now);
    var was := After(window, es).value.log;
    StraddleGrows(was, e, key, w);
  }

  lemma {:induction false} BurstRuns(window: Key -> nat, key: Key, limit: nat, n: nat)
    requires Windows(window) && window(key) > 1
    ensures var m := After(window, Burst(key, limit, window(key) - 1, n));
      m.Some? && m.value.clock <= window(key) - 1 && OneLimit(m.value.log, key, limit) &&
      Straddles(m.value.log, key, window(key), n, 0)
  {
    var w := window(key);
    if n > 0 {
      BurstRuns(window, key, limit, n - 1);
      assert Burst(key, limit, w - 1, n) == Burst(key, limit, w - 1, n - 1) + [Checked(key, limit, w - 1)];
      StraddleStep(window, Burst(key, limit, w - 1, n - 1), key, limit, w - 1, n - 1, 0);
    }
  }

  lemma {:induction false} StraddleRuns(window: Key -> nat, key: Key, limit: nat, n: nat)
    requires Windows(window) && window(key) > 1
    ensures var m := After(window, Straddle(key, limit, window(key), n));
      m.Some? && m.value.clock <= window(key) && OneLimit(m.value.log, key, limit) &&
      Straddles(m.value.log, key, window(key), limit, n)
  {
    var w := window(key);
    if n == 0 {
      BurstRuns(window, key, limit, limit);
      assert Straddle(key, limit, w, 0) == Burst(key, limit, w - 1, limit);
    } else {
      StraddleRuns(window, key, limit, n - 1);
      assert Straddle(key, limit, w, n) == Straddle(key, limit, w, n - 1) + [Checked(key, limit, w)];
      StraddleStep(window, Straddle(key, limit, w, n - 1), key, limit, w, limit, n - 1);
    }
  }

  /** And a burst across the boundary of two windows gets twice the limit through. */
  lemma TwiceIsReached(window: Key -> nat, key: Key, limit: nat)
    requires Windows(window) && window(key) > 1
    ensures var m := After(window, Straddle(key, limit, window(key), limit)); var w := window(key);
      m.Some? && AdmittedBetween(m.value.log, key, w - 1, w - 1 + w) == 2 * limit
  {
    StraddleRuns(window, key, limit, limit);
    var es := Straddle(key, limit, window(key), limit);
    WindowAdmitsItsLimit(window, es, key, limit, 0);
    WindowAdmitsItsLimit(window, es, key, limit, 1);
  }

  // ---------------------------------------------------------------- the limiter itself

  class Limiter {
    var counters: map<Slot, Counter>
    ghost var clock: Time
    ghost var log: seq<Entry>

    ghost function Snapshot(): State
      reads this
    {
      State(counters, clock, log)
    }

    constructor ()
      ensures Snapshot() == Empty
    {
      counters, clock, log := map[], 0, [];
    }

    method Incr(slot: Slot, now: Time) returns (count: nat)
      modifies this`counters
      ensures var live := Alive(old(counters), now);
        && count == Value(live, slot) + 1
        && counters == live[slot := Counter(count, if slot in live then live[slot].expiresAt else None)]
    {
      counters := Alive(counters, now);
      count := Value(counters, slot) + 1;
      counters := counters[slot := Counter(count, if slot in counters then counters[slot].expiresAt else None)];
    }

    method Expire(slot: Slot, at: Time)
      requires slot in counters
      modifies this`counters
      ensures counters == old(counters)[slot := Counter(old(counters)[slot].count, Some(at))]
    {
      counters := counters[slot := counters[slot].(expiresAt := Some(at))];
    }

    /** Without Redis, production refuses every request and development lets every request through. */
    method Check(key: Key, limit: nat, window: nat, now: Time, redis: bool, production: bool)
      returns (r: Result<(), Refusal>)
      requires window > 0
      modifies this
      ensures redis ==> Snapshot() == CheckKey(old(Snapshot()), key, limit, window, now)
      ensures redis ==> r == if log[|log| - 1].admitted then Ok(()) else Err(TooManyRequests)
      ensures !redis ==> Snapshot() == old(Snapshot()) && r == if production then Err(Unavailable) else Ok(())
    {
      if !redis {
        if production {
          return Err(Unavailable);
        }
        return Ok(());
      }
      var bucket := (key, now / window);
      var count := Incr(bucket, now);
      if count == 1 {
        Expire(bucket, now + window);
      }
      clock := now;
      log := log + [Entry(key, now, limit, count <= limit)];
      if count > limit {
        return Err(TooManyRequests);
      }
      r := Ok(());
    }
  }
}
