/** The activity timeline: each series cut to its latest days before the union of the three. */
module Timeline {
  import opened Wrappers

  /** A calendar day, numbered in order; the text form `YYYY-MM-DD` sorts the same way. */
  type Day = int

  const LIMIT: nat := 30

  datatype Application = Application(created: Day, applied: Option<Day>)
  datatype Entry = Entry(date: Day, created: nat, applied: nat, found: nat)

  // ---------------------------------------------------------------- sets of days in order

  predicate IsLatest(days: set<Day>, d: Day) {
    d in days && forall x :: x in days ==> x <= d
  }

  lemma Pick<T>(s: set<T>) returns (x: T)
    requires s != {}
    ensures x in s
  {
    x :| x in s;
  }

  lemma {:induction false} LatestExists(days: set<Day>)
    requires days != {}
    ensures exists d :: IsLatest(days, d)
    decreases days
  {
    var x := Pick(days);
    if days == {x} {
      assert IsLatest(days, x);
    } else {
      assert days - {x} != {};
      LatestExists(days - {x});
      var y :| IsLatest(days - {x}, y);
      assert forall z :: z in days ==> z == x || z in days - {x};
      assert IsLatest(days, if y > x then y else x);
    }
  }

  function Latest(days: set<Day>): (d: Day)
    requires days != {}
    ensures IsLatest(days, d)
  {
    LatestExists(days);
    var d :| d in days && IsLatest(days, d);
    d
  }

  /** `ORDER BY day DESC`, and `sorted(..., reverse=True)`. */
  function Descending(days: set<Day>): (r: seq<Day>)
    ensures |r| == |days|
    decreases days
  {
    if days == {} then [] else [Latest(days)] + Descending(days - {Latest(days)})
  }

  function Take(s: seq<Day>, n: nat): seq<Day> {
    if |s| <= n then s else s[..n]
  }

  function ToSet(s: seq<Day>): set<Day> {
    set x | x in s
  }

  function Above(days: set<Day>, d: Day): set<Day> {
    set x | x in days && x > d
  }

  // ---------------------------------------------------------------- the query and the timeline

  /** The days and their counts, the latest `LIMIT` days only. */
  function PerDay(dates: seq<Day>): map<Day, nat> {
    map d | d in Take(Descending(ToSet(dates)), LIMIT) :: multiset(dates)[d]
  }

  function AppliedDays(apps: seq<Application>): seq<Day> {
    if apps == [] then []
    else
      var a := apps[|apps| - 1].applied;
      AppliedDays(apps[..|apps| - 1]) + if a.Some? then [a.value] else []
  }

  function CreatedDays(apps: seq<Application>): seq<Day> {
    seq(|apps|, i requires 0 <= i < |apps| => apps[i].created)
  }

  function Get(counts: map<Day, nat>, d: Day): nat {
    if d in counts then counts[d] else 0
  }

  function Timeline(apps: seq<Application>, jobs: seq<Day>): seq<Entry> {
    var created, applied, found := PerDay(CreatedDays(apps)), PerDay(AppliedDays(apps)), PerDay(jobs);
    var dates := Take(Descending(created.Keys + applied.Keys + found.Keys), LIMIT);
    seq(|dates|, i requires 0 <= i < |dates| =>
      Entry(dates[i], Get(created, dates[i]), Get(applied, dates[i]), Get(found, dates[i])))
  }

  // ---------------------------------------------------------------- what cutting keeps

  lemma {:induction false} DescendingHolds(days: set<Day>, d: Day)
    ensures d in Descending(days) <==> d in days
    decreases days
  {
    if days != {} {
      var rest := days - {Latest(days)};
      DescendingHolds(rest, d);
      assert Descending(days) == [Latest(days)] + Descending(rest);
    }
  }

  predicate Falling(days: seq<Day>) {
    forall i, j :: 0 <= i < j < |days| ==> days[i] > days[j]
  }

  lemma {:induction false} DescendingFalls(days: set<Day>)
    ensures Falling(Descending(days))
    decreases days
  {
    if days != {} {
      var m := Latest(days);
      var rest := Descending(days - {m});
      DescendingFalls(days - {m});
      forall i | 0 <= i < |rest|
        ensures rest[i] < m
      {
        DescendingHolds(days - {m}, rest[i]);
      }
    }
  }

  /** A day is among the latest `k` exactly when fewer than `k` days come after it. */
  lemma {:induction false} TakenIff(days: set<Day>, k: nat, d: Day)
    ensures d in Take(Descending(days), k) <==> d in days && |Above(days, d)| < k
    decreases days
  {
    if days != {} && k > 0 {
      var m := Latest(days);
      TakeCons(m, Descending(days - {m}), k);
      if d == m {
        assert Above(days, d) == {};
      } else {
        TakenIff(days - {m}, k - 1, d);
        AboveWithout(days, m, d);
      }
    }
  }

  lemma AboveWithout(days: set<Day>, m: Day, d: Day)
    requires IsLatest(days, m) && d != m
    ensures d in days ==> |Above(days, d)| == |Above(days - {m}, d)| + 1
  {
    if d in days {
      assert Above(days, d) == Above(days - {m}, d) + {m};
    }
  }

  lemma {:induction false} SubsetSize(a: set<Day>, b: set<Day>)
    requires a <= b
    ensures |a| <= |b|
    decreases a
  {
    if a != {} {
      var x := Pick(a);
      SubsetSize(a - {x}, b - {x});
    }
  }

  /** Leaving out days that are not among the latest `k` does not change the latest `k`. */
  lemma {:induction false} CutBelowUnion(some: set<Day>, all: set<Day>, k: nat)
    requires some <= all
    requires forall d :: d in all && |Above(all, d)| < k ==> d in some
    ensures Take(Descending(some), k) == Take(Descending(all), k)
    decreases all
  {
    if all != {} && k > 0 {
      var m := Latest(all);
      assert Above(all, m) == {};
      assert m in some && Latest(some) == m;
      forall d | d in all - {m} && |Above(all - {m}, d)| < k - 1
        ensures d in some - {m}
      {
        AboveWithout(all, m, d);
      }
      CutBelowUnion(some - {m}, all - {m}, k - 1);
      TakeCons(m, Descending(some - {m}), k);
      TakeCons(m, Descending(all - {m}), k);
    }
  }

  lemma TakeCons(x: Day, s: seq<Day>, k: nat)
    requires k > 0
    ensures Take([x] + s, k) == [x] + Take(s, k - 1)
  {
  }

  lemma CutKeys(dates: seq<Day>)
    ensures PerDay(dates).Keys == ToSet(Take(Descending(ToSet(dates)), LIMIT))
    ensures PerDay(dates).Keys <= ToSet(dates)
  {
    forall d | d in PerDay(dates).Keys
      ensures d in ToSet(dates)
    {
      TakenIff(ToSet(dates), LIMIT, d);
    }
  }

  /** The cut of one series keeps every day that is among the latest of the union, with its count. */
  lemma SeriesKeeps(dates: seq<Day>, all: set<Day>, d: Day)
    requires ToSet(dates) <= all && d in all && |Above(all, d)| < LIMIT
    ensures Get(PerDay(dates), d) == multiset(dates)[d]
    ensures d in dates ==> d in PerDay(dates)
  {
    TakenIff(ToSet(dates), LIMIT, d);
    SubsetSize(Above(ToSet(dates), d), Above(all, d));
  }

  function Days(apps: seq<Application>, jobs: seq<Day>): set<Day> {
    ToSet(CreatedDays(apps)) + ToSet(AppliedDays(apps)) + ToSet(jobs)
  }

  lemma LatestAreKept(apps: seq<Application>, jobs: seq<Day>, d: Day)
    requires d in Days(apps, jobs) && |Above(Days(apps, jobs), d)| < LIMIT
    ensures d in PerDay(CreatedDays(apps)).Keys + PerDay(AppliedDays(apps)).Keys + PerDay(jobs).Keys
  {
    SeriesKeeps(CreatedDays(apps), Days(apps, jobs), d);
    SeriesKeeps(AppliedDays(apps), Days(apps, jobs), d);
    SeriesKeeps(jobs, Days(apps, jobs), d);
  }

  /** The dates of the timeline are the latest of all days on which anything happened. */
  lemma DatesAreTheLatest(apps: seq<Application>, jobs: seq<Day>)
    ensures var c, a, f := PerDay(CreatedDays(apps)), PerDay(AppliedDays(apps)), PerDay(jobs);
      Take(Descending(c.Keys + a.Keys + f.Keys), LIMIT) == Take(Descending(Days(apps, jobs)), LIMIT)
  {
    var all := Days(apps, jobs);
    var c, a, f := PerDay(CreatedDays(apps)), PerDay(AppliedDays(apps)), PerDay(jobs);
    CutKeys(CreatedDays(apps));
    CutKeys(AppliedDays(apps));
    CutKeys(jobs);
    forall d | d in all && |Above(all, d)| < LIMIT
      ensures d in c.Keys + a.Keys + f.Keys
    {
      LatestAreKept(apps, jobs, d);
    }
    CutBelowUnion(c.Keys + a.Keys + f.Keys, all, LIMIT);
  }

  /** A day with the counts of the uncut series. */
  function Counted(apps: seq<Application>, jobs: seq<Day>, d: Day): Entry {
    Entry(d, multiset(CreatedDays(apps))[d], multiset(AppliedDays(apps))[d], multiset(jobs)[d])
  }

  /** Cutting each series first changes nothing: the timeline is the latest days of the full union, each
      with the counts of the uncut series. */
  lemma CuttingChangesNothing(apps: seq<Application>, jobs: seq<Day>)
    ensures var t, dates := Timeline(apps, jobs), Take(Descending(Days(apps, jobs)), LIMIT);
      |t| == |dates| && forall i :: 0 <= i < |t| ==>
        t[i] == Counted(apps, jobs, dates[i])
  {
    DatesAreTheLatest(apps, jobs);
    var t, all := Timeline(apps, jobs), Days(apps, jobs);
    var dates := Take(Descending(all), LIMIT);
    forall i | 0 <= i < |t|
      ensures t[i] == Counted(apps, jobs, dates[i])
    {
      TakenIff(all, LIMIT, dates[i]);
      SeriesKeeps(CreatedDays(apps), all, dates[i]);
      SeriesKeeps(AppliedDays(apps), all, dates[i]);
      SeriesKeeps(jobs, all, dates[i]);
    }
  }

  lemma TakenFall(apps: seq<Application>, jobs: seq<Day>)
    ensures Falling(Take(Descending(Days(apps, jobs)), LIMIT))
  {
    DescendingFalls(Days(apps, jobs));
  }

  /** A day is on the timeline exactly when something happened on it and on fewer than thirty later days. */
  lemma TimelineShowsIff(apps: seq<Application>, jobs: seq<Day>, d: Day)
    ensures var t, all := Timeline(apps, jobs), Days(apps, jobs);
      (exists i :: 0 <= i < |t| && t[i].date == d) <==> d in all && |Above(all, d)| < 30
  {
    CuttingChangesNothing(apps, jobs);
    var t, all := Timeline(apps, jobs), Days(apps, jobs);
    var dates := Take(Descending(all), LIMIT);
    TakenIff(all, LIMIT, d);
    if d in dates {
      var i :| 0 <= i < |dates| && dates[i] == d;
      assert t[i].date == d;
    }
  }

  /** The days come strictly latest first. */
  lemma TimelineFalls(apps: seq<Application>, jobs: seq<Day>, i: nat, j: nat)
    requires i < j < |Timeline(apps, jobs)|
    ensures Timeline(apps, jobs)[i].date > Timeline(apps, jobs)[j].date
  {
    CuttingChangesNothing(apps, jobs);
    TakenFall(apps, jobs);
  }

  lemma SomethingHappened(apps: seq<Application>, jobs: seq<Day>, d: Day)
    requires d in Days(apps, jobs)
    ensures var e := Counted(apps, jobs, d); e.created + e.applied + e.found > 0
  {
  }

  lemma EntryAt(apps: seq<Application>, jobs: seq<Day>, i: nat) returns (d: Day)
    requires i < |Timeline(apps, jobs)|
    ensures d in Days(apps, jobs) && Timeline(apps, jobs)[i] == Counted(apps, jobs, d)
  {
    CuttingChangesNothing(apps, jobs);
    d := Take(Descending(Days(apps, jobs)), LIMIT)[i];
    TakenIff(Days(apps, jobs), LIMIT, d);
  }

  /** Every day on the timeline shows something. */
  lemma TimelineShowsSomething(apps: seq<Application>, jobs: seq<Day>, i: nat)
    requires i < |Timeline(apps, jobs)|
    ensures var e := Timeline(apps, jobs)[i]; e.created + e.applied + e.found > 0
  {
    var d := EntryAt(apps, jobs, i);
    SomethingHappened(apps, jobs, d);
  }

  // ---------------------------------------------------------------- what is counted

  function MadeOn(apps: seq<Application>, d: Day): set<nat> {
    set i: nat | i < |apps| && apps[i].created == d
  }

  function AppliedOn(apps: seq<Application>, d: Day): set<nat> {
    set i: nat | i < |apps| && apps[i].applied == Some(d)
  }

  lemma OneMoreOn(before: set<nat>, all: set<nat>, n: nat)
    requires before <= all && n !in before && forall i :: i in all ==> i in before || i == n
    ensures |all| == |before| + if n in all then 1 else 0
  {
    assert all == if n in all then before + {n} else before;
  }

  lemma {:induction false} MadeIsCounted(apps: seq<Application>, d: Day)
    ensures multiset(CreatedDays(apps))[d] == |MadeOn(apps, d)|
  {
    if apps == [] {
      assert MadeOn(apps, d) == {};
    } else {
      var n := |apps| - 1;
      MadeIsCounted(apps[..n], d);
      assert CreatedDays(apps) == CreatedDays(apps[..n]) + [apps[n].created];
      OneMoreOn(MadeOn(apps[..n], d), MadeOn(apps, d), n);
    }
  }

  lemma {:induction false} AppliedIsCounted(apps: seq<Application>, d: Day)
    ensures multiset(AppliedDays(apps))[d] == |AppliedOn(apps, d)|
  {
    if apps == [] {
      assert AppliedOn(apps, d) == {};
    } else {
      var n := |apps| - 1;
      AppliedIsCounted(apps[..n], d);
      OneMoreOn(AppliedOn(apps[..n], d), AppliedOn(apps, d), n);
    }
  }

  /** Each entry counts, for its day, the applications made on it, the applications applied on it, and the jobs
      found on it. */
  lemma EntryCounts(apps: seq<Application>, jobs: seq<Day>, i: nat)
    requires i < |Timeline(apps, jobs)|
    ensures var e := Timeline(apps, jobs)[i];
      && e.created == |MadeOn(apps, e.date)|
      && e.applied == |AppliedOn(apps, e.date)|
      && e.found == multiset(jobs)[e.date]
  {
    var d := EntryAt(apps, jobs, i);
    MadeIsCounted(apps, d);
    AppliedIsCounted(apps, d);
  }

  /** Something happened on a day exactly when an application was made or applied on it or a job found. */
  lemma DaysAre(apps: seq<Application>, jobs: seq<Day>, d: Day)
    ensures d in Days(apps, jobs) <==> MadeOn(apps, d) != {} || AppliedOn(apps, d) != {} || d in jobs
  {
    MadeIsCounted(apps, d);
    AppliedIsCounted(apps, d);
  }
}
