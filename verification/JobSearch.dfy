/** The job search: listings folded onto known rows by an index in memory, and committed at once. */
module JobSearch {
  import opened Text

  datatype Job = Job(platform: string, id: string, url: string, title: string)
  type Key = (string, string)

  datatype Reply = Unregistered | Failed | Listings(jobs: seq<Job>)
  datatype Response = Response(items: seq<Job>, total: nat, pageSize: nat, hasNext: bool)

  function KeyOf(job: Job): Key {
    (job.platform, job.id)
  }

  function Self(job: Job): Job {
    job
  }

  /** A non-empty id for a listing with an id or a URL; `hash` is the digest of the URL. */
  function Identity(hash: string -> string, job: Job): string {
    if Strip(job.id) != "" then Strip(job.id)
    else if Strip(job.url) != "" then "url:" + hash(Strip(job.url))
    else ""
  }

  function IdentKey(hash: string -> string, job: Job): Key {
    (job.platform, Identity(hash, job))
  }

  predicate Degenerate(hash: string -> string, job: Job) {
    Identity(hash, job) == ""
  }

  /** The rows of one user; the table allows each key once. */
  predicate Unique(rows: seq<Job>) {
    forall i, j :: 0 <= i < j < |rows| ==> KeyOf(rows[i]) != KeyOf(rows[j])
  }

  predicate HasKey(rows: seq<Job>, key: Key) {
    exists i :: 0 <= i < |rows| && KeyOf(rows[i]) == key
  }

  function ByKey(rows: seq<Job>): map<Key, Job> {
    Merge(KeyOf, Self, rows)
  }

  // ---------------------------------------------------------------- one pass

  datatype Index = Index(seen: set<Key>, known: map<Key, Job>, added: seq<Job>, all: seq<Job>)

  function Register(hash: string -> string, s: Index, job: Job): Index {
    var ident := Identity(hash, job);
    var key := (job.platform, ident);
    if ident == "" then s.(added := s.added + [job], all := s.all + [job])
    else if key in s.seen then s
    else if key in s.known then s.(seen := s.seen + {key}, all := s.all + [s.known[key]])
    else
      var row := job.(id := ident);
      Index(s.seen + {key}, s.known[key := row], s.added + [row], s.all + [row])
  }

  function RegisterAll(hash: string -> string, rows: seq<Job>, jobs: seq<Job>): Index {
    if jobs == [] then Index({}, ByKey(rows), [], [])
    else Register(hash, RegisterAll(hash, rows, jobs[..|jobs| - 1]), jobs[|jobs| - 1])
  }

  /** A search: the rows afterwards, and the jobs to answer with. */
  function Search(hash: string -> string, rows: seq<Job>, jobs: seq<Job>): (seq<Job>, seq<Job>) {
    var s := RegisterAll(hash, rows, jobs);
    if s.all == [] then (rows, [])
    else if Unique(rows + s.added) then (rows + s.added, s.all)
    else (rows, [])
  }

  // ---------------------------------------------------------------- first occurrences

  function Keys(hash: string -> string, jobs: seq<Job>): set<Key> {
    set j | j in jobs && !Degenerate(hash, j) :: IdentKey(hash, j)
  }

  /** The listings without those whose key an earlier one has; those without a key all stay. */
  function Firsts(hash: string -> string, jobs: seq<Job>): seq<Job> {
    if jobs == [] then []
    else
      var n := |jobs| - 1;
      Firsts(hash, jobs[..n]) +
      if IsFirst(hash, jobs[..n], jobs[n]) then [jobs[n]] else []
  }

  /** The row a listing stands for: the known one with its key, or a new one under its identity. */
  function RowFor(hash: string -> string, rows: seq<Job>, job: Job): Job {
    if Degenerate(hash, job) then job
    else if IdentKey(hash, job) in ByKey(rows) then ByKey(rows)[IdentKey(hash, job)]
    else job.(id := Identity(hash, job))
  }

  predicate IsNew(hash: string -> string, rows: seq<Job>, job: Job) {
    Degenerate(hash, job) || IdentKey(hash, job) !in ByKey(rows)
  }

  function RowsFor(hash: string -> string, rows: seq<Job>, jobs: seq<Job>): seq<Job> {
    if jobs == [] then [] else RowsFor(hash, rows, jobs[..|jobs| - 1]) + [RowFor(hash, rows, jobs[|jobs| - 1])]
  }

  function NewRows(hash: string -> string, rows: seq<Job>, jobs: seq<Job>): seq<Job> {
    if jobs == [] then []
    else
      var n := |jobs| - 1;
      NewRows(hash, rows, jobs[..n]) + if IsNew(hash, rows, jobs[n]) then [RowFor(hash, rows, jobs[n])] else []
  }

  function OwnKey(hash: string -> string, job: Job): set<Key> {
    if Degenerate(hash, job) then {} else {IdentKey(hash, job)}
  }

  lemma KeysSnoc(hash: string -> string, jobs: seq<Job>, x: Job)
    ensures Keys(hash, jobs + [x]) == Keys(hash, jobs) + OwnKey(hash, x)
  {
    assert forall j :: j in jobs + [x] <==> j in jobs || j == x;
  }

  predicate IsFirst(hash: string -> string, jobs: seq<Job>, x: Job) {
    Degenerate(hash, x) || IdentKey(hash, x) !in Keys(hash, jobs)
  }

  ghost predicate Knows(s: Index, rows: map<Key, Job>, keys: set<Key>) {
    s.seen == keys && s.known.Keys == rows.Keys + keys && forall key :: key in rows ==> s.known[key] == rows[key]
  }

  lemma RegisterKnows(hash: string -> string, rows: seq<Job>, keys: set<Key>, s: Index, x: Job)
    requires Knows(s, ByKey(rows), keys)
    ensures Knows(Register(hash, s, x), ByKey(rows), keys + OwnKey(hash, x))
  {
    if Degenerate(hash, x) { assert keys + OwnKey(hash, x) == keys; }
    else if IdentKey(hash, x) in keys { assert keys + OwnKey(hash, x) == keys; }
  }

  lemma RegisterAppends(hash: string -> string, rows: seq<Job>, jobs: seq<Job>, s: Index, x: Job)
    requires Knows(s, ByKey(rows), Keys(hash, jobs))
    ensures Register(hash, s, x).all == s.all + if IsFirst(hash, jobs, x) then [RowFor(hash, rows, x)] else []
    ensures Register(hash, s, x).added ==
      s.added + if IsFirst(hash, jobs, x) && IsNew(hash, rows, x) then [RowFor(hash, rows, x)] else []
  {
  }

  lemma RowsForSnoc(hash: string -> string, rows: seq<Job>, jobs: seq<Job>, x: Job)
    ensures RowsFor(hash, rows, jobs + [x]) == RowsFor(hash, rows, jobs) + [RowFor(hash, rows, x)]
    ensures NewRows(hash, rows, jobs + [x]) ==
      NewRows(hash, rows, jobs) + if IsNew(hash, rows, x) then [RowFor(hash, rows, x)] else []
  {
    SnocParts(jobs, x);
  }

  lemma FirstsSnoc(hash: string -> string, jobs: seq<Job>, x: Job)
    ensures Firsts(hash, jobs + [x]) == if IsFirst(hash, jobs, x) then Firsts(hash, jobs) + [x] else Firsts(hash, jobs)
  {
    SnocParts(jobs, x);
  }

  ghost predicate IsFirstPass(hash: string -> string, rows: seq<Job>, jobs: seq<Job>, s: Index) {
    Knows(s, ByKey(rows), Keys(hash, jobs)) && s.all == RowsFor(hash, rows, Firsts(hash, jobs)) &&
    s.added == NewRows(hash, rows, Firsts(hash, jobs))
  }

  lemma OneMoreListing(hash: string -> string, rows: seq<Job>, jobs: seq<Job>, s: Index, x: Job)
    requires IsFirstPass(hash, rows, jobs, s)
    ensures IsFirstPass(hash, rows, jobs + [x], Register(hash, s, x))
  {
    KeysSnoc(hash, jobs, x);
    RegisterKnows(hash, rows, Keys(hash, jobs), s, x);
    RegisterAppends(hash, rows, jobs, s, x);
    FirstsSnoc(hash, jobs, x);
    RowsForSnoc(hash, rows, Firsts(hash, jobs), x);
  }

  /** The one pass is first-occurrence removal of repeats, then a look-up. */
  lemma {:induction false} OnePassIsFirsts(hash: string -> string, rows: seq<Job>, jobs: seq<Job>)
    ensures IsFirstPass(hash, rows, jobs, RegisterAll(hash, rows, jobs))
  {
    if jobs == [] {
      assert Keys(hash, jobs) == {};
    } else {
      OnePassIsFirsts(hash, rows, jobs[..|jobs| - 1]);
      TakeSnoc(jobs);
      OneMoreListing(hash, rows, jobs[..|jobs| - 1], RegisterAll(hash, rows, jobs[..|jobs| - 1]), jobs[|jobs| - 1]);
    }
  }

  // ---------------------------------------------------------------- keys

  lemma HasKeySnoc(rows: seq<Job>, row: Job, key: Key)
    ensures HasKey(rows + [row], key) <==> HasKey(rows, key) || KeyOf(row) == key
  {
    var all := rows + [row];
    if HasKey(rows, key) {
      var i :| 0 <= i < |rows| && KeyOf(rows[i]) == key;
      assert KeyOf(all[i]) == key;
    }
    if KeyOf(row) == key {
      assert KeyOf(all[|rows|]) == key;
    }
  }

  lemma HasKeyCat(a: seq<Job>, b: seq<Job>, key: Key)
    ensures HasKey(a + b, key) <==> HasKey(a, key) || HasKey(b, key)
  {
    if HasKey(a, key) {
      var i :| 0 <= i < |a| && KeyOf(a[i]) == key;
      assert KeyOf((a + b)[i]) == key;
    }
    if HasKey(b, key) {
      var i :| 0 <= i < |b| && KeyOf(b[i]) == key;
      assert KeyOf((a + b)[|a| + i]) == key;
    }
  }

  lemma UniqueSnoc(rows: seq<Job>, row: Job)
    ensures Unique(rows + [row]) <==> Unique(rows) && !HasKey(rows, KeyOf(row))
  {
    var all := rows + [row];
    assert forall i :: 0 <= i < |rows| ==> all[i] == rows[i];
    assert all[|rows|] == row;
  }

  /** The dictionary of the rows finds a row by its key, and the row itself when keys are unique. */
  lemma {:induction false} ByKeyFinds(rows: seq<Job>, key: Key)
    ensures key in ByKey(rows) <==> HasKey(rows, key)
    ensures key in ByKey(rows) ==> ByKey(rows)[key] in rows && KeyOf(ByKey(rows)[key]) == key
  {
    if rows != [] {
      var n := |rows| - 1;
      ByKeyFinds(rows[..n], key);
      TakeSnoc(rows);
      HasKeySnoc(rows[..n], rows[n], key);
    }
  }

  lemma SameKeySameRow(rows: seq<Job>, a: Job, b: Job)
    requires Unique(rows) && a in rows && b in rows && KeyOf(a) == KeyOf(b)
    ensures a == b
  {
    var i :| 0 <= i < |rows| && rows[i] == a;
    var j :| 0 <= j < |rows| && rows[j] == b;
  }

  lemma RowHasKey(hash: string -> string, rows: seq<Job>, job: Job)
    ensures KeyOf(RowFor(hash, rows, job)) == if Degenerate(hash, job) then KeyOf(job) else IdentKey(hash, job)
  {
    ByKeyFinds(rows, IdentKey(hash, job));
  }

  lemma IdentityNotBlank(hash: string -> string, job: Job)
    ensures !Degenerate(hash, job) ==> Strip(Identity(hash, job)) != ""
    ensures Degenerate(hash, job) ==> Strip(job.id) == ""
  {
    if Strip(job.id) == "" && Strip(job.url) != "" {
      var ident := "url:" + hash(Strip(job.url));
      assert ident[0] == 'u';
      StripNotEmpty(ident, 0);
    }
  }

  /** A listing without id and URL among `jobs`, under this key. */
  predicate HasDegenerate(hash: string -> string, jobs: seq<Job>, key: Key) {
    exists i :: 0 <= i < |jobs| && Degenerate(hash, jobs[i]) && KeyOf(jobs[i]) == key
  }

  lemma HasDegenerateSnoc(hash: string -> string, jobs: seq<Job>, x: Job, key: Key)
    ensures HasDegenerate(hash, jobs + [x], key) <==>
      HasDegenerate(hash, jobs, key) || (Degenerate(hash, x) && KeyOf(x) == key)
  {
    var all := jobs + [x];
    assert forall i :: 0 <= i < |jobs| ==> all[i] == jobs[i];
    assert all[|jobs|] == x;
    if HasDegenerate(hash, jobs, key) {
      var i :| 0 <= i < |jobs| && Degenerate(hash, jobs[i]) && KeyOf(jobs[i]) == key;
      assert Degenerate(hash, all[i]);
    }
  }

  function Added(hash: string -> string, rows: seq<Job>, jobs: seq<Job>): seq<Job> {
    NewRows(hash, rows, Firsts(hash, jobs))
  }

  lemma AddedSnoc(hash: string -> string, rows: seq<Job>, jobs: seq<Job>, x: Job)
    ensures Added(hash, rows, jobs + [x]) ==
      if IsFirst(hash, jobs, x) && IsNew(hash, rows, x) then Added(hash, rows, jobs) + [RowFor(hash, rows, x)]
      else Added(hash, rows, jobs)
  {
    FirstsSnoc(hash, jobs, x);
    RowsForSnoc(hash, rows, Firsts(hash, jobs), x);
  }

  /** The keys of the rows a search adds: the new identities, and the raw keys of degenerate listings. */
  lemma {:induction false} AddedKeys(hash: string -> string, rows: seq<Job>, jobs: seq<Job>, key: Key)
    ensures HasKey(Added(hash, rows, jobs), key) <==>
      (key in Keys(hash, jobs) && key !in ByKey(rows)) || HasDegenerate(hash, jobs, key)
  {
    if jobs != [] {
      var before, x := jobs[..|jobs| - 1], jobs[|jobs| - 1];
      AddedKeys(hash, rows, before, key);
      TakeSnoc(jobs);
      AddedSnoc(hash, rows, before, x);
      KeysSnoc(hash, before, x);
      HasDegenerateSnoc(hash, before, x, key);
      RowHasKey(hash, rows, x);
      HasKeySnoc(Added(hash, rows, before), RowFor(hash, rows, x), key);
    }
  }

  // ---------------------------------------------------------------- when the commit succeeds

  /** The listings without id and URL have keys of their own, which no row has. */
  predicate DegeneratesFit(hash: string -> string, rows: seq<Job>, jobs: seq<Job>) {
    if jobs == [] then true
    else
      var n := |jobs| - 1;
      DegeneratesFit(hash, rows, jobs[..n]) &&
      (Degenerate(hash, jobs[n]) ==>
         !HasKey(rows, KeyOf(jobs[n])) && !HasDegenerate(hash, jobs[..n], KeyOf(jobs[n])))
  }

  /** No identity is blank, and every degenerate key is. */
  lemma KeysTellApart(hash: string -> string, jobs: seq<Job>, key: Key)
    ensures key in Keys(hash, jobs) ==> Strip(key.1) != ""
    ensures HasDegenerate(hash, jobs, key) ==> Strip(key.1) == ""
  {
    if key in Keys(hash, jobs) {
      var j :| j in jobs && !Degenerate(hash, j) && IdentKey(hash, j) == key;
      IdentityNotBlank(hash, j);
    }
    if HasDegenerate(hash, jobs, key) {
      var i :| 0 <= i < |jobs| && Degenerate(hash, jobs[i]) && KeyOf(jobs[i]) == key;
      IdentityNotBlank(hash, jobs[i]);
    }
  }

  lemma FreshKey(hash: string -> string, rows: seq<Job>, jobs: seq<Job>, x: Job)
    requires IsFirst(hash, jobs, x) && IsNew(hash, rows, x)
    ensures HasKey(rows + Added(hash, rows, jobs), KeyOf(RowFor(hash, rows, x))) <==>
      Degenerate(hash, x) && (HasKey(rows, KeyOf(x)) || HasDegenerate(hash, jobs, KeyOf(x)))
  {
    var key := KeyOf(RowFor(hash, rows, x));
    RowHasKey(hash, rows, x);
    HasKeyCat(rows, Added(hash, rows, jobs), key);
    AddedKeys(hash, rows, jobs, key);
    ByKeyFinds(rows, key);
    IdentityNotBlank(hash, x);
    KeysTellApart(hash, jobs, key);
  }

  /** The commit goes through exactly when the degenerate listings fit; listings with an id or a URL
      never make it fail. */
  lemma {:induction false} CommitSucceedsIff(hash: string -> string, rows: seq<Job>, jobs: seq<Job>)
    requires Unique(rows)
    ensures Unique(rows + RegisterAll(hash, rows, jobs).added) <==> DegeneratesFit(hash, rows, jobs)
  {
    OnePassIsFirsts(hash, rows, jobs);
    if jobs == [] {
      assert rows + Added(hash, rows, jobs) == rows;
    } else {
      var before, x := jobs[..|jobs| - 1], jobs[|jobs| - 1];
      CommitSucceedsIff(hash, rows, before);
      OnePassIsFirsts(hash, rows, before);
      TakeSnoc(jobs);
      AddedSnoc(hash, rows, before, x);
      if IsFirst(hash, before, x) && IsNew(hash, rows, x) {
        var row := RowFor(hash, rows, x);
        FreshKey(hash, rows, before, x);
        CatAssociates(rows, Added(hash, rows, before), [row]);
        UniqueSnoc(rows + Added(hash, rows, before), row);
      }
    }
  }

  // ---------------------------------------------------------------- the answer, and searching again

  ghost predicate AllKeyed(hash: string -> string, jobs: seq<Job>) {
    forall j :: j in jobs ==> !Degenerate(hash, j)
  }

  /** The listings, repeats left out, as rows. */
  function Answer(hash: string -> string, rows: seq<Job>, jobs: seq<Job>): seq<Job> {
    RowsFor(hash, rows, Firsts(hash, jobs))
  }

  lemma AnswerSnoc(hash: string -> string, rows: seq<Job>, jobs: seq<Job>, x: Job)
    ensures Answer(hash, rows, jobs + [x]) ==
      if IsFirst(hash, jobs, x) then Answer(hash, rows, jobs) + [RowFor(hash, rows, x)] else Answer(hash, rows, jobs)
  {
    FirstsSnoc(hash, jobs, x);
    RowsForSnoc(hash, rows, Firsts(hash, jobs), x);
  }

  lemma {:induction false} AnswerKeys(hash: string -> string, rows: seq<Job>, jobs: seq<Job>, key: Key)
    requires AllKeyed(hash, jobs)
    ensures HasKey(Answer(hash, rows, jobs), key) <==> key in Keys(hash, jobs)
  {
    if jobs != [] {
      var before, x := jobs[..|jobs| - 1], jobs[|jobs| - 1];
      TakeSnoc(jobs);
      assert x in jobs;
      AnswerKeys(hash, rows, before, key);
      AnswerSnoc(hash, rows, before, x);
      KeysSnoc(hash, before, x);
      RowHasKey(hash, rows, x);
      HasKeySnoc(Answer(hash, rows, before), RowFor(hash, rows, x), key);
    }
  }

  /** Every key among the listings is answered exactly once, a known one with its row. */
  lemma {:induction false} AnswerHasEachKeyOnce(hash: string -> string, rows: seq<Job>, jobs: seq<Job>, key: Key)
    requires AllKeyed(hash, jobs)
    ensures var all := RegisterAll(hash, rows, jobs).all;
      && Unique(all)
      && (HasKey(all, key) <==> key in Keys(hash, jobs))
      && (key in Keys(hash, jobs) && key in ByKey(rows) ==> ByKey(rows)[key] in all)
  {
    OnePassIsFirsts(hash, rows, jobs);
    AnswerKeys(hash, rows, jobs, key);
    if jobs != [] {
      var before, x := jobs[..|jobs| - 1], jobs[|jobs| - 1];
      TakeSnoc(jobs);
      assert x in jobs;
      AnswerHasEachKeyOnce(hash, rows, before, key);
      OnePassIsFirsts(hash, rows, before);
      AnswerSnoc(hash, rows, before, x);
      KeysSnoc(hash, before, x);
      RowHasKey(hash, rows, x);
      AnswerKeys(hash, rows, before, IdentKey(hash, x));
      UniqueSnoc(Answer(hash, rows, before), RowFor(hash, rows, x));
    }
  }

  /** Every answered row is stored once the search has committed. */
  lemma {:induction false} AnswerIsStored(hash: string -> string, rows: seq<Job>, jobs: seq<Job>, row: Job)
    requires row in Answer(hash, rows, jobs)
    ensures row in rows + Added(hash, rows, jobs)
  {
    var before, x := jobs[..|jobs| - 1], jobs[|jobs| - 1];
    TakeSnoc(jobs);
    AnswerSnoc(hash, rows, before, x);
    AddedSnoc(hash, rows, before, x);
    ByKeyFinds(rows, IdentKey(hash, x));
    if row in Answer(hash, rows, before) {
      AnswerIsStored(hash, rows, before, row);
    }
  }

  lemma {:induction false} AnswerFromStored(hash: string -> string, rows: seq<Job>, stored: seq<Job>, jobs: seq<Job>)
    requires AllKeyed(hash, jobs) && Unique(stored)
    requires forall row :: row in Answer(hash, rows, jobs) ==> row in stored
    ensures Answer(hash, stored, jobs) == Answer(hash, rows, jobs) && Added(hash, stored, jobs) == []
  {
    if jobs != [] {
      var before, x := jobs[..|jobs| - 1], jobs[|jobs| - 1];
      TakeSnoc(jobs);
      assert x in jobs;
      AnswerSnoc(hash, rows, before, x);
      AnswerSnoc(hash, stored, before, x);
      AddedSnoc(hash, stored, before, x);
      AnswerFromStored(hash, rows, stored, before);
      if IsFirst(hash, before, x) {
        StoredRowFound(hash, rows, stored, x);
      }
    }
  }

  lemma StoredRowFound(hash: string -> string, rows: seq<Job>, stored: seq<Job>, x: Job)
    requires !Degenerate(hash, x) && Unique(stored) && RowFor(hash, rows, x) in stored
    ensures !IsNew(hash, stored, x) && RowFor(hash, stored, x) == RowFor(hash, rows, x)
  {
    var key, row := IdentKey(hash, x), RowFor(hash, rows, x);
    RowHasKey(hash, rows, x);
    var i :| 0 <= i < |stored| && stored[i] == row;
    assert KeyOf(stored[i]) == key;
    ByKeyFinds(stored, key);
    SameKeySameRow(stored, ByKey(stored)[key], row);
  }

  /** Searching again with the same listings adds no row and answers the same. */
  lemma SearchAgainAddsNothing(hash: string -> string, rows: seq<Job>, jobs: seq<Job>)
    requires Unique(rows) && AllKeyed(hash, jobs)
    ensures var first := Search(hash, rows, jobs);
      Unique(first.0) && rows <= first.0 && Search(hash, first.0, jobs) == first
  {
    var stored := rows + Added(hash, rows, jobs);
    OnePassIsFirsts(hash, rows, jobs);
    FitsWhenKeyed(hash, rows, jobs);
    CommitSucceedsIff(hash, rows, jobs);
    forall row | row in Answer(hash, rows, jobs)
      ensures row in stored
    {
      AnswerIsStored(hash, rows, jobs, row);
    }
    AnswerFromStored(hash, rows, stored, jobs);
    OnePassIsFirsts(hash, stored, jobs);
    if Answer(hash, rows, jobs) == [] {
      AnswerFromStored(hash, rows, rows, jobs);
    }
    assert stored + [] == stored;
  }

  lemma {:induction false} FitsWhenKeyed(hash: string -> string, rows: seq<Job>, jobs: seq<Job>)
    requires AllKeyed(hash, jobs)
    ensures DegeneratesFit(hash, rows, jobs)
  {
    if jobs != [] {
      assert jobs[|jobs| - 1] in jobs;
      FitsWhenKeyed(hash, rows, jobs[..|jobs| - 1]);
    }
  }

  lemma {:induction false} StoredDoesNotFit(hash: string -> string, rows: seq<Job>, jobs: seq<Job>, i: nat)
    requires i < |jobs| && Degenerate(hash, jobs[i]) && HasKey(rows, KeyOf(jobs[i]))
    ensures !DegeneratesFit(hash, rows, jobs)
  {
    if i < |jobs| - 1 { StoredDoesNotFit(hash, rows, jobs[..|jobs| - 1], i); }
  }

  /** But a listing without id and URL, once stored, makes the same search fail whole: it stores nothing
      and answers nothing, whatever else it found. */
  lemma DegenerateSpoilsTheNextSearch(hash: string -> string, rows: seq<Job>, jobs: seq<Job>, i: nat)
    requires Unique(rows) && i < |jobs| && Degenerate(hash, jobs[i])
    ensures var first := Search(hash, rows, jobs); Search(hash, first.0, jobs) == (first.0, [])
  {
    OnePassIsFirsts(hash, rows, jobs);
    CommitSucceedsIff(hash, rows, jobs);
    var first := Search(hash, rows, jobs);
    var key := KeyOf(jobs[i]);
    AddedKeys(hash, rows, jobs, key);
    assert HasDegenerate(hash, jobs, key);
    HasKeyCat(rows, Added(hash, rows, jobs), key);
    if first.0 != rows {
      StoredDoesNotFit(hash, first.0, jobs, i);
      CommitSucceedsIff(hash, first.0, jobs);
    }
  }

  // ---------------------------------------------------------------- the search itself

  /** All listings of the platforms that answered, in order. */
  function Collected(replies: seq<Reply>): seq<Job> {
    if replies == [] then []
    else
      var r := replies[|replies| - 1];
      Collected(replies[..|replies| - 1]) + if r.Listings? then r.jobs else []
  }

  lemma CollectedSnoc(replies: seq<Reply>, k: nat)
    requires k <= |replies|
    ensures k == |replies| ==> Collected(replies[..k]) == Collected(replies)
    ensures k < |replies| && replies[k].Listings? ==>
      Collected(replies[..k + 1]) == Collected(replies[..k]) + replies[k].jobs
    ensures k < |replies| && !replies[k].Listings? ==> Collected(replies[..k + 1]) == Collected(replies[..k])
  {
    if k == |replies| {
      assert replies[..k] == replies;
    } else {
      assert replies[..k + 1][..k] == replies[..k];
    }
  }

  function Page(all: seq<Job>, limit: nat): Response {
    Response(if |all| <= limit then all else all[..limit], |all|, limit, |all| > limit)
  }

  lemma RegisterAllSnoc(hash: string -> string, rows: seq<Job>, jobs: seq<Job>, x: Job)
    ensures RegisterAll(hash, rows, jobs + [x]) == Register(hash, RegisterAll(hash, rows, jobs), x)
  {
    SnocParts(jobs, x);
  }

  // ---------------------------------------------------------------- listings, rows and pages

  /** A listing is known by its id; only without one by its URL, whatever else it says. */
  lemma IdentityIs(hash: string -> string, a: Job)
    ensures Strip(a.id) != "" ==> Identity(hash, a) == Strip(a.id)
    ensures Strip(a.id) == "" && Strip(a.url) != "" ==> Identity(hash, a) == "url:" + hash(Strip(a.url))
    ensures Degenerate(hash, a) <==> Strip(a.id) == "" && Strip(a.url) == ""
  {
  }

  /** Two listings of a platform are folded into one answer when they have the same id, whatever their URLs, or
      no id and the same URL; and under another platform never. */
  lemma TwoListingsFold(hash: string -> string, rows: seq<Job>, a: Job, b: Job)
    requires Strip(a.id) == Strip(b.id) && (Strip(a.id) == "" ==> Strip(a.url) == Strip(b.url) != "")
    ensures |Answer(hash, rows, [a, b])| == if a.platform == b.platform then 1 else 2
  {
    IdentityIs(hash, a);
    IdentityIs(hash, b);
    OneListing(hash, rows, a);
    assert [a, b] == [a] + [b];
    AnswerSnoc(hash, rows, [a], b);
  }

  lemma NoKeys(hash: string -> string)
    ensures Keys(hash, []) == {}
  {
  }

  lemma OneKey(hash: string -> string, a: Job)
    ensures Keys(hash, [a]) == OwnKey(hash, a)
  {
    NoKeys(hash);
    KeysSnoc(hash, [], a);
    CatNothing([a]);
  }

  lemma OneListing(hash: string -> string, rows: seq<Job>, a: Job)
    ensures Answer(hash, rows, [a]) == [RowFor(hash, rows, a)] && Keys(hash, [a]) == OwnKey(hash, a)
  {
    OneKey(hash, a);
    NoKeys(hash);
    FirstOfOne(hash, a);
    assert [a][..0] == [];
    assert RowsFor(hash, rows, [a]) == RowsFor(hash, rows, []) + [RowFor(hash, rows, a)];
  }

  lemma FirstOfOne(hash: string -> string, a: Job)
    ensures Firsts(hash, [a]) == [a]
  {
    var none: seq<Job> := [];
    NoKeys(hash);
    assert IsFirst(hash, none, a);
    FirstsSnoc(hash, none, a);
    assert none + [a] == [a] && Firsts(hash, none) == none;
  }

  /** A new row keeps the listing's platform, URL and title, under its identity. */
  lemma NewRowKeeps(hash: string -> string, rows: seq<Job>, job: Job)
    requires !Degenerate(hash, job) && !HasKey(rows, IdentKey(hash, job))
    ensures RowFor(hash, rows, job) == Job(job.platform, Identity(hash, job), job.url, job.title)
  {
    ByKeyFinds(rows, IdentKey(hash, job));
  }

  /** Each platform's listings are taken over where its answer stands; a platform without one adds nothing. */
  lemma {:induction false} CollectedCat(a: seq<Reply>, b: seq<Reply>)
    ensures Collected(a + b) == Collected(a) + Collected(b)
  {
    if b == [] {
      assert a + b == a;
    } else {
      var n := |b| - 1;
      assert (a + b)[..|a + b| - 1] == a + b[..n];
      CollectedCat(a, b[..n]);
    }
  }

  lemma CollectedOne(r: Reply)
    ensures Collected([r]) == match r { case Listings(jobs) => jobs case Failed => [] case Unregistered => [] }
  {
    assert [r][..0] == [];
  }

  /** A page holds the first jobs up to the limit, says how many there are, and whether some are left out. */
  lemma PageIs(all: seq<Job>, limit: nat)
    ensures var p := Page(all, limit);
      && p.items <= all && |p.items| == (if |all| < limit then |all| else limit)
      && p.total == |all| && p.pageSize == limit && (p.hasNext <==> |p.items| < |all|)
  {
  }

  class JobSearcher {
    var rows: seq<Job>
    var seen: set<Key>
    var existingByKey: map<Key, Job>
    var pending: seq<Job>
    var allJobs: seq<Job>

    constructor (rows: seq<Job>)
      ensures this.rows == rows
    {
      this.rows := rows;
      seen, existingByKey, pending, allJobs := {}, map[], [], [];
    }

    ghost function Snapshot(): Index
      reads this
    {
      Index(seen, existingByKey, pending, allJobs)
    }

    method RegisterJob(hash: string -> string, job: Job)
      modifies this
      ensures rows == old(rows) && Snapshot() == Register(hash, old(Snapshot()), job)
    {
      var ident := Identity(hash, job);
      if ident == "" {
        pending := pending + [job];
        allJobs := allJobs + [job];
        return;
      }
      var row := job.(id := ident);
      var key := (job.platform, ident);
      if key in seen {
        return;
      }
      seen := seen + {key};
      if key in existingByKey {
        allJobs := allJobs + [existingByKey[key]];
      } else {
        pending := pending + [row];
        existingByKey := existingByKey[key := row];
        allJobs := allJobs + [row];
      }
    }

    method RegisterListings(hash: string -> string, listings: seq<Job>, ghost before: seq<Job>)
      requires Snapshot() == RegisterAll(hash, rows, before)
      modifies this
      ensures rows == old(rows) && Snapshot() == RegisterAll(hash, rows, before + listings)
    {
      TakeEnds(before, listings);
      for k := 0 to |listings|
        invariant rows == old(rows) && Snapshot() == RegisterAll(hash, rows, before + listings[..k])
      {
        RegisterJob(hash, listings[k]);
        RegisterAllSnoc(hash, rows, before + listings[..k], listings[k]);
        TakeOneMore(before, listings, k);
      }
    }

    method RegisterReplies(hash: string -> string, replies: seq<Reply>)
      requires Snapshot() == RegisterAll(hash, rows, [])
      modifies this
      ensures rows == old(rows) && Snapshot() == RegisterAll(hash, rows, Collected(replies))
    {
      for k := 0 to |replies|
        invariant rows == old(rows) && Snapshot() == RegisterAll(hash, rows, Collected(replies[..k]))
      {
        CollectedSnoc(replies, k);
        if replies[k].Listings? {
          RegisterListings(hash, replies[k].jobs, Collected(replies[..k]));
        }
      }
      CollectedSnoc(replies, |replies|);
    }

    method FetchExisting()
      modifies this
      ensures rows == old(rows) && Snapshot() == Index({}, ByKey(rows), [], [])
    {
      seen, pending, allJobs := {}, [], [];
      existingByKey := map[];
      for k := 0 to |rows|
        invariant rows == old(rows) && seen == {} && pending == [] && allJobs == [] && existingByKey == ByKey(rows[..k])
      {
        existingByKey := existingByKey[KeyOf(rows[k]) := rows[k]];
        assert rows[..k + 1] == rows[..k] + [rows[k]];
        MergeSnoc(KeyOf, Self, rows[..k], rows[k]);
      }
      assert rows[..|rows|] == rows;
    }

    /** Commits what is pending; a violated constraint rolls everything back and empties the answer. */
    method Commit()
      modifies this`rows, this`pending, this`allJobs
      ensures pending == []
      ensures (rows, allJobs) ==
        if old(allJobs) == [] then (old(rows), [])
        else if Unique(old(rows) + old(pending)) then (old(rows) + old(pending), old(allJobs))
        else (old(rows), [])
    {
      if allJobs != [] {
        if Unique(rows + pending) {
          rows := rows + pending;
        } else {
          allJobs := [];
        }
      }
      pending := [];
    }

    /** `replies` are the platforms' answers; `exa` the semantic search's, nothing when it is off or fails. */
    method SearchJobs(hash: string -> string, replies: seq<Reply>, exa: seq<Job>, limit: nat) returns (r: Response)
      modifies this
      ensures replies == [] ==> rows == old(rows) && r == Page([], limit)
      ensures replies != [] ==>
        (rows, r) == (var found := Search(hash, old(rows), Collected(replies) + exa); (found.0, Page(found.1, limit)))
    {
      if replies == [] {
        return Response([], 0, limit, false);
      }
      FetchExisting();
      RegisterReplies(hash, replies);
      RegisterListings(hash, exa, Collected(replies));
      Commit();
      r := Response(if |allJobs| <= limit then allJobs else allJobs[..limit], |allJobs|, limit, |allJobs| > limit);
    }
  }
}
