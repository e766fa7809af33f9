/** Encrypted credentials: envelope encryption under a ring of keys, refining a plain map. */
module CredentialStore {
  import opened Wrappers

  type Key = string
  type Bytes = string

  datatype Kind = LlmKey | PlatformCookies
  datatype Owner = Owner(user: string, kind: Kind, provider: string)

  // A Fernet token is opened only by the key that made it; a data key is a number.
  datatype Wrapped = Wrapped(key: Key, dek: nat)
  datatype Cipher = Cipher(dek: nat, plaintext: Bytes)
  datatype Blob = Blob(kekId: string, wrapped: Wrapped, ciphertext: Cipher)
  datatype Row = Row(blob: Blob, kekId: string)

  datatype Failure = InvalidToken

  /** The keys configured now, the first one current; all keys ever configured; and the table. */
  datatype State = State(ring: seq<Key>, used: set<Key>, rows: map<Owner, Row>)

  ghost predicate InjectiveOn(kekId: Key -> string, keys: set<Key>) {
    forall a, b :: a in keys && b in keys && kekId(a) == kekId(b) ==> a == b
  }

  // ---------------------------------------------------------------- the provider

  function Encrypt(kekId: Key -> string, ring: seq<Key>, plaintext: Bytes, dek: nat): Blob
    requires ring != []
  {
    Blob(kekId(ring[0]), Wrapped(ring[0], dek), Cipher(dek, plaintext))
  }

  function Decrypt(ring: seq<Key>, blob: Blob): Result<Bytes, Failure> {
    if blob.wrapped.key in ring && blob.ciphertext.dek == blob.wrapped.dek then Ok(blob.ciphertext.plaintext)
    else Err(InvalidToken)
  }

  function Rotate(kekId: Key -> string, ring: seq<Key>, blob: Blob, dek: nat): Result<Blob, Failure>
    requires ring != []
  {
    match Decrypt(ring, blob)
    case Ok(plaintext) => Ok(Encrypt(kekId, ring, plaintext, dek))
    case Err(e) => Err(e)
  }

  // ---------------------------------------------------------------- the store

  function Put(kekId: Key -> string, s: State, owner: Owner, plaintext: Bytes, dek: nat): State
    requires s.ring != []
  {
    var blob := Encrypt(kekId, s.ring, plaintext, dek);
    s.(rows := s.rows[owner := Row(blob, blob.kekId)])
  }

  function Get(s: State, owner: Owner): Result<Option<Bytes>, Failure> {
    if owner !in s.rows then Ok(None)
    else match Decrypt(s.ring, s.rows[owner].blob)
      case Ok(plaintext) => Ok(Some(plaintext))
      case Err(e) => Err(e)
  }

  function DeleteCookies(s: State, user: string, platform: string): (State, bool) {
    var owner := Owner(user, PlatformCookies, platform);
    (s.(rows := s.rows - {owner}), owner in s.rows)
  }

  /** The rows not on the current key. */
  function Stale(rows: map<Owner, Row>, current: string): set<Owner> {
    set o | o in rows && rows[o].kekId != current
  }

  function Rewrapped(kekId: Key -> string, ring: seq<Key>, row: Row, dek: nat): Row
    requires ring != []
  {
    var r := Rotate(kekId, ring, row.blob, dek);
    if r.Ok? then Row(r.value, r.value.kekId) else row
  }

  function RewrapAll(kekId: Key -> string, ring: seq<Key>, rows: map<Owner, Row>, stale: set<Owner>, deks: Owner -> nat)
    : map<Owner, Row>
    requires ring != []
  {
    map o | o in rows :: if o in stale then Rewrapped(kekId, ring, rows[o], deks(o)) else rows[o]
  }

  /** `deks` are the data keys generated on the way. One failure leaves every row as it was. */
  function RotateAll(kekId: Key -> string, s: State, deks: Owner -> nat): (State, Result<nat, Failure>)
    requires s.ring != []
  {
    var stale := Stale(s.rows, kekId(s.ring[0]));
    if forall o :: o in stale ==> Decrypt(s.ring, s.rows[o].blob).Ok? then
      (s.(rows := RewrapAll(kekId, s.ring, s.rows, stale, deks)), Ok(|stale|))
    else (s, Err(InvalidToken))
  }

  function ChangeRing(s: State, ring: seq<Key>): State {
    s.(ring := ring, used := s.used + set k | k in ring)
  }

  // ---------------------------------------------------------------- runs

  datatype Event =
    | Stored(owner: Owner, plaintext: Bytes, dek: nat)
    | CookiesDeleted(user: string, platform: string)
    | Rotated(deks: Owner -> nat)
    | RingChanged(ring: seq<Key>)

  function Next(kekId: Key -> string, s: State, e: Event): (t: State)
    requires s.ring != [] && (e.RingChanged? ==> e.ring != [])
    ensures t.ring != []
  {
    match e
    case Stored(owner, plaintext, dek) => Put(kekId, s, owner, plaintext, dek)
    case CookiesDeleted(user, platform) => DeleteCookies(s, user, platform).0
    case Rotated(deks) => RotateAll(kekId, s, deks).0
    case RingChanged(ring) => ChangeRing(s, ring)
  }

  ghost predicate WellFormed(es: seq<Event>) {
    forall e :: e in es && e.RingChanged? ==> e.ring != []
  }

  ghost function After(kekId: Key -> string, ring: seq<Key>, es: seq<Event>): (s: State)
    requires ring != [] && WellFormed(es)
    ensures s.ring != []
  {
    if es == [] then State(ring, set k | k in ring, map[])
    else
      assert es[|es| - 1] in es;
      Next(kekId, After(kekId, ring, es[..|es| - 1]), es[|es| - 1])
  }

  /** What the caller sees: a map of plaintexts, which keys and rotations do not touch. */
  function Plain(es: seq<Event>): map<Owner, Bytes> {
    if es == [] then map[]
    else
      var before := Plain(es[..|es| - 1]);
      match es[|es| - 1]
      case Stored(owner, plaintext, _) => before[owner := plaintext]
      case CookiesDeleted(user, platform) => before - {Owner(user, PlatformCookies, platform)}
      case Rotated(_) => before
      case RingChanged(_) => before
  }

  // ---------------------------------------------------------------- the refinement

  /** The row is its plaintext under one key, and says which. */
  ghost predicate Holds(kekId: Key -> string, s: State, owner: Owner, plaintext: Bytes)
    requires owner in s.rows
  {
    var row := s.rows[owner];
    row.kekId == row.blob.kekId == kekId(row.blob.wrapped.key) && row.blob.wrapped.key in s.used &&
    row.blob.ciphertext == Cipher(row.blob.wrapped.dek, plaintext)
  }

  ghost predicate Refines(kekId: Key -> string, s: State, plain: map<Owner, Bytes>) {
    s.rows.Keys == plain.Keys && (forall o :: o in s.rows ==> Holds(kekId, s, o, plain[o])) &&
    s.ring != [] && forall k :: k in s.ring ==> k in s.used
  }

  /** The key an owner's row needs is still on the ring. */
  predicate Openable(s: State, owner: Owner) {
    owner in s.rows ==> s.rows[owner].blob.wrapped.key in s.ring
  }

  lemma RotateRefines(kekId: Key -> string, s: State, deks: Owner -> nat, plain: map<Owner, Bytes>)
    requires Refines(kekId, s, plain)
    ensures Refines(kekId, RotateAll(kekId, s, deks).0, plain)
  {
    var t := RotateAll(kekId, s, deks).0;
    forall o | o in t.rows
      ensures Holds(kekId, t, o, plain[o])
    {
      assert Holds(kekId, s, o, plain[o]);
    }
  }

  lemma OtherStepsRefine(kekId: Key -> string, s: State, e: Event, plain: map<Owner, Bytes>, after: map<Owner, Bytes>)
    requires Refines(kekId, s, plain) && !e.Rotated? && (e.RingChanged? ==> e.ring != [])
    requires match e
      case Stored(owner, plaintext, _) => after == plain[owner := plaintext]
      case CookiesDeleted(user, platform) => after == plain - {Owner(user, PlatformCookies, platform)}
      case _ => after == plain
    ensures Refines(kekId, Next(kekId, s, e), after)
  {
    var t := Next(kekId, s, e);
    forall o | o in t.rows
      ensures Holds(kekId, t, o, after[o])
    {
      if o in s.rows { assert Holds(kekId, s, o, plain[o]); }
    }
  }

  /** Through any puts, deletions, rotations and key-ring changes the store refines the plain map. */
  lemma {:induction false} StoreRefinesPlainMap(kekId: Key -> string, ring: seq<Key>, es: seq<Event>)
    requires ring != [] && WellFormed(es)
    ensures Refines(kekId, After(kekId, ring, es), Plain(es))
  {
    if es != [] {
      var before, e := es[..|es| - 1], es[|es| - 1];
      StoreRefinesPlainMap(kekId, ring, before);
      assert e in es;
      if e.Rotated? {
        RotateRefines(kekId, After(kekId, ring, before), e.deks, Plain(before));
      } else {
        OtherStepsRefine(kekId, After(kekId, ring, before), e, Plain(before), Plain(es));
      }
    }
  }

  /** A read gives the plain map's value exactly when the key of the row is on the ring; otherwise it
      fails. It is never wrong. */
  lemma ReadIsPlainIff(kekId: Key -> string, ring: seq<Key>, es: seq<Event>, owner: Owner)
    requires ring != [] && WellFormed(es)
    ensures var s, plain := After(kekId, ring, es), Plain(es);
      && (Get(s, owner) == Ok(if owner in plain then Some(plain[owner]) else None) <==> Openable(s, owner))
      && (Get(s, owner).Err? <==> !Openable(s, owner))
  {
    StoreRefinesPlainMap(kekId, ring, es);
    var s := After(kekId, ring, es);
    if owner in s.rows { assert Holds(kekId, s, owner, Plain(es)[owner]); }
  }

  /** Key-ring changes that keep the keys the rows need. */
  ghost predicate KeepsKeys(kekId: Key -> string, ring: seq<Key>, es: seq<Event>)
    requires ring != [] && WellFormed(es)
  {
    forall n :: 0 <= n < |es| && es[n].RingChanged? ==>
      forall o :: o in After(kekId, ring, es[..n]).rows ==>
        After(kekId, ring, es[..n]).rows[o].blob.wrapped.key in es[n].ring
  }

  lemma RotateKeepsOpenable(kekId: Key -> string, s: State, deks: Owner -> nat)
    requires s.ring != [] && forall o :: Openable(s, o)
    ensures forall o :: Openable(RotateAll(kekId, s, deks).0, o)
  {
    var t := RotateAll(kekId, s, deks).0;
    forall o
      ensures Openable(t, o)
    {
      assert Openable(s, o);
    }
  }

  lemma {:induction false} AllStayOpenable(kekId: Key -> string, ring: seq<Key>, es: seq<Event>)
    requires ring != [] && WellFormed(es) && KeepsKeys(kekId, ring, es)
    ensures forall o :: Openable(After(kekId, ring, es), o)
  {
    if es != [] {
      var n := |es| - 1;
      var before, e := es[..n], es[n];
      assert forall i :: 0 <= i < n ==> before[..i] == es[..i];
      AllStayOpenable(kekId, ring, before);
      assert e in es;
      if e.Rotated? {
        RotateKeepsOpenable(kekId, After(kekId, ring, before), e.deks);
      } else {
        forall o
          ensures Openable(After(kekId, ring, es), o)
        {
          assert Openable(After(kekId, ring, before), o);
        }
      }
    }
  }

  /** As long as needed keys are kept, every read is the plain map's. */
  lemma KeptKeysReadPlain(kekId: Key -> string, ring: seq<Key>, es: seq<Event>, owner: Owner)
    requires ring != [] && WellFormed(es) && KeepsKeys(kekId, ring, es)
    ensures Get(After(kekId, ring, es), owner) == Ok(if owner in Plain(es) then Some(Plain(es)[owner]) else None)
  {
    AllStayOpenable(kekId, ring, es);
    ReadIsPlainIff(kekId, ring, es, owner);
    assert Openable(After(kekId, ring, es), owner);
  }

  // ---------------------------------------------------------------- rotation

  function Elsewhere(s: State): set<Owner>
    requires s.ring != []
  {
    set o | o in s.rows && s.rows[o].blob.wrapped.key != s.ring[0]
  }

  lemma StaleIsElsewhere(kekId: Key -> string, s: State, plain: map<Owner, Bytes>)
    requires Refines(kekId, s, plain) && InjectiveOn(kekId, s.used)
    ensures Stale(s.rows, kekId(s.ring[0])) == Elsewhere(s)
  {
    forall o | o in s.rows
      ensures o in Stale(s.rows, kekId(s.ring[0])) <==> o in Elsewhere(s)
    {
      assert Holds(kekId, s, o, plain[o]);
      assert s.ring[0] in s.used;
    }
  }

  lemma RotationSucceedsIff(kekId: Key -> string, s: State, plain: map<Owner, Bytes>, deks: Owner -> nat)
    requires Refines(kekId, s, plain) && InjectiveOn(kekId, s.used)
    ensures RotateAll(kekId, s, deks).1.Ok? <==> forall o :: Openable(s, o)
  {
    StaleIsElsewhere(kekId, s, plain);
    forall o | o in s.rows
      ensures Openable(s, o) <==> (o in Elsewhere(s) ==> Decrypt(s.ring, s.rows[o].blob).Ok?)
    {
      assert Holds(kekId, s, o, plain[o]);
    }
    if RotateAll(kekId, s, deks).1.Ok? {
      forall o ensures Openable(s, o) {}
    } else {
      var o :| o in Elsewhere(s) && Decrypt(s.ring, s.rows[o].blob).Err?;
      assert !Openable(s, o);
    }
  }

  lemma RotatedIsCurrent(kekId: Key -> string, s: State, plain: map<Owner, Bytes>, deks: Owner -> nat, o: Owner)
    requires Refines(kekId, s, plain) && InjectiveOn(kekId, s.used) && RotateAll(kekId, s, deks).1.Ok? && o in s.rows
    ensures var t := RotateAll(kekId, s, deks).0;
      o in t.rows && t.rows[o].kekId == kekId(s.ring[0]) && Decrypt([s.ring[0]], t.rows[o].blob) == Ok(plain[o])
  {
    StaleIsElsewhere(kekId, s, plain);
    assert Holds(kekId, s, o, plain[o]);
    assert o in s.rows && (o in Elsewhere(s) || s.rows[o].blob.wrapped.key == s.ring[0]);
  }

  lemma SecondRotation(kekId: Key -> string, s: State, again: Owner -> nat)
    requires s.ring != [] && forall o :: o in s.rows ==> s.rows[o].kekId == kekId(s.ring[0])
    ensures RotateAll(kekId, s, again) == (s, Ok(0))
  {
    assert Stale(s.rows, kekId(s.ring[0])) == {};
    assert RewrapAll(kekId, s.ring, s.rows, {}, again) == s.rows;
  }

  /** Rotation succeeds exactly when the ring opens every row; otherwise it changes none. It counts the
      rows under another key. */
  lemma RotationIsAllOrNothing(kekId: Key -> string, ring: seq<Key>, es: seq<Event>, deks: Owner -> nat)
    requires ring != [] && WellFormed(es) && InjectiveOn(kekId, After(kekId, ring, es).used)
    ensures var s := After(kekId, ring, es); var (t, r) := RotateAll(kekId, s, deks);
      && (r.Ok? <==> forall o :: Openable(s, o))
      && (r.Ok? ==> r.value == |Elsewhere(s)|)
      && (r.Err? ==> t == s)
  {
    StoreRefinesPlainMap(kekId, ring, es);
    RotationSucceedsIff(kekId, After(kekId, ring, es), Plain(es), deks);
    StaleIsElsewhere(kekId, After(kekId, ring, es), Plain(es));
  }

  /** After a rotation the current key alone opens every row, and a second rotation touches none. */
  lemma RotationIsComplete(kekId: Key -> string, ring: seq<Key>, es: seq<Event>, deks: Owner -> nat,
                           again: Owner -> nat, o: Owner)
    requires ring != [] && WellFormed(es) && InjectiveOn(kekId, After(kekId, ring, es).used)
    requires RotateAll(kekId, After(kekId, ring, es), deks).1.Ok?
    ensures var s := After(kekId, ring, es); var t := RotateAll(kekId, s, deks).0;
      && Get(ChangeRing(t, [s.ring[0]]), o) == Ok(if o in Plain(es) then Some(Plain(es)[o]) else None)
      && RotateAll(kekId, t, again) == (t, Ok(0))
  {
    var s := After(kekId, ring, es);
    StoreRefinesPlainMap(kekId, ring, es);
    forall x | x in s.rows
      ensures RotateAll(kekId, s, deks).0.rows[x].kekId == kekId(s.ring[0])
    {
      RotatedIsCurrent(kekId, s, Plain(es), deks, x);
    }
    if o in s.rows { RotatedIsCurrent(kekId, s, Plain(es), deks, o); }
    SecondRotation(kekId, RotateAll(kekId, s, deks).0, again);
  }

  lemma RewrapOne(kekId: Key -> string, ring: seq<Key>, rows: map<Owner, Row>, done: set<Owner>, deks: Owner -> nat,
                  o: Owner)
    requires ring != [] && o in rows
    ensures RewrapAll(kekId, ring, rows, done + {o}, deks) ==
      RewrapAll(kekId, ring, rows, done, deks)[o := Rewrapped(kekId, ring, rows[o], deks(o))]
  {
  }

  // ---------------------------------------------------------------- single operations

  /** A value is stored under the current key and its own data key; no other row changes. */
  lemma PutUsesTheCurrentKey(kekId: Key -> string, s: State, owner: Owner, plaintext: Bytes, dek: nat)
    requires s.ring != []
    ensures var t := Put(kekId, s, owner, plaintext, dek);
      && t == s.(rows := t.rows) && owner in t.rows && t.rows - {owner} == s.rows - {owner}
      && t.rows[owner].blob.wrapped == Wrapped(s.ring[0], dek)
      && t.rows[owner].blob.ciphertext == Cipher(dek, plaintext)
      && t.rows[owner].kekId == t.rows[owner].blob.kekId == kekId(s.ring[0])
  {
    assert Put(kekId, s, owner, plaintext, dek).rows - {owner} == s.rows - {owner};
  }

  /** Deleting a platform's cookies says whether there were any, and removes that row alone. */
  lemma DeletingCookies(s: State, user: string, platform: string)
    ensures var (t, removed) := DeleteCookies(s, user, platform); var owner := Owner(user, PlatformCookies, platform);
      && (removed <==> owner in s.rows)
      && t == s.(rows := t.rows) && owner !in t.rows
      && forall o :: o != owner ==> (o in t.rows <==> o in s.rows) && (o in s.rows ==> t.rows[o] == s.rows[o])
  {
  }

  /** A rotation that succeeds wraps every row of another key afresh under the current one, with a data key of
      its own and the same plaintext, and leaves the rows of the current key alone. */
  lemma RotationRewraps(kekId: Key -> string, s: State, deks: Owner -> nat, o: Owner)
    requires s.ring != [] && RotateAll(kekId, s, deks).1.Ok? && o in s.rows
    ensures var t := RotateAll(kekId, s, deks).0;
      && t == s.(rows := t.rows) && o in t.rows && t.rows.Keys == s.rows.Keys
      && (s.rows[o].kekId == kekId(s.ring[0]) ==> t.rows[o] == s.rows[o])
      && (s.rows[o].kekId != kekId(s.ring[0]) ==>
            t.rows[o].blob.wrapped == Wrapped(s.ring[0], deks(o)) && t.rows[o].kekId == kekId(s.ring[0]) &&
            t.rows[o].blob.ciphertext == Cipher(deks(o), s.rows[o].blob.ciphertext.plaintext))
  {
    assert o in Stale(s.rows, kekId(s.ring[0])) <==> s.rows[o].kekId != kekId(s.ring[0]);
  }

  // ---------------------------------------------------------------- the store itself

  class Store {
    var ring: seq<Key>
    var rows: map<Owner, Row>
    ghost var used: set<Key>

    ghost function Snapshot(): State
      reads this
    {
      State(ring, used, rows)
    }

    constructor (ring: seq<Key>)
      requires ring != []
      ensures Snapshot() == State(ring, set k | k in ring, map[])
    {
      this.ring := ring;
      rows := map[];
      used := set k | k in ring;
    }

    method PutCredential(kekId: Key -> string, owner: Owner, plaintext: Bytes, dek: nat)
      requires ring != []
      modifies this`rows
      ensures Snapshot() == Put(kekId, old(Snapshot()), owner, plaintext, dek)
    {
      var blob := Encrypt(kekId, ring, plaintext, dek);
      if owner in rows {
        var existing := rows[owner];
        rows := rows[owner := existing.(blob := blob, kekId := blob.kekId)];
      } else {
        rows := rows[owner := Row(blob, blob.kekId)];
      }
    }

    method GetCredential(owner: Owner) returns (r: Result<Option<Bytes>, Failure>)
      ensures r == Get(Snapshot(), owner)
    {
      if owner !in rows {
        return Ok(None);
      }
      var plaintext := Decrypt(ring, rows[owner].blob);
      if plaintext.Err? {
        return Err(plaintext.error);
      }
      r := Ok(Some(plaintext.value));
    }

    method PutLlmKey(kekId: Key -> string, user: string, provider: string, apiKey: Bytes, dek: nat)
      requires ring != []
      modifies this`rows
      ensures Get(Snapshot(), Owner(user, LlmKey, provider)) == Ok(Some(apiKey))
      ensures forall o :: o != Owner(user, LlmKey, provider) ==> Get(Snapshot(), o) == Get(old(Snapshot()), o)
    {
      PutCredential(kekId, Owner(user, LlmKey, provider), apiKey, dek);
    }

    method GetLlmKey(user: string, provider: string) returns (r: Result<Option<Bytes>, Failure>)
      ensures r == Get(Snapshot(), Owner(user, LlmKey, provider))
    {
      r := GetCredential(Owner(user, LlmKey, provider));
    }

    method SaveSessionCookies(kekId: Key -> string, user: string, platform: string, cookies: Bytes, dek: nat)
      requires ring != []
      modifies this`rows
      ensures Get(Snapshot(), Owner(user, PlatformCookies, platform)) == Ok(Some(cookies))
      ensures forall o :: o != Owner(user, PlatformCookies, platform) ==> Get(Snapshot(), o) == Get(old(Snapshot()), o)
    {
      PutCredential(kekId, Owner(user, PlatformCookies, platform), cookies, dek);
    }

    method LoadSessionCookies(user: string, platform: string) returns (r: Result<Option<Bytes>, Failure>)
      ensures r == Get(Snapshot(), Owner(user, PlatformCookies, platform))
    {
      r := GetCredential(Owner(user, PlatformCookies, platform));
    }

    method DeleteSessionCookies(user: string, platform: string) returns (removed: bool)
      modifies this`rows
      ensures (Snapshot(), removed) == DeleteCookies(old(Snapshot()), user, platform)
    {
      var owner := Owner(user, PlatformCookies, platform);
      removed := owner in rows;
      rows := rows - {owner};
    }

    /** The rows are read in any order; what was written on the way is lost unless the end is reached. */
    method RotateRows(kekId: Key -> string, deks: Owner -> nat) returns (r: Result<nat, Failure>)
      requires ring != []
      modifies this`rows
      ensures (Snapshot(), r) == RotateAll(kekId, old(Snapshot()), deks)
    {
      var current := kekId(ring[0]);
      ghost var stale := Stale(rows, current);
      var staged := rows;
      var left := rows.Keys;
      ghost var done: set<Owner> := {};
      var rotated := 0;
      assert RewrapAll(kekId, ring, rows, {}, deks) == rows;
      while left != {}
        invariant rows == old(rows) && left <= rows.Keys
        invariant done <= stale && stale - done <= left && done !! left && rotated == |done|
        invariant staged == RewrapAll(kekId, ring, rows, done, deks)
        invariant forall o :: o in done ==> Decrypt(ring, rows[o].blob).Ok?
        decreases left
      {
        var o :| o in left;
        left := left - {o};
        if staged[o].kekId != current {
          var blob := Rotate(kekId, ring, staged[o].blob, deks(o));
          if blob.Err? {
            assert o in stale && Decrypt(ring, rows[o].blob).Err?;
            return Err(blob.error);
          }
          staged := staged[o := Row(blob.value, blob.value.kekId)];
          rotated := rotated + 1;
          RewrapOne(kekId, ring, rows, done, deks, o);
          done := done + {o};
        }
      }
      assert done == stale;
      if rotated > 0 {
        rows := staged;
      } else {
        assert done == {};
      }
      r := Ok(rotated);
    }
  }
}
