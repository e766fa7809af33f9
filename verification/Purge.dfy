/** The purge of an account: a user's files, then the rows of twelve tables child first, then the user. */
module Purge {
  type UserId = string
  type FileKey = string

  datatype Table =
    | RunVerdicts | RunDiagnoses | RunTrajectories | Applications | Resumes | Jobs | LLMUsages | UserCredentials
    | UserLLMConfigs | UserSettings | PlatformSessions | RefreshTokens | PasswordResetTokens | Users

  datatype RowKey = RowKey(table: Table, id: string)

  /** A row: the user it belongs to, and the rows its foreign keys name. */
  datatype Row = Row(owner: UserId, refs: set<RowKey>)

  type Database = map<RowKey, Row>

  const DELETE_ORDER: seq<Table> := [
    RunVerdicts, RunDiagnoses, RunTrajectories, Applications, Resumes, Jobs, LLMUsages, UserCredentials,
    UserLLMConfigs, UserSettings, PlatformSessions, RefreshTokens]

  /** The tables a table's foreign keys point to, besides the user. */
  function Targets(table: Table): set<Table> {
    match table
    case RunVerdicts => {RunTrajectories}
    case RunDiagnoses => {RunTrajectories}
    case Applications => {Jobs, Resumes}
    case Resumes => {Jobs, Resumes}
    case _ => {}
  }

  ghost predicate SchemaOk(db: Database) {
    forall k, r :: k in db && r in db[k].refs ==> r.table in Targets(k.table)
  }

  /** A user's row is its own; foreign keys stay within one user's rows. */
  ghost predicate WithinUsers(db: Database) {
    (forall k :: k in db && k.table == Users ==> db[k].owner == k.id) &&
    (forall k, r :: k in db && r in db[k].refs && r in db ==> db[r].owner == db[k].owner)
  }

  ghost predicate Dangles(db: Database, k: RowKey)
    requires k in db
  {
    (exists r :: r in db[k].refs && r !in db) || (k.table != Users && RowKey(Users, db[k].owner) !in db)
  }

  ghost predicate NoDangling(db: Database) {
    forall k :: k in db ==> !Dangles(db, k)
  }

  // ---------------------------------------------------------------- deleting rows

  function Owned(db: Database, tables: set<Table>, user: UserId): set<RowKey> {
    set k | k in db && k.table in tables && db[k].owner == user
  }

  /** `DELETE FROM table WHERE user_id = user`, without help from the database's cascades. */
  function DeleteFrom(db: Database, table: Table, user: UserId): Database {
    db - Owned(db, {table}, user)
  }

  function Purged(db: Database, order: seq<Table>, user: UserId): Database {
    if order == [] then db else DeleteFrom(Purged(db, order[..|order| - 1], user), order[|order| - 1], user)
  }

  function TableSet(order: seq<Table>): set<Table> {
    set t | t in order
  }

  lemma {:induction false} PurgedIsWithout(db: Database, order: seq<Table>, user: UserId)
    ensures Purged(db, order, user) == db - Owned(db, TableSet(order), user)
  {
    if order == [] {
      assert Owned(db, TableSet(order), user) == {};
    } else {
      var n := |order| - 1;
      PurgedIsWithout(db, order[..n], user);
      assert forall t :: t in order <==> t in order[..n] || t == order[n];
      assert Owned(db, TableSet(order), user) ==
        Owned(db, TableSet(order[..n]), user) + Owned(Purged(db, order[..n], user), {order[n]}, user);
    }
  }

  /** A table comes no later than the tables it points to. */
  lemma ChildFirst(k: nat, child: Table, parent: Table)
    requires k <= |DELETE_ORDER| && parent in Targets(child) && parent in DELETE_ORDER[..k]
    ensures child in DELETE_ORDER[..k]
  {
    var i :| 0 <= i < k && DELETE_ORDER[i] == parent;
    assert DELETE_ORDER[0] == RunVerdicts && DELETE_ORDER[1] == RunDiagnoses;
    assert DELETE_ORDER[3] == Applications && DELETE_ORDER[4] == Resumes;
    assert DELETE_ORDER[..k][i] == parent;
    match child
    case RunVerdicts => assert DELETE_ORDER[..k][0] == child;
    case RunDiagnoses => assert DELETE_ORDER[..k][1] == child;
    case Applications => assert DELETE_ORDER[..k][3] == child;
    case Resumes => assert DELETE_ORDER[..k][4] == child;
    case _ =>
  }

  /** No foreign key dangles after any of the twelve deletes. */
  lemma NothingDanglesOnTheWay(db: Database, user: UserId, k: nat)
    requires SchemaOk(db) && WithinUsers(db) && NoDangling(db) && k <= |DELETE_ORDER|
    ensures NoDangling(Purged(db, DELETE_ORDER[..k], user))
  {
    PurgedIsWithout(db, DELETE_ORDER[..k], user);
    var left := Purged(db, DELETE_ORDER[..k], user);
    forall c | c in left
      ensures !Dangles(left, c)
    {
      assert !Dangles(db, c);
      forall r | r in db[c].refs
        ensures r in left
      {
        if r in Owned(db, TableSet(DELETE_ORDER[..k]), user) {
          ChildFirst(k, c.table, r.table);
        }
      }
    }
  }

  /** The rows after the whole purge, the user's own last. */
  function AfterPurge(db: Database, user: UserId): Database {
    Purged(db, DELETE_ORDER, user) - {RowKey(Users, user)}
  }

  lemma AfterPurgeIsWithout(db: Database, user: UserId)
    ensures AfterPurge(db, user) == db - (Owned(db, TableSet(DELETE_ORDER), user) + {RowKey(Users, user)})
  {
    PurgedIsWithout(db, DELETE_ORDER, user);
  }

  lemma InOrder(table: Table)
    ensures table in TableSet(DELETE_ORDER) <==> table != PasswordResetTokens && table != Users
  {
    assert DELETE_ORDER[0] == RunVerdicts && DELETE_ORDER[1] == RunDiagnoses && DELETE_ORDER[2] == RunTrajectories;
    assert DELETE_ORDER[3] == Applications && DELETE_ORDER[4] == Resumes && DELETE_ORDER[5] == Jobs;
    assert DELETE_ORDER[6] == LLMUsages && DELETE_ORDER[7] == UserCredentials && DELETE_ORDER[8] == UserLLMConfigs;
    assert DELETE_ORDER[9] == UserSettings && DELETE_ORDER[10] == PlatformSessions && DELETE_ORDER[11] == RefreshTokens;
  }

  /** A row is gone exactly when it is the user's and not a password-reset token; the others are unchanged. */
  lemma PurgeRemovesExactly(db: Database, user: UserId, k: RowKey)
    requires WithinUsers(db) && k in db
    ensures k in AfterPurge(db, user) <==> db[k].owner != user || k.table == PasswordResetTokens
    ensures k in AfterPurge(db, user) ==> AfterPurge(db, user)[k] == db[k]
  {
    AfterPurgeIsWithout(db, user);
    InOrder(k.table);
  }

  /** A row that stays keeps the rows it names. */
  lemma ReferencesStay(db: Database, user: UserId, k: RowKey, r: RowKey)
    requires SchemaOk(db) && WithinUsers(db) && k in db && k in AfterPurge(db, user)
    requires r in db[k].refs && r in db
    ensures r in AfterPurge(db, user)
  {
    PurgeRemovesExactly(db, user, k);
    PurgeRemovesExactly(db, user, r);
  }

  lemma UserStaysIff(db: Database, user: UserId, u: UserId)
    requires WithinUsers(db) && RowKey(Users, u) in db
    ensures RowKey(Users, u) in AfterPurge(db, user) <==> u != user
  {
    PurgeRemovesExactly(db, user, RowKey(Users, u));
  }

  /** What dangles after the purge is a password-reset token of the user. */
  lemma DanglesAfterPurgeIff(db: Database, user: UserId, k: RowKey)
    requires SchemaOk(db) && WithinUsers(db) && NoDangling(db) && k in db && k in AfterPurge(db, user)
    ensures Dangles(AfterPurge(db, user), k) <==> k.table == PasswordResetTokens && db[k].owner == user
  {
    PurgeRemovesExactly(db, user, k);
    assert !Dangles(db, k);
    if k.table != Users { UserStaysIff(db, user, db[k].owner); }
    forall r | r in db[k].refs
      ensures r in AfterPurge(db, user)
    {
      ReferencesStay(db, user, k, r);
    }
  }

  /** The explicit deletes leave no dangling reference exactly when the user has no password-reset token:
      those alone rely on the database's cascade. */
  lemma NothingDanglesAtTheEndIff(db: Database, user: UserId)
    requires SchemaOk(db) && WithinUsers(db) && NoDangling(db)
    ensures NoDangling(AfterPurge(db, user)) <==> Owned(db, {PasswordResetTokens}, user) == {}
  {
    var left := AfterPurge(db, user);
    AfterPurgeIsWithout(db, user);
    forall k | k in left
      ensures Dangles(left, k) <==> k in Owned(db, {PasswordResetTokens}, user)
    {
      DanglesAfterPurgeIff(db, user, k);
    }
    forall k | k in Owned(db, {PasswordResetTokens}, user)
      ensures k in left
    {
      PurgeRemovesExactly(db, user, k);
    }
  }

  // ---------------------------------------------------------------- files

  function UserPrefix(user: UserId): FileKey {
    "users/" + user
  }

  predicate StartsWith(key: FileKey, prefix: FileKey) {
    prefix <= key
  }

  /** The tenant check of the storage facade. */
  predicate Confined(user: UserId, key: FileKey) {
    key == UserPrefix(user) || StartsWith(key, UserPrefix(user) + "/")
  }

  function Under(files: set<FileKey>, prefix: FileKey): set<FileKey> {
    set key | key in files && StartsWith(key, prefix)
  }

  function ResumeKey(user: UserId, id: string, ext: string): FileKey {
    UserPrefix(user) + "/resumes/" + id + "." + ext
  }

  function UploadKey(user: UserId, id: string, ext: string): FileKey {
    UserPrefix(user) + "/uploads/" + id + "." + ext
  }

  function CoverLetterKey(user: UserId, application: string, ext: string): FileKey {
    UserPrefix(user) + "/cover_letters/" + application + "." + ext
  }

  function ScreenshotKey(user: UserId, application: string, name: string): FileKey {
    UserPrefix(user) + "/screenshots/" + application + "/" + name
  }

  function TrajectoryKey(user: UserId, run: string): FileKey {
    UserPrefix(user) + "/trajectories/" + run + ".json"
  }

  lemma UnderItsUser(user: UserId, folder: string, rest: string)
    requires folder != "" && folder[0] == '/'
    ensures StartsWith(UserPrefix(user) + folder + rest, UserPrefix(user) + "/")
  {
    assert (UserPrefix(user) + folder + rest)[|UserPrefix(user)|] == '/';
  }

  predicate IsTheUsers(user: UserId, key: FileKey) {
    Confined(user, key) && Under({key}, UserPrefix(user) + "/") == {key}
  }

  /** Every key the builders make passes its user's check and is removed with the user's tree. */
  lemma BuiltKeysAreTheUsers(user: UserId, id: string, ext: string)
    ensures IsTheUsers(user, ResumeKey(user, id, ext)) && IsTheUsers(user, UploadKey(user, id, ext))
    ensures IsTheUsers(user, CoverLetterKey(user, id, ext)) && IsTheUsers(user, ScreenshotKey(user, id, ext))
    ensures IsTheUsers(user, TrajectoryKey(user, id))
  {
    BuiltUnder(user, id, ext);
    UnderItsUser(user, "/resumes/", id + "." + ext);
    UnderItsUser(user, "/uploads/", id + "." + ext);
    UnderItsUser(user, "/cover_letters/", id + "." + ext);
    UnderItsUser(user, "/screenshots/", id + "/" + ext);
    UnderItsUser(user, "/trajectories/", id + ".json");
  }

  lemma BuiltUnder(user: UserId, id: string, ext: string)
    ensures var p := UserPrefix(user);
      && ResumeKey(user, id, ext) == p + "/resumes/" + (id + "." + ext)
      && UploadKey(user, id, ext) == p + "/uploads/" + (id + "." + ext)
      && CoverLetterKey(user, id, ext) == p + "/cover_letters/" + (id + "." + ext)
      && ScreenshotKey(user, id, ext) == p + "/screenshots/" + (id + "/" + ext)
      && TrajectoryKey(user, id) == p + "/trajectories/" + (id + ".json")
  {
    var p := UserPrefix(user);
    assert ResumeKey(user, id, ext) == p + "/resumes/" + (id + "." + ext);
    assert UploadKey(user, id, ext) == p + "/uploads/" + (id + "." + ext);
    assert CoverLetterKey(user, id, ext) == p + "/cover_letters/" + (id + "." + ext);
    assert ScreenshotKey(user, id, ext) == p + "/screenshots/" + (id + "/" + ext);
    assert TrajectoryKey(user, id) == p + "/trajectories/" + (id + ".json");
  }

  lemma FolderApart(user: UserId, a: string, b: string, x: string, y: string)
    requires |a| > 1 && |b| > 1 && a[1] != b[1]
    ensures UserPrefix(user) + a + x != UserPrefix(user) + b + y
  {
    var n := |UserPrefix(user)|;
    assert (UserPrefix(user) + a + x)[n + 1] == a[1] && (UserPrefix(user) + b + y)[n + 1] == b[1];
  }

  /** The folders differ, so a resume, an upload, a cover letter, a screenshot and a trajectory of a user never
      share a key. */
  lemma KindsKeepApart(user: UserId, a: string, b: string, c: string, d: string)
    ensures ResumeKey(user, a, b) != UploadKey(user, c, d) && ResumeKey(user, a, b) != CoverLetterKey(user, c, d)
    ensures ResumeKey(user, a, b) != ScreenshotKey(user, c, d) && ResumeKey(user, a, b) != TrajectoryKey(user, c)
    ensures UploadKey(user, a, b) != CoverLetterKey(user, c, d) && UploadKey(user, a, b) != ScreenshotKey(user, c, d)
    ensures UploadKey(user, a, b) != TrajectoryKey(user, c) && CoverLetterKey(user, a, b) != ScreenshotKey(user, c, d)
    ensures CoverLetterKey(user, a, b) != TrajectoryKey(user, c) && ScreenshotKey(user, a, b) != TrajectoryKey(user, c)
  {
    BuiltUnder(user, a, b);
    BuiltUnder(user, c, d);
    FolderApart(user, "/resumes/", "/uploads/", a + "." + b, c + "." + d);
    FolderApart(user, "/resumes/", "/cover_letters/", a + "." + b, c + "." + d);
    FolderApart(user, "/resumes/", "/screenshots/", a + "." + b, c + "/" + d);
    FolderApart(user, "/resumes/", "/trajectories/", a + "." + b, c + ".json");
    FolderApart(user, "/uploads/", "/cover_letters/", a + "." + b, c + "." + d);
    FolderApart(user, "/uploads/", "/screenshots/", a + "." + b, c + "/" + d);
    FolderApart(user, "/uploads/", "/trajectories/", a + "." + b, c + ".json");
    FolderApart(user, "/cover_letters/", "/screenshots/", a + "." + b, c + "/" + d);
    FolderApart(user, "/cover_letters/", "/trajectories/", a + "." + b, c + ".json");
    FolderApart(user, "/screenshots/", "/trajectories/", a + "/" + b, c + ".json");
  }

  /** Two users' trees share a key exactly when one id continues the other after a slash. */
  lemma TreesMeetIff(u: UserId, v: UserId)
    ensures (exists key :: Confined(u, key) && Confined(v, key)) <==> u == v || u + "/" <= v || v + "/" <= u
  {
    var pu, pv := UserPrefix(u), UserPrefix(v);
    if u == v {
      assert Confined(u, pu) && Confined(v, pu);
    } else if u + "/" <= v {
      PrefixedPrefix(u, v);
      assert Confined(u, pv) && Confined(v, pv);
    } else if v + "/" <= u {
      PrefixedPrefix(v, u);
      assert Confined(v, pu) && Confined(u, pu);
    }
    if key :| Confined(u, key) && Confined(v, key) {
      if |u| <= |v| { SharedKey(u, v, key); } else { SharedKey(v, u, key); }
    }
  }

  lemma PrefixedPrefix(u: UserId, v: UserId)
    requires u + "/" <= v
    ensures StartsWith(UserPrefix(v), UserPrefix(u) + "/")
  {
    var w := v[|u| + 1..];
    assert v == u + "/" + w;
    assert UserPrefix(v) == UserPrefix(u) + "/" + w;
  }

  lemma SharedKey(u: UserId, v: UserId, key: FileKey)
    requires |u| <= |v| && Confined(u, key) && Confined(v, key)
    ensures u == v || u + "/" <= v
  {
    var pu, pv := UserPrefix(u), UserPrefix(v);
    assert pu <= key && pv <= key;
    assert forall i :: 0 <= i < |u| ==> u[i] == pu[6 + i] == key[6 + i] == pv[6 + i] == v[i];
    if |u| < |v| {
      assert key[|pu|] == (pu + "/")[|pu|] == '/';
      assert v[|u|] == pv[6 + |u|] == key[6 + |u|];
      assert v[..|u| + 1] == u + "/";
    }
  }

  lemma SlashInside(u: UserId, v: UserId)
    ensures u + "/" <= v ==> '/' in v
  {
    assert (u + "/")[|u|] == '/';
  }

  /** Ids are generated without slashes, so no checked key of one user is another's. */
  lemma TreesAreDisjoint(u: UserId, v: UserId, key: FileKey)
    requires '/' !in u && '/' !in v && Confined(u, key) && Confined(v, key)
    ensures u == v
  {
    TreesMeetIff(u, v);
    SlashInside(u, v);
    SlashInside(v, u);
  }

  // ---------------------------------------------------------------- the purge itself

  datatype Denied = OutsideTenant
  datatype Report = Report(rowsDeleted: nat, filesRemoved: nat, purged: nat)

  lemma OneMoreTable(db: Database, order: seq<Table>, user: UserId, k: nat)
    requires k < |order| && forall i, j :: 0 <= i < j < |order| ==> order[i] != order[j]
    ensures Purged(db, order[..k + 1], user) == DeleteFrom(Purged(db, order[..k], user), order[k], user)
    ensures Owned(db, TableSet(order[..k + 1]), user) ==
      Owned(db, TableSet(order[..k]), user) + Owned(db, {order[k]}, user)
    ensures Owned(db, TableSet(order[..k]), user) !! Owned(db, {order[k]}, user)
    ensures Owned(Purged(db, order[..k], user), {order[k]}, user) == Owned(db, {order[k]}, user)
  {
    assert order[..k + 1][..k] == order[..k];
    assert forall t :: t in order[..k + 1] <==> t in order[..k] || t == order[k];
    PurgedIsWithout(db, order[..k], user);
  }

  lemma EachTableOnce()
    ensures forall i, j :: 0 <= i < j < |DELETE_ORDER| ==> DELETE_ORDER[i] != DELETE_ORDER[j]
  {
  }

  class Account {
    var db: Database
    var files: set<FileKey>

    constructor (db: Database, files: set<FileKey>)
      ensures this.db == db && this.files == files
    {
      this.db, this.files := db, files;
    }

    method PutFile(user: UserId, key: FileKey) returns (ok: bool)
      modifies this`files
      ensures ok <==> key == "users/" + user || "users/" + user + "/" <= key
      ensures files == if ok then old(files) + {key} else old(files)
    {
      ok := key == UserPrefix(user) || StartsWith(key, UserPrefix(user) + "/");
      if ok {
        files := files + {key};
      }
    }

    /** Deletes what starts with `prefix`, if that is the user's. The storage may fail after having removed
        some of it, `partial`. */
    method DeletePrefix(user: UserId, prefix: FileKey, fails: bool, partial: set<FileKey>)
      returns (ok: bool, removed: nat)
      modifies this`files
      ensures ok <==> !fails && (prefix == "users/" + user || "users/" + user + "/" <= prefix)
      ensures ok ==> files == old(files) - Under(old(files), prefix) && removed == |Under(old(files), prefix)|
      ensures !ok ==> old(files) - Under(old(files), prefix) <= files <= old(files)
    {
      ok, removed := false, 0;
      if prefix != UserPrefix(user) && !StartsWith(prefix, UserPrefix(user) + "/") {
        return;
      }
      var found := Under(files, prefix);
      if fails {
        files := files - (found * partial);
        return;
      }
      files := files - found;
      ok, removed := true, |found|;
    }

    /** One delete for each table of `order`. */
    method DeleteRows(order: seq<Table>, user: UserId) returns (deleted: nat)
      requires forall i, j :: 0 <= i < j < |order| ==> order[i] != order[j]
      modifies this`db
      ensures db == Purged(old(db), order, user)
      ensures deleted == |Owned(old(db), TableSet(order), user)|
    {
      deleted := 0;
      assert Owned(db, TableSet(order[..0]), user) == {};
      for k := 0 to |order|
        invariant db == Purged(old(db), order[..k], user)
        invariant deleted == |Owned(old(db), TableSet(order[..k]), user)|
      {
        OneMoreTable(old(db), order, user, k);
        var rows := Owned(db, {order[k]}, user);
        db := db - rows;
        deleted := deleted + |rows|;
      }
      assert order[..|order|] == order;
    }

    /** Either no row changes, or the user's rows of the twelve tables, the user and the user's files go and
        everything else stays. */
    method DeleteUserData(user: UserId, fails: bool, partial: set<FileKey>) returns (r: Report)
      modifies this
      ensures fails ==> r == Report(0, 0, 0) && db == old(db)
      ensures fails ==> old(files) - Under(old(files), UserPrefix(user) + "/") <= files <= old(files)
      ensures !fails ==>
        db == AfterPurge(old(db), user) &&
        files == set key | key in old(files) && !("users/" + user + "/" <= key)
      ensures !fails ==> r == Report(|Owned(old(db), TableSet(DELETE_ORDER), user)|,
                                     |Under(old(files), UserPrefix(user) + "/")|, 1)
    {
      var ok, filesRemoved := DeletePrefix(user, UserPrefix(user) + "/", fails, partial);
      if !ok {
        return Report(0, 0, 0);
      }
      EachTableOnce();
      var rowsDeleted := DeleteRows(DELETE_ORDER, user);
      db := db - {RowKey(Users, user)};
      r := Report(rowsDeleted, filesRemoved, 1);
    }
  }

  /** The purge of one user removes no file another user's check lets through. */
  lemma OthersKeepTheirFiles(files: set<FileKey>, u: UserId, v: UserId, key: FileKey)
    requires '/' !in u && '/' !in v && u != v && key in files && Confined(v, key)
    ensures key in files - Under(files, UserPrefix(u) + "/")
  {
    if StartsWith(key, UserPrefix(u) + "/") { TreesAreDisjoint(u, v, key); }
  }
}
