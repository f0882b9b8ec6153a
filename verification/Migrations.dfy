/**
 The SQLite migrations runner of the app SDK: which files of a directory are
 migrations, and what one run of the runner does to a database.

 A database is a value of an arbitrary type D and a migration script an
 arbitrary partial function on it. Scripts may also fail for outside reasons,
 differently in every run.
 */
module Migrations {
  import opened Common

  // ── File names ──

  /** The decimal digits of Unicode that the interpreter knows, with their values. */
  type Digits = map<char, nat>

  function DigitRun(s: string, digits: Digits): (n: nat)
    ensures n <= |s| && forall i :: 0 <= i < n ==> s[i] in digits
    ensures n < |s| ==> s[n] !in digits
  {
    if s != [] && s[0] in digits then 1 + DigitRun(s[1..], digits) else 0
  }

  function Decimal(s: string, digits: Digits): nat
    requires forall i :: 0 <= i < |s| ==> s[i] in digits
  {
    if s == [] then 0
    else
      assert s[|s| - 1] in digits;
      10 * Decimal(s[..|s| - 1], digits) + digits[s[|s| - 1]]
  }

  /** `.+\.sql$` after the underscore; `$` also matches before one final newline. */
  predicate IsSqlTail(s: string) {
    var t := if s != [] && s[|s| - 1] == '\n' then s[..|s| - 1] else s;
    |t| >= 5 && t[|t| - 4..] == ".sql" && '\n' !in t[..|t| - 4]
  }

  /** The number of a migration file name, or nothing for any other name. */
  function VersionOf(name: string, digits: Digits): Option<nat> {
    var n := DigitRun(name, digits);
    if 0 < n < |name| && name[n] == '_' && IsSqlTail(name[n + 1..]) then Some(Decimal(name[..n], digits)) else None
  }

  // ── Discovery ──

  datatype File = File(version: nat, name: string)

  datatype Discovery = Found(files: seq<File>) | Malformed

  /** An ambiguous directory: a version 0, or two files with one version. */
  ghost predicate Ambiguous(names: seq<string>, digits: Digits) {
    || (exists i :: 0 <= i < |names| && VersionOf(names[i], digits) == Some(0))
    || (exists i, j ::
          && 0 <= i < j < |names|
          && VersionOf(names[i], digits).Some?
          && VersionOf(names[i], digits) == VersionOf(names[j], digits))
  }

  ghost predicate AscendingFiles(files: seq<File>) {
    forall i, j :: 0 <= i < j < |files| ==> files[i].version < files[j].version
  }

  ghost predicate Taken(names: seq<string>, v: nat, digits: Digits) {
    exists i :: 0 <= i < |names| && VersionOf(names[i], digits) == Some(v)
  }

  lemma {:induction false} TakenSnoc(names: seq<string>, last: string, v: nat, digits: Digits)
    ensures Taken(names + [last], v, digits) <==> Taken(names, v, digits) || VersionOf(last, digits) == Some(v)
  {
    hide VersionOf;
    var all := names + [last];
    if Taken(names, v, digits) {
      var i :| 0 <= i < |names| && VersionOf(names[i], digits) == Some(v);
      assert all[i] == names[i];
    }
    assert all[|names|] == last;
  }

  lemma {:induction false} AmbiguousSnoc(names: seq<string>, last: string, digits: Digits)
    ensures Ambiguous(names + [last], digits) <==>
            Ambiguous(names, digits) ||
            (VersionOf(last, digits).Some? &&
             (VersionOf(last, digits) == Some(0) || Taken(names, VersionOf(last, digits).value, digits)))
  {
    hide VersionOf;
    var all := names + [last];
    assert all[|names|] == last && forall i :: 0 <= i < |names| ==> all[i] == names[i];
  }

  lemma {:induction false} NothingIsAmbiguous(digits: Digits)
    ensures !Ambiguous([], digits) && (forall f :: !Names([], f, digits)) && (forall v :: !Taken([], v, digits))
  {
  }

  lemma {:induction false} AmbiguousExtends(names: seq<string>, k: nat, digits: Digits)
    requires k <= |names| && Ambiguous(names[..k], digits)
    ensures Ambiguous(names, digits)
  {
    hide VersionOf;
    assert forall i :: 0 <= i < k ==> names[..k][i] == names[i];
  }

  /** `f` stands for one of the names. */
  ghost predicate Names(names: seq<string>, f: File, digits: Digits) {
    exists i :: 0 <= i < |names| && names[i] == f.name && VersionOf(names[i], digits) == Some(f.version)
  }

  /** The sort by version: inserts a file into an ascending list. */
  function Insert(files: seq<File>, f: File): (r: seq<File>)
    requires AscendingFiles(files) && forall i :: 0 <= i < |files| ==> files[i].version != f.version
    ensures AscendingFiles(r)
    ensures forall g :: g in r <==> g in files || g == f
  {
    if files == [] then [f]
    else if f.version < files[0].version then [f] + files
    else
      var rest := Insert(files[1..], f);
      assert files == [files[0]] + files[1..];
      assert forall g :: g in files[1..] ==> g.version > files[0].version;
      assert forall i :: 0 <= i < |rest| ==> rest[i] in rest;
      [files[0]] + rest
  }

  /**
   discover_migrations. A missing directory holds no migrations; an ambiguous
   one is refused; otherwise exactly the migration files are returned, each
   once, in ascending order.
   */
  method DiscoverMigrations(directory: Option<seq<string>>, digits: Digits) returns (r: Discovery)
    ensures directory.None? ==> r == Found([])
    ensures directory.Some? ==> (r.Malformed? <==> Ambiguous(directory.value, digits))
    ensures directory.Some? && r.Found? ==>
              && AscendingFiles(r.files)
              && (forall f :: f in r.files <==> Names(directory.value, f, digits))
              && (forall f :: f in r.files ==> f.version > 0)
  {
    hide VersionOf, Ambiguous, Taken, Names;
    if directory.None? { return Found([]); }
    var names := directory.value;
    var files: seq<File> := [];
    var seen: map<nat, string> := map[];
    NothingIsAmbiguous(digits);
    for k := 0 to |names|
      invariant !Ambiguous(names[..k], digits)
      invariant AscendingFiles(files)
      invariant forall f :: f in files <==> Names(names[..k], f, digits)
      invariant forall v :: v in seen <==> Taken(names[..k], v, digits)
      invariant forall f :: f in files ==> f.version > 0 && f.version in seen
    {
      assert names[..k + 1] == names[..k] + [names[k]];
      var v := VersionOf(names[k], digits);
      AmbiguousSnoc(names[..k], names[k], digits);
      forall u: nat ensures Taken(names[..k + 1], u, digits) <==> Taken(names[..k], u, digits) || v == Some(u) {
        TakenSnoc(names[..k], names[k], u, digits);
      }
      if v.Some? {
        if v.value == 0 || v.value in seen {
          AmbiguousExtends(names, k + 1, digits);
          return Malformed;
        }
        seen := seen[v.value := names[k]];
        var f := File(v.value, names[k]);
        var before := files;
        assert forall i :: 0 <= i < |files| ==> files[i] in files;
        files := Insert(files, f);
        forall g
          ensures g in files <==> Names(names[..k + 1], g, digits)
        {
          NamesOfSnoc(names[..k], names[k], g, digits);
          assert g in before <==> Names(names[..k], g, digits);
        }
      } else {
        forall g
          ensures Names(names[..k + 1], g, digits) <==> Names(names[..k], g, digits)
        {
          NamesOfSnoc(names[..k], names[k], g, digits);
        }
      }
    }
    assert names[..|names|] == names;
    return Found(files);
  }

  lemma {:induction false} NamesOfSnoc(names: seq<string>, last: string, f: File, digits: Digits)
    ensures Names(names + [last], f, digits) <==>
      Names(names, f, digits) || (last == f.name && VersionOf(last, digits) == Some(f.version))
  {
    hide VersionOf;
    var all := names + [last];
    if Names(names, f, digits) {
      var i :| 0 <= i < |names| && names[i] == f.name && VersionOf(names[i], digits) == Some(f.version);
      assert all[i] == names[i];
    }
    if last == f.name && VersionOf(last, digits) == Some(f.version) {
      assert all[|names|] == last;
    }
  }

  // ── One run of the runner ──

  datatype Migration<!D> = Migration(version: nat, script: D -> Option<D>)

  /** What a run finds and meets: the files on disk, outside failures, and whether backups are asked for and work. */
  datatype Env<!D> = Env(files: seq<Migration<D>>, failing: set<nat>, backup: bool, backupWorks: bool,
    hasTables: D -> bool)

  /** The database file, its user_version, the backup files beside it, and the commits made, in order. */
  datatype Store<D> = Store(data: D, version: nat, backups: map<nat, D>, landed: seq<nat>)

  datatype Verdict = Applied(count: nat) | Refused | Failed(version: nat) | BackupFailed

  ghost predicate Ascending<D(!new)>(ms: seq<Migration<D>>) {
    && (forall i :: 0 <= i < |ms| ==> ms[i].version > 0)
    && (forall i, j :: 0 <= i < j < |ms| ==> ms[i].version < ms[j].version)
  }

  /** The files with a higher number than the current version. */
  function Pending<D(!new)>(ms: seq<Migration<D>>, v: nat): seq<Migration<D>> {
    if ms == [] then []
    else if ms[0].version > v then [ms[0]] + Pending(ms[1..], v)
    else Pending(ms[1..], v)
  }

  /** One migration inside its own transaction: all of it lands with its version bump, or nothing does. */
  function Commit<D>(s: Store<D>, m: Migration<D>, failing: set<nat>): Option<Store<D>> {
    match m.script(s.data)
    case None => None
    case Some(d) =>
      if m.version in failing then None
      else Some(s.(data := d, version := m.version, landed := s.landed + [m.version]))
  }

  /** The loop over pending migrations: it stops at the first failure. */
  function CommitAll<D>(s: Store<D>, ms: seq<Migration<D>>, failing: set<nat>): Store<D>
    decreases |ms|
  {
    if ms == [] then s
    else match Commit(s, ms[0], failing)
      case None => s
      case Some(t) => CommitAll(t, ms[1..], failing)
  }

  /** The backup written before the first pending migration; a stale one is removed first. */
  function BackedUp<D>(s: Store<D>, env: Env<D>): Store<D> {
    if !(env.backup && env.hasTables(s.data)) then s
    else if env.backupWorks then s.(backups := s.backups[s.version := s.data])
    else s.(backups := s.backups - {s.version})
  }

  function RunOnce<D(!new)>(s: Store<D>, env: Env<D>): Store<D> {
    if env.files == [] || s.version > env.files[|env.files| - 1].version then s
    else
      var pending := Pending(env.files, s.version);
      if pending == [] then s
      else if env.backup && env.hasTables(s.data) && !env.backupWorks then BackedUp(s, env)
      else CommitAll(BackedUp(s, env), pending, env.failing)
  }

  function RunAll<D(!new)>(s: Store<D>, envs: seq<Env<D>>): Store<D>
    decreases |envs|
  {
    if envs == [] then s else RunAll(RunOnce(s, envs[0]), envs[1..])
  }

  /** The run stopped at the first pending migration it could not commit. */
  ghost predicate StoppedAt<D(!new)>(s: Store<D>, pending: seq<Migration<D>>, before: nat, failing: set<nat>, v: nat) {
    var k := |s.landed| - before;
    0 <= k < |pending| && pending[k].version == v && Commit(s, pending[k], failing).None?
  }

  /** apply_migrations on a database it owns. */
  class Database<!D(!new)> {
    var store: Store<D>

    constructor (data: D)
      ensures store == Store(data, 0, map[], [])
    {
      store := Store(data, 0, map[], []);
    }

    method Apply(env: Env<D>) returns (r: Verdict)
      modifies this
      ensures store == RunOnce(old(store), env)
      ensures r.Refused? <==> env.files != [] && old(store).version > env.files[|env.files| - 1].version
      ensures r.Applied? ==> |store.landed| == |old(store).landed| + r.count
      ensures r.Failed? ==> StoppedAt(store, Pending(env.files, old(store).version), |old(store).landed|, env.failing,
        r.version)
    {
      hide Pending, CommitAll;
      if env.files == [] { return Applied(0); }
      var current := store.version;
      if current > env.files[|env.files| - 1].version { return Refused; }
      var pending := Pending(env.files, current);
      if pending == [] { return Applied(0); }
      if env.backup && env.hasTables(store.data) {
        store := BackedUp(store, env);
        if !env.backupWorks { return BackupFailed; }
      }
      r := ApplyPending(pending, env.failing);
    }

    method ApplyPending(pending: seq<Migration<D>>, failing: set<nat>) returns (r: Verdict)
      modifies this
      ensures store == CommitAll(old(store), pending, failing)
      ensures r.Applied? || r.Failed?
      ensures r.Applied? ==> |store.landed| == |old(store).landed| + r.count
      ensures r.Failed? ==> StoppedAt(store, pending, |old(store).landed|, failing, r.version)
    {
      var applied := 0;
      var i := 0;
      while i < |pending|
        invariant i <= |pending|
        invariant CommitAll(old(store), pending, failing) == CommitAll(store, pending[i..], failing)
        invariant |store.landed| == |old(store).landed| + applied && applied == i
      {
        var next := Commit(store, pending[i], failing);
        if next.None? {
          return Failed(pending[i].version);
        }
        store := next.value;
        assert pending[i..][1..] == pending[i + 1..];
        i := i + 1;
        applied := applied + 1;
      }
      return Applied(applied);
    }
  }

  // ── Every history of runs ──

  /** All scripts in order, on the database as it first was; nothing if one of them cannot run there. */
  function Fold<D>(ms: seq<Migration<D>>, d: D): Option<D> {
    if ms == [] then Some(d)
    else match Fold(ms[..|ms| - 1], d)
      case None => None
      case Some(e) => ms[|ms| - 1].script(e)
  }

  function Versions<D>(ms: seq<Migration<D>>): (r: seq<nat>)
    ensures |r| == |ms| && forall i :: 0 <= i < |r| ==> r[i] == ms[i].version
  {
    seq(|ms|, i requires 0 <= i < |ms| => ms[i].version)
  }

  /** The migrations with a number of at most `v`. */
  function Upto<D(!new)>(ms: seq<Migration<D>>, v: nat): seq<Migration<D>> {
    if ms == [] then []
    else if ms[0].version <= v then [ms[0]] + Upto(ms[1..], v)
    else Upto(ms[1..], v)
  }

  /** user_version after the first k migrations. */
  function VersionAt<D>(ms: seq<Migration<D>>, k: nat): nat
    requires k <= |ms|
  {
    if k == 0 then 0 else ms[k - 1].version
  }

  /** The database is what the first |landed| migrations make of `d0`, and so is every backup for its own version. */
  ghost predicate Consistent<D(!new)>(all: seq<Migration<D>>, d0: D, s: Store<D>) {
    var k := |s.landed|;
    && k <= |all|
    && s.landed == Versions(all[..k])
    && s.version == VersionAt(all, k)
    && Fold(all[..k], d0) == Some(s.data)
    && forall v :: v in s.backups ==> BackupOf(all, d0, v, s.backups[v])
  }

  ghost predicate BackupOf<D(!new)>(all: seq<Migration<D>>, d0: D, v: nat, data: D) {
    exists j :: 0 <= j <= |all| && v == VersionAt(all, j) && Fold(all[..j], d0) == Some(data)
  }

  /** Each run sees some initial segment of the migrations: code may be rolled forward and back. */
  ghost predicate Segments<D(!new)>(all: seq<Migration<D>>, envs: seq<Env<D>>) {
    forall i :: 0 <= i < |envs| ==> envs[i].files <= all
  }

  lemma {:induction false} SplitAtVersion<D(!new)>(ms: seq<Migration<D>>, v: nat, k: nat)
    requires k <= |ms|
    requires forall i :: 0 <= i < k ==> ms[i].version <= v
    requires forall i :: k <= i < |ms| ==> ms[i].version > v
    ensures Upto(ms, v) == ms[..k] && Pending(ms, v) == ms[k..]
  {
    if ms == [] {
    } else {
      var rest := ms[1..];
      if k == 0 {
        SplitAtVersion(rest, v, 0);
        assert [ms[0]] + rest == ms;
      } else {
        SplitAtVersion(rest, v, k - 1);
        assert [ms[0]] + rest[..k - 1] == ms[..k];
        assert rest[k - 1..] == ms[k..];
      }
    }
  }

  lemma {:induction false} VersionsOrder<D(!new)>(all: seq<Migration<D>>, k: nat, n: nat)
    requires Ascending(all) && k <= |all| && n <= |all| && VersionAt(all, k) <= VersionAt(all, n)
    ensures k <= n
  {
  }

  lemma {:induction false} CommitsKeepConsistency<D(!new)>(all: seq<Migration<D>>, d0: D, s: Store<D>, n: nat,
                                                    failing: set<nat>)
    requires Ascending(all) && Consistent(all, d0, s) && |s.landed| <= n <= |all|
    ensures var t := CommitAll(s, all[|s.landed|..n], failing);
            && Consistent(all, d0, t) && s.landed <= t.landed
            && s.version <= t.version && t.backups == s.backups
            && |t.landed| <= n
    decreases n - |s.landed|
  {
    var k := |s.landed|;
    var pending := all[k..n];
    if k < n {
      var next := Commit(s, pending[0], failing);
      if next.Some? {
        var t := next.value;
        assert pending[1..] == all[k + 1..n];
        assert all[..k + 1][..k] == all[..k];
        assert t.landed == Versions(all[..k + 1]);
        assert Fold(all[..k + 1], d0) == Some(t.data);
        CommitsKeepConsistency(all, d0, t, n, failing);
      }
    }
  }

  lemma {:induction false} BackupKeepsConsistency<D(!new)>(all: seq<Migration<D>>, d0: D, s: Store<D>, env: Env<D>)
    requires Consistent(all, d0, s)
    ensures Consistent(all, d0, BackedUp(s, env))
  {
    assert BackupOf(all, d0, s.version, s.data);
  }

  lemma {:induction false} RunKeepsConsistency<D(!new)>(all: seq<Migration<D>>, d0: D, s: Store<D>, env: Env<D>)
    requires Ascending(all) && Consistent(all, d0, s) && env.files <= all
    ensures Consistent(all, d0, RunOnce(s, env))
    ensures s.version <= RunOnce(s, env).version && s.landed <= RunOnce(s, env).landed
  {
    hide Fold, CommitAll, Pending, Upto, Versions;
    var n, k := |env.files|, |s.landed|;
    if env.files != [] && s.version <= env.files[n - 1].version {
      VersionsOrder(all, k, n);
      SplitAtVersion(env.files, s.version, k);
      assert env.files[k..] == all[k..n];
      BackupKeepsConsistency(all, d0, s, env);
      CommitsKeepConsistency(all, d0, BackedUp(s, env), n, env.failing);
    }
  }

  /**
   Over any sequence of runs, with any migration failing in any run and the set
   on disk growing or shrinking at the top, the database is the in-order fold of
   all migrations up to its user_version, each of them landed exactly once, and
   every backup file holds the fold up to the version in its name.
   */
  lemma {:induction false} DatabaseIsFoldOfMigrations<D(!new)>(all: seq<Migration<D>>, d0: D, envs: seq<Env<D>>)
    requires Ascending(all) && Segments(all, envs)
    ensures var s := RunAll(Store(d0, 0, map[], []), envs);
            && Fold(Upto(all, s.version), d0) == Some(s.data)
            && s.landed == Versions(Upto(all, s.version))
            && (forall v :: v in s.backups ==> Fold(Upto(all, v), d0) == Some(s.backups[v]))
  {
    var start := Store(d0, 0, map[], []);
    assert all[..0] == [];
    HistoryKeepsConsistency(all, d0, start, envs);
    var s := RunAll(start, envs);
    UptoVersionAt(all, |s.landed|);
    forall v | v in s.backups
      ensures Fold(Upto(all, v), d0) == Some(s.backups[v])
    {
      assert BackupOf(all, d0, v, s.backups[v]);
      var j :| 0 <= j <= |all| && v == VersionAt(all, j) && Fold(all[..j], d0) == Some(s.backups[v]);
      UptoVersionAt(all, j);
    }
  }

  lemma {:induction false} UptoVersionAt<D(!new)>(all: seq<Migration<D>>, k: nat)
    requires Ascending(all) && k <= |all|
    ensures Upto(all, VersionAt(all, k)) == all[..k]
  {
    SplitAtVersion(all, VersionAt(all, k), k);
  }

  /** Later runs only add: user_version never decreases and no landed migration is undone or repeated. */
  lemma {:induction false} HistoryKeepsConsistency<D(!new)>(all: seq<Migration<D>>, d0: D, s: Store<D>,
                                                     envs: seq<Env<D>>)
    requires Ascending(all) && Consistent(all, d0, s) && Segments(all, envs)
    ensures Consistent(all, d0, RunAll(s, envs))
    ensures s.version <= RunAll(s, envs).version && s.landed <= RunAll(s, envs).landed
    decreases |envs|
  {
    hide Consistent, RunOnce;
    if envs == [] {
    } else {
      RunKeepsConsistency(all, d0, s, envs[0]);
      HistoryKeepsConsistency(all, d0, RunOnce(s, envs[0]), envs[1..]);
    }
  }

  lemma {:induction false} CommitsLandAbove<D(!new)>(s: Store<D>, ms: seq<Migration<D>>, failing: set<nat>)
    ensures var t := CommitAll(s, ms, failing);
            && s.landed <= t.landed && |t.landed| - |s.landed| <= |ms|
            && (forall i :: |s.landed| <= i < |t.landed| ==> t.landed[i] == ms[i - |s.landed|].version)
    decreases |ms|
  {
    if ms == [] {
    } else {
      var next := Commit(s, ms[0], failing);
      if next.Some? {
        CommitsLandAbove(next.value, ms[1..], failing);
      }
    }
  }

  lemma {:induction false} PendingIsAbove<D(!new)>(ms: seq<Migration<D>>, v: nat)
    ensures forall i :: 0 <= i < |Pending(ms, v)| ==> Pending(ms, v)[i].version > v
  {
    if ms == [] {
    } else {
      PendingIsAbove(ms[1..], v);
    }
  }

  /**
   Whatever set of files a run finds, in any order, it lands only numbers above
   the current version: a migration added below it is never applied.
   */
  lemma {:induction false} LateMigrationNeverLands<D(!new)>(s: Store<D>, env: Env<D>)
    ensures var t := RunOnce(s, env);
            s.landed <= t.landed && forall i :: |s.landed| <= i < |t.landed| ==> t.landed[i] > s.version
  {
    PendingIsAbove(env.files, s.version);
    CommitsLandAbove(BackedUp(s, env), Pending(env.files, s.version), env.failing);
  }

  /** A run in which nothing fails brings the database to the newest version on disk; running again changes nothing. */
  lemma {:induction false} CleanRunReachesTop<D(!new)>(all: seq<Migration<D>>, d0: D, s: Store<D>, env: Env<D>)
    requires Ascending(all) && Consistent(all, d0, s) && all != [] && env.files == all
    requires env.failing == {} && env.backupWorks && Fold(all, d0).Some?
    ensures var t := RunOnce(s, env);
            && t.version == all[|all| - 1].version && Some(t.data) == Fold(all, d0)
            && RunOnce(t, env) == t
  {
    hide Fold, CommitAll, Consistent;
    CleanRunIsConsistent(all, d0, s, env);
    var t, n := RunOnce(s, env), |all|;
    TopOf(all, d0, t);
    SplitAtVersion(all, t.version, n);
    assert all[n..] == [];
  }

  lemma {:induction false} TopOf<D(!new)>(all: seq<Migration<D>>, d0: D, t: Store<D>)
    requires Ascending(all) && Consistent(all, d0, t) && |t.landed| == |all| > 0
    ensures t.version == all[|all| - 1].version && Some(t.data) == Fold(all, d0)
    ensures forall i :: 0 <= i < |all| ==> all[i].version <= t.version
  {
    assert all[..|all|] == all;
  }

  lemma {:induction false} CleanRunIsConsistent<D(!new)>(all: seq<Migration<D>>, d0: D, s: Store<D>, env: Env<D>)
    requires Ascending(all) && Consistent(all, d0, s) && all != [] && env.files == all
    requires env.failing == {} && env.backupWorks && Fold(all, d0).Some?
    ensures Consistent(all, d0, RunOnce(s, env)) && |RunOnce(s, env).landed| == |all|
  {
    hide Fold, CommitAll;
    var k, n := |s.landed|, |all|;
    SplitAtVersion(all, s.version, k);
    BackupKeepsConsistency(all, d0, s, env);
    CleanCommitsReachTop(all, d0, BackedUp(s, env));
    assert s.version <= VersionAt(all, n);
    assert all[k..] == [] <==> k == n;
  }

  lemma {:induction false} CleanCommitsReachTop<D(!new)>(all: seq<Migration<D>>, d0: D, s: Store<D>)
    requires Ascending(all) && Consistent(all, d0, s) && Fold(all, d0).Some?
    ensures var t := CommitAll(s, all[|s.landed|..], {});
            Consistent(all, d0, t) && |t.landed| == |all|
    decreases |all| - |s.landed|
  {
    var k := |s.landed|;
    if k < |all| {
      FoldOfPrefix(all, k + 1, d0);
      assert all[..k + 1][..k] == all[..k];
      var t := Commit(s, all[k], {}).value;
      assert all[k..][1..] == all[k + 1..];
      assert t.landed == Versions(all[..k + 1]);
      assert Fold(all[..k + 1], d0) == Some(t.data);
      CleanCommitsReachTop(all, d0, t);
    }
  }

  lemma {:induction false} FoldOfPrefix<D(!new)>(ms: seq<Migration<D>>, k: nat, d: D)
    requires k <= |ms| && Fold(ms, d).Some?
    ensures Fold(ms[..k], d).Some?
    decreases |ms|
  {
    if k < |ms| {
      FoldOfPrefix(ms[..|ms| - 1], k, d);
      assert ms[..|ms| - 1][..k] == ms[..k];
    } else {
      assert ms[..k] == ms;
    }
  }
}
