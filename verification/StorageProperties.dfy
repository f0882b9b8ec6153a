/** What rotation may and may not delete. */
module StorageProperties {
  import opened Common
  import CText
  import opened Storage

  /** A file the pressure cleanup could ever pick. */
  predicate Recording(f: File, cams: nat) { f.cam < cams && !Hidden(f.date) && IsMp4(f.name) }

  function FilesOf(gone: seq<Removal>): seq<File>
    ensures |FilesOf(gone)| == |gone|
    ensures forall i :: 0 <= i < |gone| ==> FilesOf(gone)[i] == gone[i].file
  {
    if gone == [] then [] else FilesOf(gone[..|gone| - 1]) + [gone[|gone| - 1].file]
  }

  // ── Nothing is lost or made up ──

  lemma {:induction false} FilesOfAppend(a: seq<Removal>, b: seq<Removal>)
    ensures FilesOf(a + b) == FilesOf(a) + FilesOf(b)
  {
  }

  /** The files left and the files removed are together the files there were. */
  ghost predicate Conserves(files: seq<File>, s: Swept) {
    multiset(s.left) + multiset(FilesOf(s.gone)) == multiset(files)
  }

  lemma {:induction false} KeepOne(files: seq<File>, s: Swept, f: File)
    requires Conserves(files, s)
    ensures Conserves(files + [f], Swept(s.left + [f], s.gone))
  {
  }

  lemma {:induction false} RemoveOne(files: seq<File>, s: Swept, f: File, now: int)
    requires Conserves(files, s)
    ensures Conserves(files + [f], Swept(s.left, s.gone + [Removal(f, now)]))
  {
    FilesOfAppend(s.gone, [Removal(f, now)]);
    assert FilesOf([Removal(f, now)]) == [f];
  }

  lemma {:induction false} RemoveOldConserves(files: seq<File>, now: int, age: int, picks: seq<bool>,
                                              unlinks: File -> bool)
    ensures Conserves(files, RemoveOld(files, now, age, picks, unlinks))
    decreases |files|
  {
    hide TooOld, Picked, Conserves;
    if files == [] {
      NothingConserves(files);
    } else {
      var init, f := files[..|files| - 1], files[|files| - 1];
      var before := RemoveOld(init, now, age, picks, unlinks);
      RemoveOldConserves(init, now, age, picks, unlinks);
      assert files == init + [f];
      KeepOne(init, before, f);
      RemoveOne(init, before, f, now);
    }
  }

  lemma {:induction false} WithoutConserves(files: seq<File>, k: nat)
    requires k < |files|
    ensures multiset(Without(files, k)) + multiset{files[k]} == multiset(files)
  {
    assert files == files[..k] + [files[k]] + files[k + 1..];
  }

  lemma {:induction false} PressureConserves(files: seq<File>, cams: nat, total: int, free: int, r: Readings, n: nat)
    ensures Conserves(files, Pressure(files, cams, total, free, r, n).0)
    decreases MAX_PRESSURE_REMOVALS - n
  {
    hide Over85, Oldest, Without;
    if Over85(total, free) && n < MAX_PRESSURE_REMOVALS && Removes(files, cams, r, n) {
      var k := Oldest(files, cams, r.now(n)).value;
      var rest := Pressure(Without(files, k), cams, total, r.free(n), r, n + 1).0;
      PressureConserves(Without(files, k), cams, total, r.free(n), r, n + 1);
      WithoutConserves(files, k);
      FilesOfAppend([Removal(files[k], r.now(n))], rest.gone);
    }
  }

  lemma {:induction false} ConservesChain(files: seq<File>, a: Swept, b: Swept)
    requires Conserves(files, a) && Conserves(a.left, b)
    ensures Conserves(files, Swept(b.left, a.gone + b.gone))
  {
    FilesOfAppend(a.gone, b.gone);
  }

  /** Rotation neither invents nor silently loses a file: what is not left was removed, once. */
  lemma {:induction false} RotateConserves(files: seq<File>, cfg: Config, e: Env)
    ensures Conserves(files, Rotate(files, cfg, e))
  {
    hide RemoveOld, Pressure, Over90, Conserves, MaxAge, Everyone;
    var aged := RemoveOld(files, e.now, MaxAge(cfg), cfg.enabled, e.unlinks);
    RemoveOldConserves(files, e.now, MaxAge(cfg), cfg.enabled, e.unlinks);
    PressureConserves(aged.left, |cfg.enabled|, e.total, e.free, e.readings, 0);
    NothingConserves(aged.left);
    var (eased, free) := if e.total > 0 && e.free >= 0 && Over90(e.total, e.free)
                         then Pressure(aged.left, |cfg.enabled|, e.total, e.free, e.readings, 0)
                         else (Swept(aged.left, []), e.free);
    ConservesChain(files, aged, eased);
    RemoveOldConserves(eased.left, e.late, EMERGENCY_AGE, Everyone(cfg), e.unlinks);
    NothingConserves(eased.left);
    var urgent := if 0 <= free < 50
                  then RemoveOld(eased.left, e.late, EMERGENCY_AGE, Everyone(cfg), e.unlinks)
                  else Swept(eased.left, []);
    ConservesChain(files, Swept(eased.left, aged.gone + eased.gone), urgent);
  }

  lemma {:induction false} NothingConserves(files: seq<File>)
    ensures Conserves(files, Swept(files, []))
  {
    assert FilesOf([]) == [];
  }

  // ── The pressure cleanup takes a prefix in age order ──

  /** No recording that stays, or goes later, is older than one that went. */
  ghost predicate OldestFirst(s: Swept, cams: nat) {
    && (forall i, f :: 0 <= i < |s.gone| && f in s.left && Recording(f, cams) ==> s.gone[i].file.mtime <= f.mtime)
    && (forall i, j :: 0 <= i < j < |s.gone| ==> s.gone[i].file.mtime <= s.gone[j].file.mtime)
  }

  lemma {:induction false} OldestIsBelowAll(files: seq<File>, cams: nat, now: int, f: File)
    requires Oldest(files, cams, now).Some? && f in files && Recording(f, cams)
    ensures files[Oldest(files, cams, now).value].mtime <= f.mtime
  {
    OldestIsOldest(files, cams, now);
  }

  /** What the loop leaves and removes comes from the list; every removal is a finished recording. */
  lemma {:induction false} PressureTakesFinished(files: seq<File>, cams: nat, total: int, free: int, r: Readings,
                                                 n: nat)
    ensures forall i :: 0 <= i < |Pressure(files, cams, total, free, r, n).0.gone| ==>
      var x := Pressure(files, cams, total, free, r, n).0.gone[i];
      x.file in files && Candidate(x.file, cams, x.at)
    ensures forall f :: f in Pressure(files, cams, total, free, r, n).0.left ==> f in files
    decreases MAX_PRESSURE_REMOVALS - n
  {
    hide Over85, Oldest, Candidate;
    if Over85(total, free) && n < MAX_PRESSURE_REMOVALS && Removes(files, cams, r, n) {
      OldestIsOldest(files, cams, r.now(n));
      PressureTakesFinished(Without(files, Oldest(files, cams, r.now(n)).value), cams, total, r.free(n), r, n + 1);
    }
  }

  /** The files removed under pressure are a prefix of the recordings in age order, in that order. */
  lemma {:induction false} PressureIsOldestFirst(files: seq<File>, cams: nat, total: int, free: int, r: Readings,
                                                 n: nat)
    ensures OldestFirst(Pressure(files, cams, total, free, r, n).0, cams)
    decreases MAX_PRESSURE_REMOVALS - n
  {
    hide Over85, Oldest;
    if Over85(total, free) && n < MAX_PRESSURE_REMOVALS && Removes(files, cams, r, n) {
      var k := Oldest(files, cams, r.now(n)).value;
      var rest := Pressure(Without(files, k), cams, total, r.free(n), r, n + 1).0;
      PressureIsOldestFirst(Without(files, k), cams, total, r.free(n), r, n + 1);
      PressureTakesFinished(Without(files, k), cams, total, r.free(n), r, n + 1);
      PrependOldest(files, cams, r.now(n), rest);
    }
  }

  lemma {:induction false} PrependOldest(files: seq<File>, cams: nat, now: int, rest: Swept)
    requires Oldest(files, cams, now).Some? && OldestFirst(rest, cams)
    requires forall i :: 0 <= i < |rest.gone| ==>
      rest.gone[i].file in files && Candidate(rest.gone[i].file, cams, rest.gone[i].at)
    requires forall f :: f in rest.left ==> f in files
    ensures OldestFirst(Swept(rest.left, [Removal(files[Oldest(files, cams, now).value], now)] + rest.gone), cams)
  {
    hide Oldest;
    var x := Removal(files[Oldest(files, cams, now).value], now);
    var gone := [x] + rest.gone;
    forall f | f in rest.left &&
      Recording(f, cams) ensures x.file.mtime <= f.mtime { OldestIsBelowAll(files, cams, now, f); }
    forall j | 0 <= j < |rest.gone| ensures x.file.mtime <= rest.gone[j].file.mtime {
      OldestIsBelowAll(files, cams, now, rest.gone[j].file);
    }
    forall i, f | 0 <= i < |gone| && f in rest.left && Recording(f, cams) ensures gone[i].file.mtime <= f.mtime {
      if i > 0 { assert gone[i] == rest.gone[i - 1]; }
    }
    forall i, j | 0 <= i < j < |gone| ensures gone[i].file.mtime <= gone[j].file.mtime {
      assert gone[j] == rest.gone[j - 1];
      if i > 0 { assert gone[i] == rest.gone[i - 1]; }
    }
  }

  /** It stops only at 85% use or less by the last reading, at 500 removals, or when nothing is removable. */
  lemma {:induction false} PressureStops(files: seq<File>, cams: nat, total: int, free: int, r: Readings, n: nat)
    requires n <= MAX_PRESSURE_REMOVALS
    ensures var (s, last) := Pressure(files, cams, total, free, r, n);
            !Over85(total, last) || n + |s.gone| == MAX_PRESSURE_REMOVALS || !Removes(s.left, cams, r, n + |s.gone|)
    ensures n + |Pressure(files, cams, total, free, r, n).0.gone| <= MAX_PRESSURE_REMOVALS
    decreases MAX_PRESSURE_REMOVALS - n
  {
    hide Over85, Oldest;
    if Over85(total, free) && n < MAX_PRESSURE_REMOVALS && Removes(files, cams, r, n) {
      PressureStops(Without(files, Oldest(files, cams, r.now(n)).value), cams, total, r.free(n), r, n + 1);
    }
  }

  /**
   When free space can no longer be read, the reading counts as a full disk: the loop ends only at
   the quota or with nothing left.
   */
  lemma {:induction false} UnreadableDiskKeepsDeleting(files: seq<File>, cams: nat, total: int, free: int,
                                                       r: Readings, n: nat)
    requires n <= MAX_PRESSURE_REMOVALS && total > 0 && Over85(total, free) && forall i :: r.free(i) < 0
    ensures var s := Pressure(files, cams, total, free, r, n).0;
            n + |s.gone| == MAX_PRESSURE_REMOVALS || !Removes(s.left, cams, r, n + |s.gone|)
    decreases MAX_PRESSURE_REMOVALS - n
  {
    hide Oldest;
    if n < MAX_PRESSURE_REMOVALS && Removes(files, cams, r, n) {
      assert r.free(n) < 0;
      UnreadableDiskKeepsDeleting(Without(files, Oldest(files, cams, r.now(n)).value), cams, total, r.free(n), r,
        n + 1);
    }
  }

  // ── Retention is enforced ──

  lemma {:induction false} OldFilesGo(files: seq<File>, now: int, age: int, picks: seq<bool>, unlinks: File -> bool)
    ensures forall f :: f in RemoveOld(files, now, age, picks, unlinks).left ==>
      f in files && !(Picked(f, picks) && TooOld(f, now, age) && unlinks(f))
    decreases |files|
  {
    hide Picked, TooOld;
    if files == [] {
    } else {
      OldFilesGo(files[..|files| - 1], now, age, picks, unlinks);
    }
  }

  /** After a rotation an enabled camera has no recording beyond its retention left, unless its unlink failed. */
  lemma {:induction false} RetentionIsEnforced(files: seq<File>, cfg: Config, e: Env, f: File)
    requires f in Rotate(files, cfg, e).left
    ensures f in files && !(Picked(f, cfg.enabled) && TooOld(f, e.now, MaxAge(cfg)) && e.unlinks(f))
  {
    hide RemoveOld, Pressure, Over90, Picked, TooOld, MaxAge, Everyone;
    var aged := RemoveOld(files, e.now, MaxAge(cfg), cfg.enabled, e.unlinks);
    OldFilesGo(files, e.now, MaxAge(cfg), cfg.enabled, e.unlinks);
    PressureTakesFinished(aged.left, |cfg.enabled|, e.total, e.free, e.readings, 0);
    var eased := if e.total > 0 && e.free >= 0 && Over90(e.total, e.free)
                 then Pressure(aged.left, |cfg.enabled|, e.total, e.free, e.readings, 0).0
                 else Swept(aged.left, []);
    OldFilesGo(eased.left, e.late, EMERGENCY_AGE, Everyone(cfg), e.unlinks);
  }

  // ── The last two minutes are safe ──

  /** Nothing written in the two minutes before its removal was removed. */
  ghost predicate SparesRecent(gone: seq<Removal>) {
    forall i :: 0 <= i < |gone| ==> gone[i].file.mtime <= gone[i].at - ACTIVE_SEC
  }

  lemma {:induction false} RemoveOldSparesRecent(files: seq<File>, now: int, age: int, picks: seq<bool>,
                                                 unlinks: File -> bool)
    requires age >= ACTIVE_SEC
    ensures SparesRecent(RemoveOld(files, now, age, picks, unlinks).gone)
    decreases |files|
  {
    if files == [] {
    } else {
      RemoveOldSparesRecent(files[..|files| - 1], now, age, picks, unlinks);
    }
  }

  lemma {:induction false} RotateSparesRecent(files: seq<File>, cfg: Config, e: Env)
    requires MaxAge(cfg) >= ACTIVE_SEC
    ensures SparesRecent(Rotate(files, cfg, e).gone)
  {
    hide RemoveOld, Pressure, Over90, MaxAge, Everyone;
    var aged := RemoveOld(files, e.now, MaxAge(cfg), cfg.enabled, e.unlinks);
    RemoveOldSparesRecent(files, e.now, MaxAge(cfg), cfg.enabled, e.unlinks);
    PressureTakesFinished(aged.left, |cfg.enabled|, e.total, e.free, e.readings, 0);
    var eased := if e.total > 0 && e.free >= 0 && Over90(e.total, e.free)
                 then Pressure(aged.left, |cfg.enabled|, e.total, e.free, e.readings, 0).0
                 else Swept(aged.left, []);
    RemoveOldSparesRecent(eased.left, e.late, EMERGENCY_AGE, Everyone(cfg), e.unlinks);
  }

  /** A recording written a second ago. */
  function JustWritten(cam: nat, now: int): File { File(cam, "2026-01-01", "a.mp4", now - 1) }

  lemma {:induction false} NoAgeRemovesRecent(cfg: Config, cam: nat, e: Env)
    requires cam < |cfg.enabled| && cfg.enabled[cam] && MaxAge(cfg) <= 0
    requires e.unlinks(JustWritten(cam, e.now))
    ensures !SparesRecent(Rotate([JustWritten(cam, e.now)], cfg, e).gone)
  {
    hide MaxAge, Pressure, Over90;
    var f := JustWritten(cam, e.now);
    var aged := RemoveOld([f], e.now, MaxAge(cfg), cfg.enabled, e.unlinks);
    assert [f][..|[f]| - 1] == [] && "a.mp4"[1..] == ".mp4";
    assert TooOld(f, e.now, MaxAge(cfg)) && Picked(f, cfg.enabled) && [f][|[f]| - 1] == f;
    assert RemoveOld([], e.now, MaxAge(cfg), cfg.enabled, e.unlinks) == Swept([], []);
    assert aged == Swept([], [Removal(f, e.now)]);
    assert Rotate([f], cfg, e).gone[0] == Removal(f, e.now);
  }

  /** A wrapped number of days in seconds is zero, negative, or at least 128. */
  lemma {:induction false} WrappedDays(ttl: int)
    ensures CText.ToInt32(ttl * 86400) > 0 ==> CText.ToInt32(ttl * 86400) >= 128
  {
    var n, q := ttl * 86400, (ttl * 86400) / 0x1_0000_0000;
    assert n % 0x1_0000_0000 == n - 0x1_0000_0000 * q;
    assert n % 0x1_0000_0000 == 128 * (675 * ttl - 0x200_0000 * q);
  }

  ghost predicate AlwaysSparesRecent(cfg: Config) {
    forall files, e :: SparesRecent(Rotate(files, cfg, e).gone)
  }

  /**
   No phase of any rotation removes a recording written in the last two minutes, exactly when the
   recordings are on internal flash or the retention in seconds, as a 32-bit int, is positive.
   */
  lemma {:induction false} RecentAreSafeExactly(cfg: Config, cam: nat)
    requires cam < |cfg.enabled| && cfg.enabled[cam]
    ensures AlwaysSparesRecent(cfg) <==> !cfg.sdAvailable || CText.ToInt32(cfg.recordsTtl * 86400) > 0
  {
    hide Rotate, SparesRecent, CText.ToInt32;
    WrappedDays(cfg.recordsTtl);
    if !cfg.sdAvailable || CText.ToInt32(cfg.recordsTtl * 86400) > 0 {
      forall files, e ensures SparesRecent(Rotate(files, cfg, e).gone) { RotateSparesRecent(files, cfg, e); }
    } else {
      var e := Env(0, 0, 0, Readings(_ => 0, _ => 0, _ => false), 0, _ => true);
      NoAgeRemovesRecent(cfg, cam, e);
    }
  }

  /** Every retention from one day to 24855 days is safe; 24856 days overflow, and none is not a retention. */
  lemma {:induction false} SafeRetentions(ttl: int)
    ensures 1 <= ttl <= 24855 ==> CText.ToInt32(ttl * 86400) == ttl * 86400 > 0
    ensures CText.ToInt32(24856 * 86400) < 0
    ensures -24855 <= ttl <= 0 ==> CText.ToInt32(ttl * 86400) <= 0
  {
  }
}
