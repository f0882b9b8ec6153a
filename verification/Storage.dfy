/** Rotation of recordings (src/storage.c, src/util.c): retention by age, then cleanup under disk pressure. */
module Storage {
  import opened Common
  import CText

  /** A file under <record_base>/<camera>/<date>/video; `cam` indexes the configured cameras. */
  datatype File = File(cam: nat, date: string, name: string, mtime: int)

  /** A removal and the clock reading it was decided on. */
  datatype Removal = Removal(file: File, at: int)

  datatype Config = Config(enabled: seq<bool>, sdAvailable: bool, recordsTtl: int)

  const ACTIVE_SEC := 120
  const FLASH_MAX_AGE := 30 * 60
  const EMERGENCY_AGE := 600
  const MAX_PRESSURE_REMOVALS := 500

  predicate IsMp4(name: string) { |name| >= 4 && name[|name| - 4..] == ".mp4" }

  predicate Hidden(name: string) { name != "" && name[0] == '.' }

  /** The retention in seconds, a C int product. */
  function MaxAge(cfg: Config): int {
    if cfg.sdAvailable then CText.ToInt32(cfg.recordsTtl * 86400) else FLASH_MAX_AGE
  }

  // ── Removal by age ──

  /** remove_old_files: what it takes for a file to be unlinked. */
  predicate TooOld(f: File, now: int, age: int) {
    !Hidden(f.date) && !Hidden(f.name) && IsMp4(f.name) && f.mtime < now - age
  }

  predicate Picked(f: File, picks: seq<bool>) { f.cam < |picks| && picks[f.cam] }

  /** Every configured camera, enabled or not. */
  function Everyone(cfg: Config): seq<bool> { seq(|cfg.enabled|, _ => true) }

  /** What one phase does to a list of files: those left, and those removed. */
  datatype Swept = Swept(left: seq<File>, gone: seq<Removal>)

  /** Removal by age over the cameras picked; `unlinks` says which unlinks work. */
  function RemoveOld(files: seq<File>, now: int, age: int, picks: seq<bool>, unlinks: File -> bool): Swept {
    if files == [] then Swept([], [])
    else
      var init, f := RemoveOld(files[..|files| - 1], now, age, picks, unlinks), files[|files| - 1];
      if Picked(f, picks) && TooOld(f, now, age) && unlinks(f) then Swept(init.left, init.gone + [Removal(f, now)])
      else Swept(init.left + [f], init.gone)
  }

  // ── The oldest finished recording ──

  /** A finished recording of one of the `cams` configured cameras. */
  predicate Candidate(f: File, cams: nat, now: int) {
    f.cam < cams && !Hidden(f.date) && IsMp4(f.name) && f.mtime <= now - ACTIVE_SEC
  }

  /** The scan of remove_oldest_recording: the first of the oldest candidates. */
  function Oldest(files: seq<File>, cams: nat, now: int): (r: Option<nat>)
    ensures r.Some? ==> r.value < |files|
  {
    if files == [] then None
    else
      var k, f := Oldest(files[..|files| - 1], cams, now), files[|files| - 1];
      if Candidate(f, cams, now) && (k.None? || f.mtime < files[k.value].mtime) then Some(|files| - 1) else k
  }

  /** The scan finds nothing only if there is no candidate; what it finds is a candidate no other is older than. */
  lemma {:induction false} OldestIsOldest(files: seq<File>, cams: nat, now: int)
    ensures Oldest(files, cams, now).None? ==> forall i :: 0 <= i < |files| ==> !Candidate(files[i], cams, now)
    ensures Oldest(files, cams, now).Some? ==> Candidate(files[Oldest(files, cams, now).value], cams, now)
    ensures Oldest(files, cams, now).Some? ==>
      forall i :: 0 <= i < |files| && Candidate(files[i], cams, now) ==>
        files[Oldest(files, cams, now).value].mtime <= files[i].mtime
    decreases |files|
  {
    hide Candidate;
    if files == [] {
    } else {
      var init := files[..|files| - 1];
      OldestIsOldest(init, cams, now);
      forall i | 0 <= i < |init| ensures files[i] == init[i] {}
    }
  }

  function Without(files: seq<File>, k: nat): seq<File>
    requires k < |files|
  {
    files[..k] + files[k + 1..]
  }

  // ── The pressure loop ──

  /** The readings of the pressure loop: clock, free space after each removal, and whether each remove() works. */
  datatype Readings = Readings(now: nat -> int, free: nat -> int, removes: nat -> bool)

  predicate Over85(total: int, free: int) { (total - free) * 100 > total * 85 }

  predicate Over90(total: int, free: int) { (total - free) * 100 >= total * 90 }

  /** remove_oldest_recording succeeds. */
  predicate Removes(files: seq<File>, cams: nat, r: Readings, n: nat) {
    Oldest(files, cams, r.now(n)).Some? && r.removes(n)
  }

  /** The loop with `n` removals done and `free` the last reading of free space. */
  function Pressure(files: seq<File>, cams: nat, total: int, free: int, r: Readings, n: nat): (Swept, int)
    decreases MAX_PRESSURE_REMOVALS - n
  {
    if !Over85(total, free) || n >= MAX_PRESSURE_REMOVALS || !Removes(files, cams, r, n) then (Swept(files, []), free)
    else
      var k := Oldest(files, cams, r.now(n)).value;
      var (rest, last) := Pressure(Without(files, k), cams, total, r.free(n), r, n + 1);
      (Swept(rest.left, [Removal(files[k], r.now(n))] + rest.gone), last)
  }

  /** The whole loop is what it has removed so far, followed by the loop from here. */
  ghost predicate Ahead(whole: (Swept, int), before: seq<Removal>, gone: seq<Removal>,
                        files: seq<File>, cams: nat, total: int, free: int, r: Readings, n: nat)
  {
    && whole.0.left == Pressure(files, cams, total, free, r, n).0.left
    && before + whole.0.gone == gone + Pressure(files, cams, total, free, r, n).0.gone
    && whole.1 == Pressure(files, cams, total, free, r, n).1
  }

  lemma {:induction false} AheadAtStart(before: seq<Removal>, files: seq<File>, cams: nat, total: int, free: int,
                                        r: Readings)
    ensures Ahead(Pressure(files, cams, total, free, r, 0), before, before, files, cams, total, free, r, 0)
  {
    hide Pressure;
  }

  lemma {:induction false} AheadStep(whole: (Swept, int), before: seq<Removal>, gone: seq<Removal>,
                                     files: seq<File>, cams: nat, total: int, free: int, r: Readings, n: nat)
    requires Ahead(whole, before, gone, files, cams, total, free, r, n)
    requires Over85(total, free) && n < MAX_PRESSURE_REMOVALS && Removes(files, cams, r, n)
    ensures var k := Oldest(files, cams, r.now(n)).value;
            Ahead(whole, before, gone +
              [Removal(files[k], r.now(n))], Without(files, k), cams, total, r.free(n), r, n + 1)
  {
    hide Oldest, Over85, Without;
    var k := Oldest(files, cams, r.now(n)).value;
    var next := Pressure(Without(files, k), cams, total, r.free(n), r, n + 1);
    var x := Removal(files[k], r.now(n));
    assert Pressure(files, cams, total, free, r, n) == (Swept(next.0.left, [x] + next.0.gone), next.1);
    assert gone + ([x] + next.0.gone) == gone + [x] + next.0.gone;
  }

  lemma {:induction false} AheadAtEnd(whole: (Swept, int), before: seq<Removal>, gone: seq<Removal>,
                                      files: seq<File>, cams: nat, total: int, free: int, r: Readings, n: nat)
    requires Ahead(whole, before, gone, files, cams, total, free, r, n)
    requires !Over85(total, free) || n >= MAX_PRESSURE_REMOVALS || !Removes(files, cams, r, n)
    ensures whole.0.left == files && before + whole.0.gone == gone && whole.1 == free
  {
    assert Pressure(files, cams, total, free, r, n) == (Swept(files, []), free);
    assert gone + [] == gone;
  }

  // ── storage_rotate ──

  /** The rest of what a rotation meets: clock and free space around its phases, and which unlinks work. */
  datatype Env = Env(now: int, total: int, free: int, readings: Readings, late: int, unlinks: File -> bool)

  function Rotate(files: seq<File>, cfg: Config, e: Env): Swept {
    var aged := RemoveOld(files, e.now, MaxAge(cfg), cfg.enabled, e.unlinks);
    var (eased, free) := if e.total > 0 && e.free >= 0 && Over90(e.total, e.free)
                         then Pressure(aged.left, |cfg.enabled|, e.total, e.free, e.readings, 0)
                         else (Swept(aged.left, []), e.free);
    var urgent := if 0 <= free < 50
                  then RemoveOld(eased.left, e.late, EMERGENCY_AGE, Everyone(cfg), e.unlinks)
                  else Swept(eased.left, []);
    Swept(urgent.left, aged.gone + eased.gone + urgent.gone)
  }

  // ── In place ──

  class Recordings {
    var files: seq<File>
    ghost var gone: seq<Removal>

    constructor (files: seq<File>)
      ensures this.files == files && gone == []
    {
      this.files, gone := files, [];
    }

    /** remove_old_files over the directories of the cameras picked. */
    method RemoveOldFiles(now: int, age: int, picks: seq<bool>, unlinks: File -> bool) returns (removed: nat)
      modifies this
      ensures files == RemoveOld(old(files), now, age, picks, unlinks).left
      ensures gone == old(gone) + RemoveOld(old(files), now, age, picks, unlinks).gone
      ensures removed == |gone| - |old(gone)|
    {
      hide TooOld;
      var listed := files;
      var left: seq<File> := [];
      removed := 0;
      for i := 0 to |listed|
        invariant left == RemoveOld(listed[..i], now, age, picks, unlinks).left
        invariant gone == old(gone) + RemoveOld(listed[..i], now, age, picks, unlinks).gone
        invariant removed == |gone| - |old(gone)|
      {
        var f := listed[i];
        assert listed[..i + 1][..i] == listed[..i];
        if Picked(f, picks) && TooOld(f, now, age) && unlinks(f) {
          gone := gone + [Removal(f, now)];
          removed := removed + 1;
        } else {
          left := left + [f];
        }
      }
      assert listed[..|listed|] == listed;
      files := left;
    }

    /** remove_oldest_recording. */
    method RemoveOldest(cams: nat, now: int, removes: bool) returns (ok: bool)
      modifies this
      ensures ok <==> Oldest(old(files), cams, now).Some? && removes
      ensures ok ==> files == Without(old(files), Oldest(old(files), cams, now).value)
      ensures ok ==> gone == old(gone) + [Removal(old(files)[Oldest(old(files), cams, now).value], now)]
      ensures !ok ==> files == old(files) && gone == old(gone)
    {
      hide Candidate;
      var oldest: Option<nat> := None;
      for i := 0 to |files|
        invariant oldest == Oldest(files[..i], cams, now)
        invariant files == old(files) && gone == old(gone)
      {
        assert files[..i + 1][..i] == files[..i];
        if Candidate(files[i], cams, now) && (oldest.None? || files[i].mtime < files[oldest.value].mtime) {
          oldest := Some(i);
        }
      }
      assert files[..|files|] == files;
      if oldest.None? || !removes { return false; }
      gone := gone + [Removal(files[oldest.value], now)];
      files := files[..oldest.value] + files[oldest.value + 1..];
      return true;
    }

    /** The loop under disk pressure: oldest first, until usage is down, the quota is spent or nothing goes. */
    method Relieve(cams: nat, total: int, start: int, r: Readings) returns (free: int, removed: nat)
      modifies this
      ensures files == Pressure(old(files), cams, total, start, r, 0).0.left
      ensures gone == old(gone) + Pressure(old(files), cams, total, start, r, 0).0.gone
      ensures free == Pressure(old(files), cams, total, start, r, 0).1 && removed == |gone| - |old(gone)|
    {
      hide Oldest, Over85, Pressure, Ahead;
      free, removed := start, 0;
      ghost var whole, before := Pressure(files, cams, total, start, r, 0), gone;
      AheadAtStart(before, files, cams, total, start, r);
      while Over85(total, free) && removed < MAX_PRESSURE_REMOVALS
        invariant removed <= MAX_PRESSURE_REMOVALS
        invariant Ahead(whole, before, gone, files, cams, total, free, r, removed)
        invariant removed == |gone| - |before|
        decreases MAX_PRESSURE_REMOVALS - removed
      {
        ghost var was, soFar := files, gone;
        var ok := RemoveOldest(cams, r.now(removed), r.removes(removed));
        if !ok { break; }
        AheadStep(whole, before, soFar, was, cams, total, free, r, removed);
        free := r.free(removed);
        removed := removed + 1;
      }
      AheadAtEnd(whole, before, gone, files, cams, total, free, r, removed);
    }

    method RotateAll(cfg: Config, e: Env) returns (total: nat)
      modifies this
      ensures files == Rotate(old(files), cfg, e).left
      ensures gone == old(gone) + Rotate(old(files), cfg, e).gone
      ensures total == |gone| - |old(gone)|
    {
      hide Pressure, RemoveOld, Over90;
      total := RemoveOldFiles(e.now, MaxAge(cfg), cfg.enabled, e.unlinks);
      var free, removed := e.free, 0;
      if e.total > 0 && e.free >= 0 && Over90(e.total, e.free) {
        free, removed := Relieve(|cfg.enabled|, e.total, e.free, e.readings);
        total := total + removed;
      }
      if 0 <= free < 50 {
        removed := RemoveOldFiles(e.late, EMERGENCY_AGE, Everyone(cfg), e.unlinks);
        total := total + removed;
      }
    }
  }
}
