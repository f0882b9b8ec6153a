/**
 Uploading recordings (storage_scan_pending in src/storage.c, upload_pending_records in src/main.c,
 markers in src/sync.c). A marker file beside the recording is what keeps it from going out twice.
 */
module Upload {
  import opened Common
  import Storage

  const MAX_PENDING := 10
  const MIN_UPLOAD_SIZE := 512 * 1024

  /** An entry of <base>/<cam>/<date>/video. */
  datatype Recording = Recording(date: string, name: string, mtime: int, size: int)

  /** The marker files, the uploads that succeeded, in order, and the recordings the uploader deleted. */
  datatype State = State(markers: set<string>, log: seq<string>, deleted: set<string>)

  function PathOf(base: string, cam: string, r: Recording): string {
    base + "/" + cam + "/" + r.date + "/video/" + r.name
  }

  // ── Scanning ──

  predicate Eligible(base: string, cam: string, r: Recording, markers: set<string>, now: int) {
    && !Storage.Hidden(r.date) && !Storage.Hidden(r.name) && Storage.IsMp4(r.name)
    && PathOf(base, cam, r) + ".uploaded" !in markers
    && now - r.mtime >= 10 && r.size >= MIN_UPLOAD_SIZE
  }

  /** The first ten eligible entries, in directory order. */
  function Scan(base: string, cam: string, listing: seq<Recording>, markers: set<string>, now: int): seq<string> {
    if listing == [] then []
    else
      var before, r := Scan(base, cam, listing[..|listing| - 1], markers, now), listing[|listing| - 1];
      if |before| < MAX_PENDING && Eligible(base, cam, r, markers, now) then before + [PathOf(base, cam, r)] else before
  }

  // ── The date and the file name read back from a path ──

  predicate LooksDated(s: string) { |s| >= 10 && s[4] == '-' && s[7] == '-' }

  /** The ten characters after the first slash they look like a date after. */
  function FindDate(s: string): Option<string> {
    if s == [] then None
    else if s[0] == '/' && LooksDated(s[1..]) then Some(s[1..][..10])
    else FindDate(s[1..])
  }

  function DateOf(path: string, today: string): string {
    match FindDate(path)
    case Some(d) => d
    case None => today
  }

  /** Everything after the last slash. */
  function BaseName(s: string): string {
    if '/' !in s then s else BaseName(s[1..])
  }

  /** The marker sync_mark_uploaded creates for an uploaded path. */
  function MarkerOf(base: string, cam: string, path: string, today: string): string {
    base + "/" + (cam + "/" + DateOf(path, today) + "/video/" + BaseName(path)) + ".uploaded"
  }

  // ── Uploading ──

  /**
   What one round meets: the camera, its directory, clock and date, and which uploads and unlinks
   work under low disk.
   */
  datatype Round = Round(
    cam: string,
    listing: seq<Recording>,
    now: int,
    today: string,
    uploads: string -> bool,
    cleans: string -> bool)

  function UploadOne(s: State, base: string, r: Round, path: string): State {
    if !r.uploads(path) then s
    else State(
      s.markers + {MarkerOf(base, r.cam, path, r.today)},
      s.log + [path],
      if r.cleans(path) then s.deleted + {path} else s.deleted)
  }

  function UploadAll(s: State, base: string, r: Round, paths: seq<string>): State {
    if paths == [] then s
    else UploadOne(UploadAll(s, base, r, paths[..|paths| - 1]), base, r, paths[|paths| - 1])
  }

  function UploadRound(s: State, base: string, r: Round): State {
    UploadAll(s, base, r, Scan(base, r.cam, r.listing, s.markers, r.now))
  }

  function UploadRounds(s: State, base: string, rs: seq<Round>): State
    decreases |rs|
  {
    if rs == [] then s else UploadRounds(UploadRound(s, base, rs[0]), base, rs[1..])
  }

  // ── In place ──

  /** storage_scan_pending. */
  method ScanPending(base: string, cam: string, listing: seq<Recording>, markers: set<string>, now: int)
    returns (paths: seq<string>)
    ensures paths == Scan(base, cam, listing, markers, now)
  {
    hide Eligible, PathOf;
    paths := [];
    var i := 0;
    while i < |listing| && |paths| < MAX_PENDING
      invariant i <= |listing|
      invariant paths == Scan(base, cam, listing[..i], markers, now)
    {
      assert listing[..i + 1][..i] == listing[..i];
      if Eligible(base, cam, listing[i], markers, now) {
        paths := paths + [PathOf(base, cam, listing[i])];
      }
      i := i + 1;
    }
    FullScanIsDone(base, cam, listing, i, markers, now);
  }

  /** Once ten are found, or the listing is over, nothing more is added. */
  lemma {:induction false} FullScanIsDone(base: string, cam: string, listing: seq<Recording>, i: nat,
                                          markers: set<string>, now: int)
    requires i <= |listing| && (i == |listing| || |Scan(base, cam, listing[..i], markers, now)| >= MAX_PENDING)
    ensures Scan(base, cam, listing[..i], markers, now) == Scan(base, cam, listing, markers, now)
    decreases |listing| - i
  {
    hide Eligible, PathOf;
    if i == |listing| {
      assert listing[..i] == listing;
    } else {
      assert listing[..i + 1][..i] == listing[..i];
      FullScanIsDone(base, cam, listing, i + 1, markers, now);
    }
  }

  class Uploader {
    var markers: set<string>
    var log: seq<string>
    var deleted: set<string>

    function Current(): State
      reads this
    {
      State(markers, log, deleted)
    }

    constructor ()
      ensures Current() == State({}, [], {})
    {
      markers, log, deleted := {}, [], {};
    }

    /** upload_pending_records; answers how many uploads worked and how many failed. */
    method UploadPending(base: string, r: Round) returns (ok: nat, fail: nat)
      modifies this
      ensures Current() == UploadRound(old(Current()), base, r)
      ensures ok == |log| - |old(log)|
      ensures ok + fail == |Scan(base, r.cam, r.listing, old(markers), r.now)|
    {
      hide Scan, MarkerOf;
      var paths := ScanPending(base, r.cam, r.listing, markers, r.now);
      ok, fail := 0, 0;
      for i := 0 to |paths|
        invariant Current() == UploadAll(old(Current()), base, r, paths[..i])
        invariant ok == |log| - |old(log)| && ok + fail == i
      {
        assert paths[..i + 1][..i] == paths[..i];
        if r.uploads(paths[i]) {
          log := log + [paths[i]];
          markers := markers + {MarkerOf(base, r.cam, paths[i], r.today)};
          ok := ok + 1;
          if r.cleans(paths[i]) { deleted := deleted + {paths[i]}; }
        } else {
          fail := fail + 1;
        }
      }
      assert paths[..|paths|] == paths;
    }
  }

  // ── The marker written is the marker scanned ──

  lemma {:induction false} BaseNameAfterSlash(a: string, name: string)
    requires '/' !in name
    ensures BaseName(a + "/" + name) == name
    decreases |a|
  {
    var s := a + "/" + name;
    assert s[|a|] == '/';
    if a == [] {
      assert s[1..] == name;
    } else {
      assert s[1..] == a[1..] + "/" + name;
      BaseNameAfterSlash(a[1..], name);
    }
  }

  lemma {:induction false} MiddleCancels(a: string, x: string, y: string, b: string)
    ensures a + x + b == a + y + b <==> x == y
  {
    if a + x + b == a + y + b {
      assert |x| == |y|;
      assert x == (a + x + b)[|a|..|a| + |x|] && y == (a + y + b)[|a|..|a| + |y|];
    }
  }

  /** They agree exactly when the date read back from the path is the date directory. */
  lemma {:induction false} MarkersAgreeExactly(base: string, cam: string, r: Recording, today: string)
    requires '/' !in r.name
    ensures MarkerOf(base, cam, PathOf(base, cam, r), today) == PathOf(base, cam, r) + ".uploaded"
      <==> DateOf(PathOf(base, cam, r), today) == r.date
  {
    hide DateOf, BaseName;
    var path := PathOf(base, cam, r);
    var d := DateOf(path, today);
    BaseNameAfterSlash(base + "/" + cam + "/" + r.date + "/video", r.name);
    assert path == base + "/" + cam + "/" + r.date + "/video" + "/" + r.name;
    var a, b := base + "/" + cam + "/", "/video/" + r.name + ".uploaded";
    assert MarkerOf(base, cam, path, today) == a + d + b;
    assert path + ".uploaded" == a + r.date + b;
    MiddleCancels(a, d, r.date, b);
  }

  ghost predicate DatedAt(s: string, i: nat) { i < |s| && s[i] == '/' && LooksDated(s[i + 1..]) }

  lemma {:induction false} FirstDateIsFound(s: string, k: nat)
    requires DatedAt(s, k) && forall i: nat :: i < k ==> !DatedAt(s, i)
    ensures FindDate(s) == Some(s[k + 1..][..10])
    decreases k
  {
    if k == 0 {
    } else {
      assert !DatedAt(s, 0);
      assert s[1..][k - 1] == s[k] && s[1..][k..] == s[k + 1..];
      forall i: nat | i < k - 1 ensures !DatedAt(s[1..], i) {
        assert !DatedAt(s, i + 1);
        assert s[1..][i + 1..] == s[i + 2..];
      }
      FirstDateIsFound(s[1..], k - 1);
      assert s[1..][k..][..10] == s[k + 1..][..10];
    }
  }

  /** A ten-character date directory is read back when no earlier part of the path looks like a date. */
  lemma {:induction false} DateDirectoryIsFound(base: string, cam: string, r: Recording, today: string)
    requires |r.date| == 10 && r.date[4] == '-' && r.date[7] == '-'
    requires forall i: nat :: i < |base| + 1 + |cam| ==> !DatedAt(PathOf(base, cam, r), i)
    ensures DateOf(PathOf(base, cam, r), today) == r.date
  {
    var path, k := PathOf(base, cam, r), |base| + 1 + |cam|;
    var rest := r.date + "/video/" + r.name;
    assert path == base + "/" + cam + "/" + rest;
    assert path[k] == '/' && path[k + 1..] == rest;
    assert rest[4] == '-' && rest[7] == '-' && rest[..10] == r.date;
    FirstDateIsFound(path, k);
  }
}
