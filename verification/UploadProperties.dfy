/** Across all upload rounds each recording goes out at most once, and is deleted only after it did. */
module UploadProperties {
  import opened Common
  import opened Upload

  ghost predicate NoDup(s: seq<string>) { forall i, j :: 0 <= i < j < |s| ==> s[i] != s[j] }

  /** What was uploaded carries its marker, was uploaded once, and only such recordings were deleted. */
  ghost predicate Inv(s: State) {
    && NoDup(s.log)
    && (forall p :: p in s.log ==> p + ".uploaded" in s.markers)
    && (forall p :: p in s.deleted ==> p in s.log)
  }

  /** A listing a file system can give, in which every path leads back to its own date directory. */
  ghost predicate Faithful(base: string, r: Round) {
    && (forall i, j :: 0 <= i < j < |r.listing| ==>
      PathOf(base, r.cam, r.listing[i]) != PathOf(base, r.cam, r.listing[j]))
    && (forall i :: 0 <= i < |r.listing| ==>
         '/' !in r.listing[i].name && DateOf(PathOf(base, r.cam, r.listing[i]), r.today) == r.listing[i].date)
  }

  ghost predicate IsListed(base: string, cam: string, listing: seq<Recording>, p: string) {
    exists i :: 0 <= i < |listing| && p == PathOf(base, cam, listing[i])
  }

  lemma {:induction false} ListedExtends(base: string, cam: string, listing: seq<Recording>, p: string)
    requires listing != [] && IsListed(base, cam, listing[..|listing| - 1], p)
    ensures IsListed(base, cam, listing, p)
  {
    hide PathOf;
    var init := listing[..|listing| - 1];
    var i :| 0 <= i < |init| && p == PathOf(base, cam, init[i]);
    assert listing[i] == init[i];
  }

  /** A scan lists unmarked recordings only, each once, and at most ten. */
  lemma {:induction false} ScanIsSound(base: string, cam: string, listing: seq<Recording>, markers: set<string>,
                                       now: int)
    requires forall i, j :: 0 <= i < j < |listing| ==> PathOf(base, cam, listing[i]) != PathOf(base, cam, listing[j])
    ensures NoDup(Scan(base, cam, listing, markers, now)) && |Scan(base, cam, listing, markers, now)| <= MAX_PENDING
    ensures forall p :: p in Scan(base, cam, listing, markers, now) ==>
      p + ".uploaded" !in markers && IsListed(base, cam, listing, p)
    decreases |listing|
  {
    hide PathOf, IsListed;
    if listing == [] {
    } else {
      var init, r := listing[..|listing| - 1], listing[|listing| - 1];
      var before := Scan(base, cam, init, markers, now);
      ScanIsSound(base, cam, init, markers, now);
      var p := PathOf(base, cam, r);
      forall q | q in before ensures q != p && IsListed(base, cam, listing, q) {
        ListedExtends(base, cam, listing, q);
        LastIsNew(base, cam, listing, q);
      }
      LastIsListed(base, cam, listing);
    }
  }

  lemma {:induction false} LastIsListed(base: string, cam: string, listing: seq<Recording>)
    requires listing != []
    ensures IsListed(base, cam, listing, PathOf(base, cam, listing[|listing| - 1]))
  {
  }

  lemma {:induction false} LastIsNew(base: string, cam: string, listing: seq<Recording>, q: string)
    requires listing != [] && IsListed(base, cam, listing[..|listing| - 1], q)
    requires forall i, j :: 0 <= i < j < |listing| ==> PathOf(base, cam, listing[i]) != PathOf(base, cam, listing[j])
    ensures q != PathOf(base, cam, listing[|listing| - 1])
  {
    hide PathOf;
    var init := listing[..|listing| - 1];
    var i :| 0 <= i < |init| && q == PathOf(base, cam, init[i]);
    assert listing[i] == init[i];
  }

  lemma {:induction false} OneKeeps(s: State, base: string, r: Round, path: string)
    requires Inv(s) && path !in s.log && MarkerOf(base, r.cam, path, r.today) == path + ".uploaded"
    ensures Inv(UploadOne(s, base, r, path))
    ensures forall p :: p in UploadOne(s, base, r, path).log ==> p in s.log || p == path
  {
    hide MarkerOf;
  }

  lemma {:induction false} AllKeep(s: State, base: string, r: Round, paths: seq<string>)
    requires Inv(s) && NoDup(paths)
    requires forall p :: p in paths ==> p !in s.log && MarkerOf(base, r.cam, p, r.today) == p + ".uploaded"
    ensures Inv(UploadAll(s, base, r, paths))
    ensures forall p :: p in UploadAll(s, base, r, paths).log ==> p in s.log || p in paths
    decreases |paths|
  {
    hide Inv, UploadOne, MarkerOf;
    if paths == [] {
    } else {
      var init, last := paths[..|paths| - 1], paths[|paths| - 1];
      AllKeep(s, base, r, init);
      assert last !in init;
      OneKeeps(UploadAll(s, base, r, init), base, r, last);
    }
  }

  lemma {:induction false} ListedIsMarked(base: string, r: Round, p: string)
    requires Faithful(base, r) && IsListed(base, r.cam, r.listing, p)
    ensures MarkerOf(base, r.cam, p, r.today) == p + ".uploaded"
  {
    hide MarkerOf, PathOf, DateOf;
    var i :| 0 <= i < |r.listing| && p == PathOf(base, r.cam, r.listing[i]);
    MarkersAgreeExactly(base, r.cam, r.listing[i], r.today);
  }

  lemma {:induction false} RoundKeeps(s: State, base: string, r: Round)
    requires Inv(s) && Faithful(base, r)
    ensures Inv(UploadRound(s, base, r))
  {
    hide Scan, UploadAll, MarkerOf, PathOf, DateOf, IsListed;
    var paths := Scan(base, r.cam, r.listing, s.markers, r.now);
    ScanIsSound(base, r.cam, r.listing, s.markers, r.now);
    forall p | p in paths ensures p !in s.log && MarkerOf(base, r.cam, p, r.today) == p + ".uploaded" {
      ListedIsMarked(base, r, p);
    }
    AllKeep(s, base, r, paths);
  }

  /** Over any sequence of rounds, over any cameras, failing uploads and unlinks included. */
  lemma {:induction false} AtMostOnce(s: State, base: string, rs: seq<Round>)
    requires Inv(s) && forall i :: 0 <= i < |rs| ==> Faithful(base, rs[i])
    ensures NoDup(UploadRounds(s, base, rs).log)
    ensures UploadRounds(s, base, rs).deleted <= set p | p in UploadRounds(s, base, rs).log
    decreases |rs|
  {
    hide Faithful, UploadRound;
    if rs == [] {
    } else {
      RoundKeeps(s, base, rs[0]);
      AtMostOnce(UploadRound(s, base, rs[0]), base, rs[1..]);
    }
  }

  // ── One recording among any others ──

  ghost predicate AtMostOnceIn(log: seq<string>, p: string) {
    forall i, j :: 0 <= i < j < |log| ==> !(log[i] == p && log[j] == p)
  }

  ghost predicate DistinctPaths(base: string, r: Round) {
    forall i, j :: 0 <= i < j < |r.listing| ==> PathOf(base, r.cam, r.listing[i]) != PathOf(base, r.cam, r.listing[j])
  }

  /** This recording went out once at most, and carries its marker if it did. */
  ghost predicate Settled(s: State, p: string) {
    AtMostOnceIn(s.log, p) && (p in s.log ==> p + ".uploaded" in s.markers)
  }

  lemma {:induction false} LogGrows(s: State, base: string, r: Round, paths: seq<string>)
    ensures forall p :: p in UploadAll(s, base, r, paths).log ==> p in s.log || p in paths
    decreases |paths|
  {
    hide MarkerOf;
    if paths == [] {
    } else {
      LogGrows(s, base, r, paths[..|paths| - 1]);
    }
  }

  lemma {:induction false} AllSettle(s: State, base: string, r: Round, paths: seq<string>, p: string)
    requires Settled(s, p) && NoDup(paths)
    requires p in paths ==> p !in s.log && MarkerOf(base, r.cam, p, r.today) == p + ".uploaded"
    ensures Settled(UploadAll(s, base, r, paths), p)
    decreases |paths|
  {
    hide MarkerOf;
    if paths == [] {
    } else {
      var init, last := paths[..|paths| - 1], paths[|paths| - 1];
      AllSettle(s, base, r, init, p);
      LogGrows(s, base, r, init);
      assert last !in init;
    }
  }

  lemma {:induction false} RoundSettles(s: State, base: string, r: Round, p: string)
    requires Settled(s, p) && DistinctPaths(base, r) && MarkerOf(base, r.cam, p, r.today) == p + ".uploaded"
    ensures Settled(UploadRound(s, base, r), p)
  {
    hide Scan, UploadAll, MarkerOf, PathOf, IsListed;
    var paths := Scan(base, r.cam, r.listing, s.markers, r.now);
    ScanIsSound(base, r.cam, r.listing, s.markers, r.now);
    AllSettle(s, base, r, paths, p);
  }

  /** The rounds of one camera, on whatever days and whatever else its directory holds. */
  ghost predicate RoundsOf(base: string, cam: string, rs: seq<Round>) {
    forall i :: 0 <= i < |rs| ==> rs[i].cam == cam && DistinctPaths(base, rs[i])
  }

  lemma {:induction false} RoundsSettle(s: State, base: string, cam: string, rs: seq<Round>, p: string)
    requires Settled(s, p) && RoundsOf(base, cam, rs)
    requires forall today :: MarkerOf(base, cam, p, today) == p + ".uploaded"
    ensures Settled(UploadRounds(s, base, rs), p)
    decreases |rs|
  {
    hide Settled, UploadRound, MarkerOf, DistinctPaths;
    if rs == [] {
    } else {
      RoundSettles(s, base, rs[0], p);
      RoundsSettle(UploadRound(s, base, rs[0]), base, cam, rs[1..], p);
    }
  }

  // ── And exactly then ──

  /** A round that sees just this recording and uploads it. */
  function Single(cam: string, r: Recording, now: int, today: string): Round {
    Round(cam, [r], now, today, _ => true, _ => false)
  }

  lemma {:induction false} SingleRound(s: State, base: string, cam: string, r: Recording, now: int, today: string)
    requires Eligible(base, cam, r, s.markers, now)
    ensures UploadRound(s, base, Single(cam, r, now, today))
      == State(s.markers + {MarkerOf(base, cam, PathOf(base, cam, r), today)}, s.log +
        [PathOf(base, cam, r)], s.deleted)
  {
    hide Eligible, MarkerOf, PathOf;
    var path, round := PathOf(base, cam, r), Single(cam, r, now, today);
    assert [r][..|[r]| - 1] == [] && [r][|[r]| - 1] == r;
    assert Scan(base, cam, [], s.markers, now) == [];
    assert Scan(base, cam, [r], s.markers, now) == [path];
    assert [path][..|[path]| - 1] == [] && [path][|[path]| - 1] == path;
    assert UploadAll(s, base, round, []) == s;
    assert UploadAll(s, base, round, [path]) == UploadOne(s, base, round, path);
  }

  /** With a marker written elsewhere, the same recording goes out again in the next round. */
  lemma {:induction false} WrongMarkerUploadsAgain(base: string, cam: string, r: Recording, now: int, today: string)
    requires '/' !in r.name && Eligible(base, cam, r, {}, now)
    requires DateOf(PathOf(base, cam, r), today) != r.date
    ensures var again := Single(cam, r, now, today);
            UploadRounds(State({}, [], {}), base, [again, again]).log == [PathOf(base, cam, r), PathOf(base, cam, r)]
  {
    hide UploadRound, MarkerOf, PathOf, DateOf;
    var path, again := PathOf(base, cam, r), Single(cam, r, now, today);
    var s0 := State({}, [], {});
    MarkersAgreeExactly(base, cam, r, today);
    SingleRound(s0, base, cam, r, now, today);
    var s1 := UploadRound(s0, base, again);
    SingleRound(s1, base, cam, r, now, today);
    assert [again, again][1..] == [again] && [again][1..] == [];
    assert UploadRounds(s1, base, [again]) == UploadRounds(UploadRound(s1, base, again), base, []);
    assert UploadRounds(s0, base, [again, again]) == UploadRounds(s1, base, [again]);
  }

  /** In no sequence of rounds of its camera does the recording go out twice. */
  ghost predicate OnceOnly(base: string, cam: string, r: Recording) {
    forall rs :: RoundsOf(base, cam, rs) ==>
      AtMostOnceIn(UploadRounds(State({}, [], {}), base, rs).log, PathOf(base, cam, r))
  }

  /** A day that does not happen to be the name of the date directory. */
  function OtherDay(date: string): (day: string)
    ensures day != date && |day| == 10 && LooksDated(day)
  {
    if date == "2026-01-01" then "2026-01-02" else "2026-01-01"
  }

  lemma {:induction false} DatedPathIsMarked(base: string, cam: string, r: Recording)
    requires '/' !in r.name && FindDate(PathOf(base, cam, r)) == Some(r.date)
    ensures forall today :: MarkerOf(base, cam, PathOf(base, cam, r), today) == PathOf(base, cam, r) + ".uploaded"
  {
    hide PathOf, FindDate, MarkerOf;
    forall today ensures MarkerOf(base, cam, PathOf(base, cam, r), today) == PathOf(base, cam, r) + ".uploaded" {
      MarkersAgreeExactly(base, cam, r, today);
    }
  }

  /**
   Whatever recordings are listed beside it, in whatever rounds on whatever days, with whatever uploads
   failing: a recording that is ever eligible goes out at most once exactly when the first date in its
   path is its date directory.
   */
  lemma {:induction false} OnceExactly(base: string, cam: string, r: Recording, now: int)
    requires '/' !in r.name && Eligible(base, cam, r, {}, now)
    ensures OnceOnly(base, cam, r) <==> FindDate(PathOf(base, cam, r)) == Some(r.date)
  {
    hide UploadRounds, PathOf, FindDate, Eligible, MarkerOf;
    var p, start := PathOf(base, cam, r), State({}, [], {});
    if FindDate(p) == Some(r.date) {
      DatedPathIsMarked(base, cam, r);
      forall rs | RoundsOf(base, cam, rs)
        ensures AtMostOnceIn(UploadRounds(start, base, rs).log, p)
      {
        RoundsSettle(start, base, cam, rs, p);
      }
    } else {
      var again := Single(cam, r, now, OtherDay(r.date));
      WrongMarkerUploadsAgain(base, cam, r, now, OtherDay(r.date));
      assert RoundsOf(base, cam, [again, again]);
      var log := UploadRounds(start, base, [again, again]).log;
      assert 0 <= 0 < 1 < |log| && log[0] == p && log[1] == p;
      assert !AtMostOnceIn(log, p);
    }
  }
}
