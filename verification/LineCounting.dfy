/**
 Counting line crossings of tracked objects. Positions are accepted one at a
 time, for many tracks interleaved; per track only a bounded history is kept.
 */
module LineCounting {
  import opened Common
  import opened Polygon

  /** A counting line; its name may be missing from the zones file. */
  datatype Line = Line(x1: real, y1: real, x2: real, y2: real, name: Option<string>, enabled: bool)

  datatype Crossing = Entry | Exit | NoCrossing

  /** Cross product: positive on one side of the line, negative on the other. */
  function Offset(l: Line, p: Point): real {
    (l.x2 - l.x1) * (p.y - l.y1) - (l.y2 - l.y1) * (p.x - l.x1)
  }

  function CheckLineCrossing(prev: Point, curr: Point, l: Line): Crossing {
    var d1, d2 := Offset(l, prev), Offset(l, curr);
    if d1 * d2 < 0.0 then if d1 > 0.0 then Exit else Entry
    else NoCrossing
  }

  function Side(l: Line, p: Point): int { if Offset(l, p) > 0.0 then 1 else 0 }

  function Signed(c: Crossing): int {
    match c
    case Entry => 1
    case Exit => -1
    case NoCrossing => 0
  }

  /** A move between a point exactly on the line and a point on its positive side. */
  predicate Touching(l: Line, a: Point, b: Point) {
    (Offset(l, a) == 0.0 && Offset(l, b) > 0.0) || (Offset(l, a) > 0.0 && Offset(l, b) == 0.0)
  }

  /** One move is counted as its change of side, except exactly when it touches the line on the positive side. */
  lemma {:induction false} MoveIsCountedExactly(l: Line, a: Point, b: Point)
    ensures Signed(CheckLineCrossing(a, b, l)) == Side(l, b) - Side(l, a) <==> !Touching(l, a, b)
  {
    SignOfProduct(Offset(l, a), Offset(l, b));
  }

  lemma {:induction false} SignOfProduct(u: real, v: real)
    ensures u * v < 0.0 <==> (u > 0.0 && v < 0.0) || (u < 0.0 && v > 0.0)
  {
    if u > 0.0 && v >= 0.0 { assert u * v >= 0.0; }
    if u < 0.0 && v <= 0.0 { assert u * v >= 0.0; }
  }

  // ── Tallies ──

  datatype Tally = Tally(entry: nat, exit: nat) {
    function Net(): int { entry - exit }

    function Add(c: Crossing): Tally {
      match c
      case Entry => this.(entry := entry + 1)
      case Exit => this.(exit := exit + 1)
      case NoCrossing => this
    }
  }

  type Counts = map<string, Tally>

  function Digits(n: nat): string {
    if n < 10 then ["0123456789"[n]] else Digits(n / 10) + ["0123456789"[n % 10]]
  }

  /** The key a line gets when the counters are set up. */
  function InitialName(l: Line, i: nat): string {
    match l.name
    case Some(n) => n
    case None => "line" + Digits(i)
  }

  /** The key a line's crossings are looked up under. */
  function CountName(l: Line): string {
    match l.name
    case Some(n) => n
    case None => "unnamed"
  }

  function InitialCounts(lines: seq<Line>): Counts {
    map i | 0 <= i < |lines| :: InitialName(lines[i], i) := Tally(0, 0)
  }

  function CountLine(counts: Counts, l: Line, prev: Point, curr: Point): Counts {
    var c := CheckLineCrossing(prev, curr, l);
    if l.enabled && c != NoCrossing && CountName(l) in counts then
      counts[CountName(l) := counts[CountName(l)].Add(c)]
    else counts
  }

  /** The loop over lines for one move. */
  function CountLines(counts: Counts, lines: seq<Line>, prev: Point, curr: Point): Counts {
    if lines == [] then counts
    else CountLine(CountLines(counts, lines[..|lines| - 1], prev, curr), lines[|lines| - 1], prev, curr)
  }

  // ── What should be counted, from the whole stream of observations ──

  datatype Observation = Observation(track: nat, pos: Point)

  /** The last position of a track. */
  function LastOf(seen: seq<Observation>, track: nat): Option<Point> {
    if seen == [] then None
    else
      var o := seen[|seen| - 1];
      if o.track == track then Some(o.pos) else LastOf(seen[..|seen| - 1], track)
  }

  function Tallied(lines: seq<Line>, seen: seq<Observation>): Counts {
    if seen == [] then InitialCounts(lines)
    else
      var before, o := seen[..|seen| - 1], seen[|seen| - 1];
      match LastOf(before, o.track)
      case None => Tallied(lines, before)
      case Some(prev) => CountLines(Tallied(lines, before), lines, prev, o.pos)
  }

  lemma {:induction false} SeenSnoc(lines: seq<Line>, seen: seq<Observation>, o: Observation)
    ensures forall t :: LastOf(seen + [o], t) == if t == o.track then Some(o.pos) else LastOf(seen, t)
    ensures Tallied(lines, seen + [o]) ==
            match LastOf(seen, o.track) {
              case None => Tallied(lines, seen)
              case Some(prev) => CountLines(Tallied(lines, seen), lines, prev, o.pos)
            }
  {
    hide CountLines;
    assert (seen + [o])[..|seen|] == seen;
  }

  /** The worker's state: bounded histories and counters. */
  class Tracker {
    const lines: seq<Line>
    var history: map<nat, seq<Point>>
    var counts: Counts
    ghost var seen: seq<Observation>

    /** Each history is nonempty and bounded, and ends where the track was last seen. */
    ghost predicate Valid()
      reads this
    {
      && (forall t :: t in history <==> LastOf(seen, t).Some?)
      && (forall t :: t in history ==> 1 <= |history[t]| <= 100)
      && (forall t :: t in history ==> LastOf(seen, t) == Some(history[t][|history[t]| - 1]))
      && counts == Tallied(lines, seen)
    }

    constructor (lines: seq<Line>)
      ensures Valid() && this.lines == lines && seen == []
    {
      this.lines := lines;
      history, counts, seen := map[], InitialCounts(lines), [];
    }

    /** One accepted detection. Cutting the history back never changes a count: they are those of the full stream. */
    method Observe(track: nat, pos: Point)
      requires Valid()
      modifies this
      ensures Valid() && seen == old(seen) + [Observation(track, pos)]
      ensures counts == Tallied(lines, seen)
    {
      hide CountLines, LastOf, Tallied;
      var past := if track in history then history[track] else [];
      var prev := if past == [] then None else Some(past[|past| - 1]);
      var h := past + [pos];
      if |h| > 100 {
        h := h[|h| - 50..];
      }
      history := history[track := h];
      assert prev == LastOf(seen, track);
      if prev.Some? {
        counts := CountMove(prev.value, pos);
      }
      SeenSnoc(lines, seen, Observation(track, pos));
      seen := seen + [Observation(track, pos)];
    }

    method CountMove(prev: Point, curr: Point) returns (c: Counts)
      ensures c == CountLines(counts, lines, prev, curr)
    {
      c := counts;
      for i := 0 to |lines|
        invariant c == CountLines(counts, lines[..i], prev, curr)
      {
        var l := lines[i];
        if l.enabled {
          var crossing := CheckLineCrossing(prev, curr, l);
          if crossing != NoCrossing && CountName(l) in c {
            c := c[CountName(l) := c[CountName(l)].Add(crossing)];
          }
        }
        assert lines[..i + 1][..i] == lines[..i];
      }
      assert lines[..|lines|] == lines;
    }
  }

  // ── Telescoping ──

  /** No other enabled line is counted under the name of line k, which has one and is enabled. */
  ghost predicate UniquelyCounted(lines: seq<Line>, k: nat) {
    && k < |lines| && lines[k].enabled && lines[k].name.Some?
    && forall i :: 0 <= i < |lines| && i != k ==> !lines[i].enabled || CountName(lines[i]) != CountName(lines[k])
  }

  /** A move changes the net count of line k by its own crossing only. */
  lemma {:induction false} MoveChangesOneNet(counts: Counts, lines: seq<Line>, n: nat, k: nat, prev: Point, curr: Point)
    requires n <= |lines| && UniquelyCounted(lines, k) && CountName(lines[k]) in counts
    ensures var after := CountLines(counts, lines[..n], prev, curr);
            && CountName(lines[k]) in after
            && after[CountName(lines[k])].Net() ==
               counts[CountName(lines[k])].Net() + if k < n then Signed(CheckLineCrossing(prev, curr, lines[k])) else 0
  {
    hide CheckLineCrossing;
    if n == 0 {
    } else {
      MoveChangesOneNet(counts, lines, n - 1, k, prev, curr);
      assert lines[..n][..n - 1] == lines[..n - 1];
    }
  }

  /** A track so far: where it was first and last seen. */
  datatype Track = Track(id: nat, first: Point, last: Point)

  /** The tracks of a stream, in order of appearance. */
  function Tracks(seen: seq<Observation>): seq<Track> {
    if seen == [] then []
    else Moved(Tracks(seen[..|seen| - 1]), seen[|seen| - 1])
  }

  function Moved(tracks: seq<Track>, o: Observation): seq<Track> {
    if tracks == [] then [Track(o.track, o.pos, o.pos)]
    else if tracks[0].id == o.track then [tracks[0].(last := o.pos)] + tracks[1..]
    else [tracks[0]] + Moved(tracks[1..], o)
  }

  /** Last position of a track in the list. */
  function LastIn(tracks: seq<Track>, id: nat): Option<Point> {
    if tracks == [] then None
    else if tracks[0].id == id then Some(tracks[0].last)
    else LastIn(tracks[1..], id)
  }

  /** Sum over tracks of final side minus initial side. */
  function Drift(l: Line, tracks: seq<Track>): int {
    if tracks == [] then 0 else Side(l, tracks[0].last) - Side(l, tracks[0].first) + Drift(l, tracks[1..])
  }

  lemma {:induction false} MovedDrift(l: Line, tracks: seq<Track>, o: Observation)
    ensures Drift(l, Moved(tracks, o)) == Drift(l, tracks) +
            match LastIn(tracks, o.track) { case None => 0 case Some(prev) => Side(l, o.pos) - Side(l, prev) }
  {
    hide Side;
    if tracks == [] {
      assert Moved(tracks, o)[1..] == [];
    } else if tracks[0].id == o.track {
      assert Moved(tracks, o)[1..] == tracks[1..];
    } else {
      assert Moved(tracks, o)[1..] == Moved(tracks[1..], o);
      MovedDrift(l, tracks[1..], o);
    }
  }

  lemma {:induction false} MovedLast(tracks: seq<Track>, o: Observation, id: nat)
    ensures LastIn(Moved(tracks, o), id) == if id == o.track then Some(o.pos) else LastIn(tracks, id)
  {
    if tracks == [] {
      assert Moved(tracks, o)[1..] == [];
    } else if tracks[0].id == o.track {
      assert Moved(tracks, o)[1..] == tracks[1..];
    } else {
      assert Moved(tracks, o)[1..] == Moved(tracks[1..], o);
      MovedLast(tracks[1..], o, id);
    }
  }

  lemma {:induction false} LastInTracks(seen: seq<Observation>, id: nat)
    ensures LastIn(Tracks(seen), id) == LastOf(seen, id)
    decreases |seen|
  {
    if seen == [] {
    } else {
      LastInTracks(seen[..|seen| - 1], id);
      MovedLast(Tracks(seen[..|seen| - 1]), seen[|seen| - 1], id);
    }
  }

  /** Moves of any track from the line itself to its positive side. */
  function Leaves(l: Line, seen: seq<Observation>): nat {
    if seen == [] then 0
    else
      var before, o := seen[..|seen| - 1], seen[|seen| - 1];
      var prev := LastOf(before, o.track);
      Leaves(l, before) + if prev.Some? && Offset(l, prev.value) == 0.0 && Offset(l, o.pos) > 0.0 then 1 else 0
  }

  /** Moves of any track from the positive side to the line itself. */
  function Returns(l: Line, seen: seq<Observation>): nat {
    if seen == [] then 0
    else
      var before, o := seen[..|seen| - 1], seen[|seen| - 1];
      var prev := LastOf(before, o.track);
      Returns(l, before) + if prev.Some? && Offset(l, prev.value) > 0.0 && Offset(l, o.pos) == 0.0 then 1 else 0
  }

  /** What one move is counted as, touching moves included. */
  lemma {:induction false} MoveIsCountedAs(l: Line, a: Point, b: Point)
    ensures Signed(CheckLineCrossing(a, b, l)) == Side(l, b) - Side(l, a)
              - (if Offset(l, a) == 0.0 && Offset(l, b) > 0.0 then 1 else 0)
              + (if Offset(l, a) > 0.0 && Offset(l, b) == 0.0 then 1 else 0)
  {
    SignOfProduct(Offset(l, a), Offset(l, b));
  }

  /**
   Telescoping: for any interleaving of any number of tracks, entries minus
   exits of a uniquely counted line is the sum over tracks of final side minus
   initial side, less the moves off the line to its positive side, plus the
   moves back.
   */
  lemma {:induction false} NetCount(lines: seq<Line>, k: nat, seen: seq<Observation>)
    requires UniquelyCounted(lines, k)
    ensures var l, counts := lines[k], Tallied(lines, seen);
            && CountName(l) in counts
            && counts[CountName(l)].Net() == Drift(l, Tracks(seen)) - Leaves(l, seen) + Returns(l, seen)
    decreases |seen|
  {
    hide CheckLineCrossing, Side, Offset, CountLines, Moved;
    var l := lines[k];
    if seen == [] {
      assert InitialName(l, k) in InitialCounts(lines);
    } else {
      var before, o := seen[..|seen| - 1], seen[|seen| - 1];
      NetCount(lines, k, before);
      LastInTracks(before, o.track);
      MovedDrift(l, Tracks(before), o);
      var prev := LastOf(before, o.track);
      if prev.Some? {
        MoveChangesOneNet(Tallied(lines, before), lines, |lines|, k, prev.value, o.pos);
        assert lines[..|lines|] == lines;
        MoveIsCountedAs(l, prev.value, o.pos);
      }
    }
  }

  /**
   So the net count is the change of sides exactly when tracks leave the line to its positive side
   as often as they return to it.
   */
  lemma {:induction false} NetCountIsDriftExactly(lines: seq<Line>, k: nat, seen: seq<Observation>)
    requires UniquelyCounted(lines, k)
    ensures var l, counts := lines[k], Tallied(lines, seen);
            && CountName(l) in counts
            && (counts[CountName(l)].Net() == Drift(l, Tracks(seen)) <==> Leaves(l, seen) == Returns(l, seen))
  {
    hide Tallied, Drift, Tracks, Leaves, Returns, UniquelyCounted;
    NetCount(lines, k, seen);
  }

  /** No track moves between the line itself and its positive side; in particular, none is ever exactly on the line. */
  ghost predicate NeverTouches(l: Line, seen: seq<Observation>) {
    seen != [] ==>
      var before, o := seen[..|seen| - 1], seen[|seen| - 1];
      && NeverTouches(l, before)
      && (LastOf(before, o.track).Some? ==> !Touching(l, LastOf(before, o.track).value, o.pos))
  }

  lemma {:induction false} UntouchedNeverLeft(l: Line, seen: seq<Observation>)
    requires NeverTouches(l, seen)
    ensures Leaves(l, seen) == Returns(l, seen) == 0
    decreases |seen|
  {
    hide Offset;
    if seen == [] {
    } else {
      UntouchedNeverLeft(l, seen[..|seen| - 1]);
    }
  }

  /** When no track touches the line, entries minus exits is the sum of final side minus initial side. */
  lemma {:induction false} NetCountIsDrift(lines: seq<Line>, k: nat, seen: seq<Observation>)
    requires UniquelyCounted(lines, k) && NeverTouches(lines[k], seen)
    ensures var counts := Tallied(lines, seen);
            && CountName(lines[k]) in counts
            && counts[CountName(lines[k])].Net() == Drift(lines[k], Tracks(seen))
  {
    hide Tallied, Drift, Tracks, Leaves, Returns, NeverTouches;
    NetCount(lines, k, seen);
    UntouchedNeverLeft(lines[k], seen);
  }

  // ── One track ──

  /** The crossings of a line along a path, in order. */
  function Crossings(l: Line, path: seq<Point>): seq<Crossing> {
    if |path| < 2 then []
    else
      var c := CheckLineCrossing(path[0], path[1], l);
      (if c == NoCrossing then [] else [c]) + Crossings(l, path[1..])
  }

  ghost predicate OffLine(l: Line, path: seq<Point>) {
    forall i :: 0 <= i < |path| ==> Offset(l, path[i]) != 0.0
  }

  /** Crossings of a track that is never exactly on the line alternate, starting with the one its first side allows. */
  lemma {:induction false} CrossingsAlternate(l: Line, path: seq<Point>)
    requires OffLine(l, path) && path != []
    ensures var cs := Crossings(l, path);
            && (cs != [] ==> cs[0] == if Side(l, path[0]) == 1 then Exit else Entry)
            && (forall i :: 0 <= i < |cs| - 1 ==> cs[i] != cs[i + 1] && cs[i] != NoCrossing)
  {
    if |path| >= 2 {
      CrossingsAlternate(l, path[1..]);
      SignOfProduct(Offset(l, path[0]), Offset(l, path[1]));
      var c, rest := CheckLineCrossing(path[0], path[1], l), Crossings(l, path[1..]);
      if c != NoCrossing {
        assert Crossings(l, path) == [c] + rest;
      } else {
        assert Crossings(l, path) == rest;
      }
    }
  }

  /** A stop exactly on the line loses the crossing: the object ends on the other side and nothing is counted. */
  lemma {:induction false} StopOnLineLosesCrossing(l: Line, a: Point, m: Point, b: Point)
    requires Offset(l, a) > 0.0 && Offset(l, m) == 0.0 && Offset(l, b) < 0.0
    ensures Crossings(l, [a, m, b]) == [] && Side(l, a) == 1 && Side(l, b) == 0
    ensures Crossings(l, [a, b]) == [Exit]
  {
    SignOfProduct(Offset(l, a), Offset(l, b));
    assert [a, m, b][1..] == [m, b] && [m, b][1..] == [b] && [a, b][1..] == [b];
    assert Crossings(l, [m, b]) == [];
  }

  // ── Lines without a name ──

  lemma {:induction false} CountLinesKeys(counts: Counts, lines: seq<Line>, prev: Point, curr: Point)
    ensures CountLines(counts, lines, prev, curr).Keys == counts.Keys
    decreases |lines|
  {
    hide CheckLineCrossing, CountName;
    if lines == [] {
    } else {
      CountLinesKeys(counts, lines[..|lines| - 1], prev, curr);
    }
  }

  /** No run adds or drops a counter. */
  lemma {:induction false} TalliedKeys(lines: seq<Line>, seen: seq<Observation>)
    ensures Tallied(lines, seen).Keys == InitialCounts(lines).Keys
    decreases |seen|
  {
    hide CountLines, InitialCounts;
    if seen == [] {
    } else {
      var before, o := seen[..|seen| - 1], seen[|seen| - 1];
      TalliedKeys(lines, before);
      var prev := LastOf(before, o.track);
      if prev.Some? { CountLinesKeys(Tallied(lines, before), lines, prev.value, o.pos); }
    }
  }

  /** A line has a counter of its own name, or lives off one that happens to be called "unnamed". */
  ghost predicate HasCounter(lines: seq<Line>, l: Line) {
    l.name.Some? || exists i :: 0 <= i < |lines| && lines[i].name == Some("unnamed")
  }

  lemma {:induction false} CounterExists(lines: seq<Line>, k: nat)
    requires k < |lines|
    ensures CountName(lines[k]) in InitialCounts(lines) <==> HasCounter(lines, lines[k])
  {
    var name := CountName(lines[k]);
    if lines[k].name.Some? {
      assert InitialName(lines[k], k) == name;
    } else if HasCounter(lines, lines[k]) {
      var i :| 0 <= i < |lines| && lines[i].name == Some("unnamed");
      assert InitialName(lines[i], i) == name;
    } else {
      forall i | 0 <= i < |lines| ensures InitialName(lines[i], i) != name {
        if lines[i].name.None? { assert InitialName(lines[i], i)[0] == 'l' && "unnamed"[0] == 'u'; }
      }
    }
  }

  /**
   At any point of any run, a crossing of an enabled line is counted exactly when the line has a name,
   or some line is named "unnamed".
   */
  lemma {:induction false} CrossingIsCountedExactly(lines: seq<Line>, seen: seq<Observation>, k: nat, prev: Point,
                                                    curr: Point)
    requires k < |lines| && lines[k].enabled && CheckLineCrossing(prev, curr, lines[k]) != NoCrossing
    ensures CountLine(Tallied(lines, seen), lines[k], prev, curr) != Tallied(lines, seen) <==>
      HasCounter(lines, lines[k])
  {
    hide CheckLineCrossing, Tallied, InitialCounts, HasCounter;
    TalliedKeys(lines, seen);
    CounterExists(lines, k);
    var counts, name := Tallied(lines, seen), CountName(lines[k]);
    if name in counts {
      var c := CheckLineCrossing(prev, curr, lines[k]);
      assert counts[name := counts[name].Add(c)][name] != counts[name];
    }
  }

  /** A line without a counter might as well be disabled. */
  lemma {:induction false} CountLinesSkip(counts: Counts, lines: seq<Line>, k: nat, n: nat, prev: Point, curr: Point)
    requires k < |lines| && n <= |lines| && CountName(lines[k]) !in counts
    ensures CountLines(counts, lines[..n], prev, curr) ==
            CountLines(counts, lines[k := lines[k].(enabled := false)][..n], prev, curr)
    decreases n
  {
    hide CheckLineCrossing, CountName;
    if n == 0 {
    } else {
      var off := lines[k := lines[k].(enabled := false)];
      CountLinesSkip(counts, lines, k, n - 1, prev, curr);
      CountLinesKeys(counts, lines[..n - 1], prev, curr);
      assert lines[..n][..n - 1] == lines[..n - 1] && off[..n][..n - 1] == off[..n - 1];
    }
  }

  lemma {:induction false} SameInitialCounts(lines: seq<Line>, k: nat)
    requires k < |lines|
    ensures InitialCounts(lines) == InitialCounts(lines[k := lines[k].(enabled := false)])
  {
    var off := lines[k := lines[k].(enabled := false)];
    forall i | 0 <= i < |lines| ensures InitialName(lines[i], i) == InitialName(off[i], i) {}
  }

  /**
   Over every run, a line without a name changes no count, unless some line is named "unnamed":
   all counts are as if it were disabled.
   */
  lemma {:induction false} NamelessLineIsNotCounted(lines: seq<Line>, k: nat, seen: seq<Observation>)
    requires k < |lines| && !HasCounter(lines, lines[k])
    ensures Tallied(lines, seen) == Tallied(lines[k := lines[k].(enabled := false)], seen)
    decreases |seen|
  {
    hide CountLines, InitialCounts, HasCounter, CountName;
    var off := lines[k := lines[k].(enabled := false)];
    if seen == [] {
      SameInitialCounts(lines, k);
    } else {
      var before, o := seen[..|seen| - 1], seen[|seen| - 1];
      NamelessLineIsNotCounted(lines, k, before);
      TalliedKeys(lines, before);
      CounterExists(lines, k);
      var prev := LastOf(before, o.track);
      if prev.Some? {
        CountLinesSkip(Tallied(lines, before), lines, k, |lines|, prev.value, o.pos);
        assert lines[..|lines|] == lines && off[..|lines|] == off;
      }
    }
  }
}
