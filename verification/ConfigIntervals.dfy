/**
 The two intervals the agent itself reads from the raw blocks. config_save does not write them: they
 come back from the blocks, or not at all.
 */
module ConfigIntervals {
  import opened Common
  import opened CText
  import opened ConfigFile
  import opened ConfigValues
  import opened ConfigRoundTrip
  import opened ConfigRaw
  import opened ConfigText
  import Text

  /** The value a line gives a key, if it gives it one. */
  function ValueFor(raw: string, key: string): Option<string> {
    var line := Trim(raw);
    if line == "" || line[0] == '#' || ':' !in line || Trim(Text.Before(line, ':')) != key then None
    else
      var val := Trim(Text.After(line, ':'));
      if val == "" then None else Some(val)
  }

  function AfterLine(raw: string, key: string, acc: int): int {
    match ValueFor(raw, key)
    case Some(val) => Atoi(val)
    case None => acc
  }

  /** The last number the lines give the key. */
  function LastNumber(lines: seq<string>, key: string, acc: int): int
    decreases |lines|
  {
    if lines == [] then acc else LastNumber(lines[1..], key, AfterLine(lines[0], key, acc))
  }

  function IntervalIn(block: seq<string>, key: string): int {
    if block == [] then 0 else LastNumber(block[1..], key, 0)
  }

  lemma {:induction false} OnvifLineCounts(st: Loader, raw: string, fl: Floats)
    requires st.sec == Onvif && Indentation(raw) > 0
    ensures var t := ReadLine(st, raw, fl);
            && t.sec == Onvif && t.cfg.rescanInterval == AfterLine(raw, "rescan_interval", st.cfg.rescanInterval)
            && t.cfg.fleetInterval == st.cfg.fleetInterval
  {
    hide Trim, Indentation, AppendRaw, Atoi;
  }

  lemma {:induction false} FleetLineCounts(st: Loader, raw: string, fl: Floats)
    requires st.sec == Fleet && Indentation(raw) > 0
    ensures var t := ReadLine(st, raw, fl);
            && t.sec == Fleet && t.cfg.fleetInterval == AfterLine(raw, "interval", st.cfg.fleetInterval)
            && t.cfg.rescanInterval == st.cfg.rescanInterval
  {
    hide Trim, Indentation, AppendRaw, Atoi;
  }

  lemma {:induction false} OnvifLinesCount(st: Loader, raws: seq<string>, fl: Floats)
    requires st.sec == Onvif && forall i :: 0 <= i < |raws| ==> Indentation(raws[i]) > 0
    ensures var t := ReadLines(st, raws, fl);
            && t.cfg.rescanInterval == LastNumber(raws, "rescan_interval", st.cfg.rescanInterval)
            && t.cfg.fleetInterval == st.cfg.fleetInterval
    decreases |raws|
  {
    hide ReadLine, Indentation, AfterLine;
    if raws == [] {
    } else {
      OnvifLineCounts(st, raws[0], fl);
      OnvifLinesCount(ReadLine(st, raws[0], fl), raws[1..], fl);
    }
  }

  lemma {:induction false} FleetLinesCount(st: Loader, raws: seq<string>, fl: Floats)
    requires st.sec == Fleet && forall i :: 0 <= i < |raws| ==> Indentation(raws[i]) > 0
    ensures var t := ReadLines(st, raws, fl);
            && t.cfg.fleetInterval == LastNumber(raws, "interval", st.cfg.fleetInterval)
            && t.cfg.rescanInterval == st.cfg.rescanInterval
    decreases |raws|
  {
    hide ReadLine, Indentation, AfterLine;
    if raws == [] {
    } else {
      FleetLineCounts(st, raws[0], fl);
      FleetLinesCount(ReadLine(st, raws[0], fl), raws[1..], fl);
    }
  }

  lemma {:induction false} BlocksCount(st: Loader, cfg: Config, fl: Floats)
    requires RawsOk(cfg) && st.cfg.rescanInterval == 0 && st.cfg.fleetInterval == 0
    ensures var t := ReadLines(st, cfg.onvif + cfg.fleet, fl);
            && t.cfg.rescanInterval == IntervalIn(cfg.onvif, "rescan_interval")
            && t.cfg.fleetInterval == IntervalIn(cfg.fleet, "interval")
  {
    hide ReadLine, Indentation, Used, LastNumber;
    ReadLinesAppend(st, cfg.onvif, cfg.fleet, fl);
    var u := ReadLines(st, cfg.onvif, fl);
    if cfg.onvif != [] {
      HeadersOpen(st, fl);
      OnvifLinesCount(ReadLine(st, cfg.onvif[0], fl), cfg.onvif[1..], fl);
    }
    if cfg.fleet != [] {
      HeadersOpen(u, fl);
      FleetLinesCount(ReadLine(u, cfg.fleet[0], fl), cfg.fleet[1..], fl);
    }
  }

  /** Outside the two blocks no line touches the intervals. */
  lemma {:induction false} OrdinaryLineCountsNothing(st: Loader, raw: string, fl: Floats)
    requires Outside(st) && Ordinary(raw)
    ensures var t := ReadLine(st, raw, fl);
            t.cfg.rescanInterval == st.cfg.rescanInterval && t.cfg.fleetInterval == st.cfg.fleetInterval
  {
    hide Trim, LTrim, Indentation, SectionOf, SlotFor, KindOf, ReadValue, SetAll, Atoi;
  }

  lemma {:induction false} OrdinaryLinesCountNothing(st: Loader, raws: seq<string>, fl: Floats)
    requires Outside(st) && forall i :: 0 <= i < |raws| ==> Ordinary(raws[i])
    ensures var t := ReadLines(st, raws, fl);
            t.cfg.rescanInterval == st.cfg.rescanInterval && t.cfg.fleetInterval == st.cfg.fleetInterval
    decreases |raws|
  {
    hide ReadLine, Ordinary, Outside;
    if raws == [] {
    } else {
      OrdinaryLineCountsNothing(st, raws[0], fl);
      OrdinaryLineLeavesBlocks(st, raws[0], fl);
      OrdinaryLinesCountNothing(ReadLine(st, raws[0], fl), raws[1..], fl);
    }
  }

  /**
   After a save and a load the intervals are those the kept blocks give, and so they survive exactly
   when the blocks give the values they had.
   */
  lemma {:induction false} IntervalsComeFromBlocks(cfg: Config, fl: Floats)
    requires RawsOk(cfg)
    ensures var got := Load(Save(cfg, fl), fl);
            && got.rescanInterval == IntervalIn(cfg.onvif, "rescan_interval")
            && got.fleetInterval == IntervalIn(cfg.fleet, "interval")
  {
    hide ReadLines, Body, RawsOk, Ordinary, IntervalIn, Save;
    var body := Body(cfg, fl);
    SaveShape(cfg, fl);
    BodyIsOrdinary(cfg, fl);
    OrdinaryLinesCountNothing(START, body, fl);
    ReadLinesAppend(START, body, cfg.onvif + cfg.fleet, fl);
    BlocksCount(ReadLines(START, body, fl), cfg, fl);
  }

  lemma {:induction false} RescanLine(n: int)
    requires IsInt32(n)
    ensures var raw := "  rescan_interval: " + Shown(n);
            Indentation(raw) == 2 && AfterLine(raw, "rescan_interval", 0) == n
  {
    hide Trim, Shown, Atoi, Content, Indentation;
    var raw, key := "  rescan_interval: " + Shown(n), "rescan_interval";
    AtoiUndoesShown(n);
    assert KeyLike(key);
    RawIsTrimmed(2, key, Shown(n));
    assert raw == Text.Spaces(2) + key + ": " + Shown(n);
    ContentIsClean(key, Shown(n));
    ContentSplits(key, Shown(n));
  }

  function TwoHeaders(n: int): seq<string> { ["onvif:", "  rescan_interval: " + Shown(n), "onvif:"] }

  /** A second header empties the block and keeps the interval: the loaded value is not zero, and a save loses it. */
  lemma {:induction false} RepeatedHeaderLosesInterval(n: int, fl: Floats)
    requires IsInt32(n) && n != 0
    ensures var cfg := Load(TwoHeaders(n), fl);
            cfg.rescanInterval == n && Load(Save(cfg, fl), fl).rescanInterval == 0
  {
    hide ReadLine, Indentation, AfterLine, Save, Shown, RawsOk;
    var raw := "  rescan_interval: " + Shown(n);
    var s1 := ReadLine(START, "onvif:", fl);
    HeadersOpen(START, fl);
    RescanLine(n);
    OnvifLineCounts(s1, raw, fl);
    var s2 := ReadLine(s1, raw, fl);
    HeadersOpen(s2, fl);
    var s3 := ReadLine(s2, "onvif:", fl);
    ThreeLines(START, "onvif:", raw, "onvif:", fl);
    var cfg := Load(["onvif:", raw, "onvif:"], fl);
    LoadGivesRawsOk(["onvif:", raw, "onvif:"], fl);
    IntervalsComeFromBlocks(cfg, fl);
  }

  lemma {:induction false} ThreeLines(st: Loader, a: string, b: string, c: string, fl: Floats)
    ensures ReadLines(st, [a, b, c], fl) == ReadLine(ReadLine(ReadLine(st, a, fl), b, fl), c, fl)
  {
    hide ReadLine;
    assert [a, b, c][1..] == [b, c] && [b, c][1..] == [c];
    ReadOne(ReadLine(ReadLine(st, a, fl), b, fl), c, fl);
    assert ReadLines(ReadLine(st, a, fl), [b, c], fl) == ReadLines(ReadLine(ReadLine(st, a, fl), b, fl), [c], fl);
  }

  // ── On files ──

  /**
   Whatever file was loaded, after any number of saves and loads the intervals are the last ones its
   kept blocks give; so they survive exactly when those are the values that were loaded.
   */
  lemma {:induction false} LoadedIntervalsComeFromBlocks(text: string, times: nat, fl: Floats)
    requires SaneFloats(fl) && times > 0
    ensures var cfg := LoadText(text, fl);
            var again := CycleText(cfg, times, fl);
            && again.rescanInterval == IntervalIn(cfg.onvif, "rescan_interval")
            && again.fleetInterval == IntervalIn(cfg.fleet, "interval")
  {
    hide Load, Save, LoadText, SaveText, RawsOk, AllFieldsFit, BlocksFit, IntervalIn;
    LoadedBlocksSurvive(text, times - 1, fl);
    var before := CycleText(LoadText(text, fl), times - 1, fl);
    LoadSavedText(before, fl);
    IntervalsComeFromBlocks(before, fl);
  }

  lemma {:induction false} TwoHeadersFit(n: int)
    requires IsInt32(n)
    ensures AllFit(TwoHeaders(n))
  {
    hide Shown;
    NumberFits(n);
  }

  /** The file with a repeated header: loading it gives the interval, saving and loading that gives zero. */
  lemma {:induction false} RepeatedHeaderLosesIntervalInFile(n: int, fl: Floats)
    requires IsInt32(n) && n != 0 && SaneFloats(fl)
    ensures var cfg := LoadText(Text.Unlines(TwoHeaders(n)), fl);
            cfg.rescanInterval == n && LoadText(SaveText(cfg, fl), fl).rescanInterval == 0
  {
    hide Load, Save, LoadText, SaveText, Shown, AllFieldsFit, BlocksFit, TwoHeaders;
    var text := Text.Unlines(TwoHeaders(n));
    TwoHeadersFit(n);
    FittingTextIsLoaded(TwoHeaders(n), fl);
    RepeatedHeaderLosesInterval(n, fl);
    LoadFits(text, fl);
    LoadSavedText(LoadText(text, fl), fl);
  }

  lemma {:induction false} FittingTextIsLoaded(lines: seq<string>, fl: Floats)
    requires AllFit(lines)
    ensures LoadText(Text.Unlines(lines), fl) == Load(lines, fl)
  {
    hide ReadText, ReadLines, AllFit;
    TextIsRead(START, lines, fl);
  }
}
