/**
 What every sequence of sync runs keeps, and when the next run has nothing to
 do. Creates may fail in any run, and so may deletes by giving no answer.
 */
module OnvifSyncProperties {
  import opened Common
  import opened OnvifSync

  // ── What every run keeps ──

  /**
   Every live ingress is recorded under the camera it was made for, no id is
   recorded twice, and a recorded ingress is live unless its camera is stranded.
   */
  ghost predicate Sound(w: World) {
    && (forall id :: id in w.server.live ==> RecordedFor(w, id, w.server.live[id]) && id in w.server.used)
    && (forall k :: k in w.state && w.state[k].ingressId != "" ==> w.state[k].ingressId in w.server.used)
    && "" !in w.server.used
    && (forall k, l :: k in w.state && l in w.state && k != l && w.state[k].ingressId == w.state[l].ingressId ==>
          w.state[k].ingressId == "")
    && (forall k :: k in w.state && w.state[k].ingressId != "" ==>
          (w.state[k].ingressId in w.server.live <==> k !in w.stranded))
  }

  predicate RecordedFor(w: World, id: string, key: string) {
    key in w.state && w.state[key].ingressId == id
  }

  /** The server behaves: new ids are new and not empty, and a delete that answers has an effect. */
  predicate Behaves(w: World, a: Action, o: Outcome) {
    && (CallsApi(a) && o.create.Created? ==> o.create.id != "" && o.create.id !in w.server.used)
    && (a.Update? ==> !o.delete.Refused?)
  }

  lemma {:induction false} CreateIsSound(w: World, cam: Camera, settings: Settings, o: CreateOutcome, now: int)
    requires Sound(w) && (forall id :: id in w.server.live ==> w.server.live[id] != cam.key)
    requires o.Created? ==> o.id != "" && o.id !in w.server.used
    ensures Sound(Create(w, cam, settings, o, now))
  {
    hide RegistrationFor;
  }

  lemma {:induction false} DeleteIsSound(w: World, key: string)
    requires Sound(w) && key in w.state && w.state[key].ingressId != ""
    ensures Sound(Delete(w, key))
    ensures forall id :: id in Delete(w, key).server.live ==> Delete(w, key).server.live[id] != key
  {
  }

  /** Touching an entry without changing its ingress keeps the records sound. */
  lemma {:induction false} TouchIsSound(w: World, key: string, e: Entry)
    requires Sound(w) && key in w.state && e.ingressId == w.state[key].ingressId
    ensures Sound(w.(state := w.state[key := e]))
  {
  }

  lemma {:induction false} UnregisteredIsFree(w: World, cam: Camera)
    requires Sound(w) && Fits(Register(cam), w.state)
    ensures forall id :: id in w.server.live ==> w.server.live[id] != cam.key
  {
  }

  /** One action, whether it succeeds or fails, keeps the records sound. */
  lemma {:induction false} PerformIsSound(w: World, a: Action, settings: Settings, o: Outcome, now: int)
    requires Sound(w) && Fits(a, w.state) && Behaves(w, a, o)
    ensures Sound(Perform(w, a, settings, o, now))
  {
    hide RegistrationFor, Create, Delete, Sound;
    match a
    case Skip(_) =>
    case Missing(k) =>
      var e := w.state[k];
      TouchIsSound(w, k, e.(missingSince := if e.missingSince.None? then Some(now) else e.missingSince));
    case Keep(cam) => TouchIsSound(w, cam.key, w.state[cam.key].(lastSeen := now, missingSince := None));
    case Register(cam) =>
      UnregisteredIsFree(w, cam);
      CreateIsSound(w, cam, settings, o.create, now);
    case Update(cam) =>
      if o.delete.Deleted? {
        DeleteIsSound(w, cam.key);
        DeleteKeepsUsed(w, cam.key);
        CreateIsSound(Delete(w, cam.key), cam, settings, o.create, now);
      }
  }

  lemma {:induction false} DeleteKeepsUsed(w: World, key: string)
    requires key in w.state
    ensures Delete(w, key).server.used == w.server.used && Delete(w, key).state == w.state
  {
  }

  ghost predicate AllBehave(w: World, actions: seq<Action>, settings: Settings, outcomes: seq<Outcome>, now: int)
    requires |outcomes| == |actions| && Ready(actions, w.state)
    decreases |actions|
  {
    actions != [] ==>
      && Behaves(w, actions[0], outcomes[0])
      && (StaysReady(w, actions, settings, outcomes[0], now);
          AllBehave(Perform(w, actions[0], settings, outcomes[0], now), actions[1..], settings, outcomes[1..], now))
  }

  lemma {:induction false} PerformAllIsSound(w: World, actions: seq<Action>, settings: Settings,
                                             outcomes: seq<Outcome>, now: int)
    requires |outcomes| == |actions| && Ready(actions, w.state)
    requires Sound(w) && AllBehave(w, actions, settings, outcomes, now)
    ensures Sound(PerformAll(w, actions, settings, outcomes, now))
    ensures w.state.Keys <= PerformAll(w, actions, settings, outcomes, now).state.Keys
    decreases |actions|
  {
    hide Sound, Perform, Fits, Behaves;
    if actions == [] {
    } else {
      PerformIsSound(w, actions[0], settings, outcomes[0], now);
      PerformKeepsOthers(w, actions[0], settings, outcomes[0], now);
      StaysReady(w, actions, settings, outcomes[0], now);
      PerformAllIsSound(Perform(w, actions[0], settings, outcomes[0], now), actions[1..], settings, outcomes[1..], now);
    }
  }

  /** A history of runs, each against a server that behaves. */
  ghost predicate Feasible(w: World, runs: seq<Run>)
    decreases |runs|
  {
    runs != [] ==>
      && Possible(w, runs[0])
      && (PlanIsReady(runs[0].scan, w.state, runs[0].settings, runs[0].order);
          AllBehave(w, Plan(runs[0].scan, w.state, runs[0].settings, runs[0].order), runs[0].settings,
            runs[0].outcomes, runs[0].now))
      && Feasible(SyncOnce(w, runs[0]), runs[1..])
  }

  function SyncAll(w: World, runs: seq<Run>): World
    requires Feasible(w, runs)
    decreases |runs|
  {
    if runs == [] then w else SyncAll(SyncOnce(w, runs[0]), runs[1..])
  }

  /** Every history keeps the records sound and drops no recorded camera. */
  lemma {:induction false} SyncAllIsSound(w: World, runs: seq<Run>)
    requires Sound(w) && Feasible(w, runs)
    ensures Sound(SyncAll(w, runs))
    ensures w.state.Keys <= SyncAll(w, runs).state.Keys
    decreases |runs|
  {
    hide Sound, Plan, AllBehave, PerformAll;
    if runs == [] {
    } else {
      var r := runs[0];
      PlanIsReady(r.scan, w.state, r.settings, r.order);
      PerformAllIsSound(w, Plan(r.scan, w.state, r.settings, r.order), r.settings, r.outcomes, r.now);
      SyncAllIsSound(SyncOnce(w, r), runs[1..]);
    }
  }

  /**
   From an empty state file and after any runs: every live ingress made by sync
   is recorded under exactly one camera, each camera has at most one live
   ingress, and a recorded ingress is live exactly when its camera is not
   stranded by a delete whose create failed.
   */
  lemma {:induction false} IngressesAreRecordedOnce(runs: seq<Run>)
    requires Feasible(World(map[], Server(map[], {}), {}), runs)
    ensures var w := SyncAll(World(map[], Server(map[], {}), {}), runs);
            && (forall id, k :: id in w.server.live && k in w.state ==>
                  (w.state[k].ingressId == id <==> k == w.server.live[id]))
            && (forall id :: id in w.server.live ==> w.server.live[id] in w.state)
            && (forall id, jd ::
                  && id in w.server.live
                  && jd in w.server.live
                  && w.server.live[id] == w.server.live[jd]
                  ==> id == jd)
            && (forall k :: k in w.state && w.state[k].ingressId != "" ==>
                  (w.state[k].ingressId in w.server.live <==> k !in w.stranded))
  {
    var start := World(map[], Server(map[], {}), {});
    SyncAllIsSound(start, runs);
    var w := SyncAll(start, runs);
    forall id, k | id in w.server.live && k in w.state
      ensures w.state[k].ingressId == id <==> k == w.server.live[id]
    {
      assert RecordedFor(w, id, w.server.live[id]);
      assert id != "";
    }
    forall id, jd | id in w.server.live && jd in w.server.live && w.server.live[id] == w.server.live[jd]
      ensures id == jd
    {
      assert RecordedFor(w, id, w.server.live[id]) && RecordedFor(w, jd, w.server.live[jd]);
    }
  }

  /**
   The assumption on deletes is needed, and exactly so: replacing a live ingress
   keeps the records sound unless the server refuses the delete and then creates.
   */
  lemma {:induction false} RefusedDeleteLeaks(w: World, cam: Camera, settings: Settings, o: Outcome, now: int)
    requires Sound(w) && Fits(Update(cam), w.state) && w.state[cam.key].ingressId in w.server.live
    requires o.create.Created? ==> o.create.id != "" && o.create.id !in w.server.used
    ensures Sound(Perform(w, Update(cam), settings, o, now)) <==> !(o.delete.Refused? && o.create.Created?)
  {
    hide RegistrationFor;
    var id := w.state[cam.key].ingressId;
    assert w.server.live[id] == cam.key by {
      assert RecordedFor(w, id, w.server.live[id]);
    }
    var w' := Perform(w, Update(cam), settings, o, now);
    if o.delete.Refused? && o.create.Created? {
      assert id in w'.server.live && !RecordedFor(w', id, w'.server.live[id]);
    } else if o.delete.Refused? {
      assert w' == w;
    } else {
      PerformIsSound(w, Update(cam), settings, o, now);
    }
  }

  /**
   "Keep" does not mean live: a delete whose create fails leaves the old id, and a camera back at
   its old URI is kept.
   */
  lemma {:induction false} KeptIngressMayBeDead(w: World, cam: Camera, back: Camera, settings: Settings, id: string,
                                                now: int)
    requires Sound(w) && PlanOne(cam, w.state, settings).Update? && w.state[cam.key].ingressId == id &&
      id in w.server.live
    requires PlanOne(back, w.state, settings).Keep? && back.key == cam.key
    ensures var w' := Perform(w, Update(cam), settings, Outcome(Deleted, CreateRaised), now);
            PlanOne(back, w'.state, settings) == Keep(back) && id !in w'.server.live && cam.key in w'.stranded
  {
    hide RegistrationFor;
  }

  // ── The next run ──

  /** The effect of an action on its own camera's entry depends on that entry alone. */
  lemma {:induction false} PerformIsLocal(w: World, v: World, a: Action, settings: Settings, o: Outcome, now: int)
    requires Fits(a, w.state) && Fits(a, v.state)
    requires Key(a) in w.state <==> Key(a) in v.state
    requires Key(a) in w.state ==> w.state[Key(a)] == v.state[Key(a)]
    ensures SameEntry(Perform(w, a, settings, o, now).state, Perform(v, a, settings, o, now).state, Key(a))
  {
    hide RegistrationFor;
  }

  predicate SameEntry(s: State, t: State, k: string) {
    (k in s <==> k in t) && (k in s ==> s[k] == t[k])
  }

  /** In a whole run, each camera ends up as if its action had been the only one. */
  lemma {:induction false} FinalEntry(w: World, actions: seq<Action>, settings: Settings, outcomes: seq<Outcome>,
                                      now: int, i: nat)
    requires |outcomes| == |actions| && Ready(actions, w.state) && i < |actions|
    ensures SameEntry(PerformAll(w, actions, settings, outcomes, now).state,
                      Perform(w, actions[i], settings, outcomes[i], now).state, Key(actions[i]))
    decreases |actions|
  {
    hide Perform, Fits;
    var w' := Perform(w, actions[0], settings, outcomes[0], now);
    StaysReady(w, actions, settings, outcomes[0], now);
    if i == 0 {
      UntouchedEntry(w', actions[1..], settings, outcomes[1..], now, Key(actions[0]));
    } else {
      assert actions[1..][i - 1] == actions[i] && outcomes[1..][i - 1] == outcomes[i];
      FinalEntry(w', actions[1..], settings, outcomes[1..], now, i - 1);
      PerformKeepsOthers(w, actions[0], settings, outcomes[0], now);
      PerformIsLocal(w, w', actions[i], settings, outcomes[i], now);
    }
  }

  lemma {:induction false} UntouchedEntry(w: World, actions: seq<Action>, settings: Settings, outcomes: seq<Outcome>,
                                          now: int, k: string)
    requires |outcomes| == |actions| && Ready(actions, w.state)
    requires forall i :: 0 <= i < |actions| ==> Key(actions[i]) != k
    ensures SameEntry(PerformAll(w, actions, settings, outcomes, now).state, w.state, k)
    decreases |actions|
  {
    hide Perform, Fits;
    if actions == [] {
    } else {
      StaysReady(w, actions, settings, outcomes[0], now);
      PerformKeepsOthers(w, actions[0], settings, outcomes[0], now);
      UntouchedEntry(Perform(w, actions[0], settings, outcomes[0], now), actions[1..], settings, outcomes[1..], now, k);
    }
  }

  lemma {:induction false} PlanIsLocal(cam: Camera, s: State, t: State, settings: Settings)
    requires SameEntry(s, t, cam.key)
    ensures PlanOne(cam, s, settings) == PlanOne(cam, t, settings)
  {
    hide RegistrationFor;
  }

  /** An action that succeeded leaves nothing to do for its camera; one that failed will be planned again. */
  lemma {:induction false} NextPlan(w: World, cam: Camera, settings: Settings, o: Outcome, now: int)
    requires o.create.Created? ==> o.create.id != ""
    ensures var a := PlanOne(cam, w.state, settings);
            Fits(a, w.state) &&
            var again := PlanOne(cam, Perform(w, a, settings, o, now).state, settings);
            if Fails(a, o) then again == a else !CallsApi(again)
  {
    hide RegistrationFor;
  }

  ghost predicate NonemptyIds(outcomes: seq<Outcome>) {
    forall i :: 0 <= i < |outcomes| && outcomes[i].create.Created? ==> outcomes[i].create.id != ""
  }

  lemma {:induction false} NextPlanAfterRun(w: World, r: Run, i: nat)
    requires Possible(w, r) && NonemptyIds(r.outcomes) && i < |r.scan|
    ensures |r.outcomes| >= |r.scan|
    ensures var a := PlanOne(r.scan[i], w.state, r.settings);
            var again := PlanOne(r.scan[i], SyncOnce(w, r).state, r.settings);
            if Fails(a, r.outcomes[i]) then again == a else !CallsApi(again)
  {
    hide PlanOne, Perform, Fails, PerformAll, PlanCameras, PlanMissing;
    var actions, cam := Plan(r.scan, w.state, r.settings, r.order), r.scan[i];
    CamerasPlanned(r.scan, w.state, r.settings);
    PlanIsReady(r.scan, w.state, r.settings, r.order);
    assert actions[i] == PlanOne(cam, w.state, r.settings);
    OnePlannedFits(cam, w.state, r.settings);
    FinalEntry(w, actions, r.settings, r.outcomes, r.now, i);
    NextPlan(w, cam, r.settings, r.outcomes[i], r.now);
    PlanIsLocal(cam, SyncOnce(w, r).state, Perform(w, actions[i], r.settings, r.outcomes[i], r.now).state, r.settings);
  }

  lemma {:induction false} NoErrorsMeansNoneFails(actions: seq<Action>, outcomes: seq<Outcome>, i: nat)
    requires |outcomes| == |actions| && i < |actions| && Errors(actions, outcomes) == 0
    ensures !Fails(actions[i], outcomes[i])
  {
    hide Fails;
    if i == 0 {
    } else {
      NoErrorsMeansNoneFails(actions[1..], outcomes[1..], i - 1);
    }
  }

  /** After an error-free run, the same scan and settings plan no call to the server. */
  lemma {:induction false} SecondRunIsQuiet(w: World, r: Run, order: seq<string>)
    requires Possible(w, r) && NonemptyIds(r.outcomes)
    requires Errors(Plan(r.scan, w.state, r.settings, r.order), r.outcomes) == 0
    ensures forall a :: a in Plan(r.scan, SyncOnce(w, r).state, r.settings, order) ==> !CallsApi(a)
  {
    hide PlanOne, Fails, PerformAll, PlanCameras, PlanMissing;
    var state := SyncOnce(w, r).state;
    CamerasPlanned(r.scan, w.state, r.settings);
    CamerasPlanned(r.scan, state, r.settings);
    MissingPlanned(order, KeysOf(r.scan));
    var actions := Plan(r.scan, w.state, r.settings, r.order);
    var cams := PlanCameras(r.scan, state, r.settings);
    forall i | 0 <= i < |cams|
      ensures !CallsApi(cams[i])
    {
      assert actions[i] == PlanOne(r.scan[i], w.state, r.settings);
      NoErrorsMeansNoneFails(actions, r.outcomes, i);
      NextPlanAfterRun(w, r, i);
    }
    forall a | a in Plan(r.scan, state, r.settings, order)
      ensures !CallsApi(a)
    {
      if a in cams {
        var i :| 0 <= i < |cams| && cams[i] == a;
      }
    }
  }

  lemma {:induction false} QuietRunLeavesServer(w: World, actions: seq<Action>, settings: Settings,
                                                outcomes: seq<Outcome>, now: int)
    requires |outcomes| == |actions| && Ready(actions, w.state)
    requires forall a :: a in actions ==> !CallsApi(a)
    ensures PerformAll(w, actions, settings, outcomes, now).server == w.server
    decreases |actions|
  {
    hide Perform, Fits;
    if actions == [] {
    } else {
      StaysReady(w, actions, settings, outcomes[0], now);
      PerformKeepsOthers(w, actions[0], settings, outcomes[0], now);
      QuietRunLeavesServer(Perform(w, actions[0], settings, outcomes[0], now), actions[1..], settings, outcomes[1..],
        now);
    }
  }

  /** Re-running sync after an error-free run makes no call: the server is left exactly as it is. */
  lemma {:induction false} SyncIsIdempotent(w: World, r: Run, r2: Run)
    requires Possible(w, r) && NonemptyIds(r.outcomes)
    requires Errors(Plan(r.scan, w.state, r.settings, r.order), r.outcomes) == 0
    requires r2.scan == r.scan && r2.settings == r.settings && Possible(SyncOnce(w, r), r2)
    ensures SyncOnce(SyncOnce(w, r), r2).server == SyncOnce(w, r).server
  {
    hide Plan, PerformAll;
    var v := SyncOnce(w, r);
    SecondRunIsQuiet(w, r, r2.order);
    PlanIsReady(r2.scan, v.state, r2.settings, r2.order);
    QuietRunLeavesServer(v, Plan(r2.scan, v.state, r2.settings, r2.order), r2.settings, r2.outcomes, r2.now);
  }

  // ── Which cameras are stranded ──

  /** An action performed, with the server's answers. */
  datatype Deed = Deed(a: Action, o: Outcome)

  /** The old ingress was deleted and no new one created. */
  predicate Strands(d: Deed, key: string) {
    Key(d.a) == key && d.a.Update? && d.o.delete.Deleted? && d.o.create.CreateRaised?
  }

  /** A new ingress was created. */
  predicate Clears(d: Deed, key: string) {
    Key(d.a) == key && CallsApi(d.a) && !(d.a.Update? && d.o.delete.DeleteRaised?) && d.o.create.Created?
  }

  function Deeds(actions: seq<Action>, outcomes: seq<Outcome>): seq<Deed>
    requires |outcomes| == |actions|
  {
    if actions == [] then [] else [Deed(actions[0], outcomes[0])] + Deeds(actions[1..], outcomes[1..])
  }

  /** Everything a history does, in order. */
  function AllDeeds(w: World, runs: seq<Run>): seq<Deed>
    requires Feasible(w, runs)
    decreases |runs|
  {
    if runs == [] then []
    else
      var r := runs[0];
      Deeds(Plan(r.scan, w.state, r.settings, r.order), r.outcomes) + AllDeeds(SyncOnce(w, r), runs[1..])
  }

  /** The last deed that took effect for the camera stranded it. */
  predicate LastStranded(ds: seq<Deed>, key: string) {
    ds != [] &&
    (Strands(ds[|ds| - 1], key) || (!Clears(ds[|ds| - 1], key) && LastStranded(ds[..|ds| - 1], key)))
  }

  ghost predicate NoneClears(ds: seq<Deed>, key: string) { forall j :: 0 <= j < |ds| ==> !Clears(ds[j], key) }

  lemma {:induction false} LastStrandedAppend(a: seq<Deed>, b: seq<Deed>, key: string)
    ensures LastStranded(a + b, key) <==> LastStranded(b, key) || (LastStranded(a, key) && NoneClears(b, key))
    decreases |b|
  {
    hide Strands, Clears;
    if b == [] {
      assert a + b == a;
    } else {
      LastStrandedAppend(a, b[..|b| - 1], key);
      assert (a + b)[..|a + b| - 1] == a + b[..|b| - 1] && (a + b)[|a + b| - 1] == b[|b| - 1];
      assert b == b[..|b| - 1] + [b[|b| - 1]];
    }
  }

  lemma {:induction false} NoneClearsAppend(a: seq<Deed>, b: seq<Deed>, key: string)
    ensures NoneClears(a + b, key) <==> NoneClears(a, key) && NoneClears(b, key)
  {
    hide Clears;
    var ab := a + b;
    assert forall j :: 0 <= j < |a| ==> ab[j] == a[j];
    assert forall j :: 0 <= j < |b| ==> ab[j + |a|] == b[j];
  }

  lemma {:induction false} DeedStrands(w: World, a: Action, settings: Settings, o: Outcome, now: int, key: string)
    requires Fits(a, w.state)
    ensures key in Perform(w, a, settings, o, now).stranded <==>
            Strands(Deed(a, o), key) || (key in w.stranded && !Clears(Deed(a, o), key))
  {
    hide RegistrationFor;
  }

  lemma {:induction false} OneDeed(d: Deed, key: string)
    ensures LastStranded([d], key) <==> Strands(d, key)
    ensures NoneClears([d], key) <==> !Clears(d, key)
  {
    hide Strands, Clears;
    assert [d][..0] == [] && [d][0] == d;
  }

  /** The history variable after a series of actions, from the answers alone. */
  ghost predicate StrandedAfter(w: World, after: World, ds: seq<Deed>) {
    forall key :: key in after.stranded <==> LastStranded(ds, key) || (key in w.stranded && NoneClears(ds, key))
  }

  lemma {:induction false} StrandedChain(w: World, mid: World, after: World, a: seq<Deed>, b: seq<Deed>)
    requires StrandedAfter(w, mid, a) && StrandedAfter(mid, after, b)
    ensures StrandedAfter(w, after, a + b)
  {
    hide LastStranded, NoneClears;
    forall key
      ensures key in after.stranded <==> LastStranded(a + b, key) || (key in w.stranded && NoneClears(a + b, key))
    {
      LastStrandedAppend(a, b, key);
      NoneClearsAppend(a, b, key);
    }
  }

  lemma {:induction false} NoDeeds(w: World)
    ensures StrandedAfter(w, w, [])
  {
  }

  lemma {:induction false} ActionsStrand(w: World, actions: seq<Action>, settings: Settings, outcomes: seq<Outcome>,
                                         now: int)
    requires |outcomes| == |actions| && Ready(actions, w.state)
    ensures StrandedAfter(w, PerformAll(w, actions, settings, outcomes, now), Deeds(actions, outcomes))
    decreases |actions|
  {
    hide Perform, Fits, Strands, Clears, LastStranded, NoneClears, StrandedAfter;
    if actions == [] {
      NoDeeds(w);
    } else {
      var d, next := Deed(actions[0], outcomes[0]), Perform(w, actions[0], settings, outcomes[0], now);
      StaysReady(w, actions, settings, outcomes[0], now);
      OneActionStrands(w, actions[0], settings, outcomes[0], now);
      ActionsStrand(next, actions[1..], settings, outcomes[1..], now);
      StrandedChain(w, next, PerformAll(w, actions, settings, outcomes, now), [d], Deeds(actions[1..], outcomes[1..]));
    }
  }

  lemma {:induction false} OneActionStrands(w: World, a: Action, settings: Settings, o: Outcome, now: int)
    requires Fits(a, w.state)
    ensures StrandedAfter(w, Perform(w, a, settings, o, now), [Deed(a, o)])
  {
    hide Perform, Fits, Strands, Clears, LastStranded, NoneClears;
    forall key
      ensures key in Perform(w, a, settings, o, now).stranded <==>
              LastStranded([Deed(a, o)], key) || (key in w.stranded && NoneClears([Deed(a, o)], key))
    {
      DeedStrands(w, a, settings, o, now, key);
      OneDeed(Deed(a, o), key);
    }
  }

  lemma {:induction false} RunsStrand(w: World, runs: seq<Run>)
    requires Feasible(w, runs)
    ensures StrandedAfter(w, SyncAll(w, runs), AllDeeds(w, runs))
    decreases |runs|
  {
    hide Plan, PerformAll, StrandedAfter, AllBehave, Deeds;
    if runs == [] {
      NoDeeds(w);
    } else {
      var r := runs[0];
      var actions, next := Plan(r.scan, w.state, r.settings, r.order), SyncOnce(w, r);
      PlanIsReady(r.scan, w.state, r.settings, r.order);
      ActionsStrand(w, actions, r.settings, r.outcomes, r.now);
      RunsStrand(next, runs[1..]);
      StrandedChain(w, next, SyncAll(w, runs), Deeds(actions, r.outcomes), AllDeeds(next, runs[1..]));
    }
  }

  /**
   After any history a recorded ingress is dead exactly when the last thing that took effect for its
   camera was a delete whose create got no answer.
   */
  lemma {:induction false} DeadExactlyWhenStranded(runs: seq<Run>, key: string)
    requires Feasible(World(map[], Server(map[], {}), {}), runs)
    requires var w := SyncAll(World(map[], Server(map[], {}), {}), runs);
             key in w.state && w.state[key].ingressId != ""
    ensures var start := World(map[], Server(map[], {}), {});
            var w := SyncAll(start, runs);
            w.state[key].ingressId !in w.server.live <==> LastStranded(AllDeeds(start, runs), key)
  {
    hide SyncAll, AllDeeds, LastStranded, NoneClears, Feasible;
    var start := World(map[], Server(map[], {}), {});
    IngressesAreRecordedOnce(runs);
    RunsStrand(start, runs);
  }
}
