/**
 ONVIF sync: a client that keeps a state file of registered cameras and a
 remote server whose calls can fail. One run plans an action per camera from
 the state it loaded, performs them one by one, and saves the state.
 */
module OnvifSync {
  import opened Common
  import opened Text

  // ── Planning ──

  datatype Override = Override(mode: string, stream: string)

  datatype Settings = Settings(registerMode: string, preferStream: string, overrides: map<string, Override>)

  datatype Camera = Camera(key: string, failed: bool, mainRtsp: string, subRtsp: string)

  datatype Entry = Entry(mode: string, rtsp: string, ingressId: string, lastSeen: int, missingSince: Option<int>)

  type State = map<string, Entry>

  datatype Action =
    | Register(cam: Camera)
    | Update(cam: Camera)
    | Keep(cam: Camera)
    | Skip(cam: Camera)
    | Missing(key: string)

  function Key(a: Action): string { if a.Missing? then a.key else a.cam.key }

  /** The actions that talk to the server. */
  predicate CallsApi(a: Action) { a.Register? || a.Update? }

  /** registration_for: a per-camera override wins over the global setting; an unknown mode means "url". */
  function RegistrationFor(cam: Camera, settings: Settings): (string, string) {
    var o := if cam.key in settings.overrides then settings.overrides[cam.key] else Override("", "");
    var mode := Strip(if o.mode != "" then o.mode else settings.registerMode);
    var stream := Strip(if o.stream != "" then o.stream else settings.preferStream);
    (if mode == "url" || mode == "passthrough" then mode else "url",
     if stream == "sub" then cam.subRtsp else cam.mainRtsp)
  }

  function PlanOne(cam: Camera, state: State, settings: Settings): Action {
    var (mode, rtsp) := RegistrationFor(cam, settings);
    if cam.failed && rtsp == "" then Skip(cam)
    else if cam.key !in state || state[cam.key].ingressId == "" then Register(cam)
    else if state[cam.key].rtsp != rtsp || state[cam.key].mode != mode then Update(cam)
    else Keep(cam)
  }

  function PlanCameras(scan: seq<Camera>, state: State, settings: Settings): seq<Action> {
    if scan == [] then []
    else PlanCameras(scan[..|scan| - 1], state, settings) + [PlanOne(scan[|scan| - 1], state, settings)]
  }

  function KeysOf(scan: seq<Camera>): set<string> { set c | c in scan :: c.key }

  /** Recorded cameras that were not discovered, in the given order of keys. */
  function PlanMissing(order: seq<string>, seen: set<string>): seq<Action> {
    if order == [] then []
    else
      var before, k := PlanMissing(order[..|order| - 1], seen), order[|order| - 1];
      if k in seen then before else before + [Missing(k)]
  }

  function Plan(scan: seq<Camera>, state: State, settings: Settings, order: seq<string>): seq<Action> {
    PlanCameras(scan, state, settings) + PlanMissing(order, KeysOf(scan))
  }

  /** plan_sync: one loop over the scan and one over the sorted keys of the state. */
  method PlanSync(scan: seq<Camera>, state: State, settings: Settings,
                  order: seq<string>) returns (actions: seq<Action>)
    ensures actions == Plan(scan, state, settings, order)
  {
    hide PlanOne;
    actions := [];
    var seen := {};
    for i := 0 to |scan|
      invariant actions == PlanCameras(scan[..i], state, settings)
      invariant seen == KeysOf(scan[..i])
    {
      assert scan[..i + 1] == scan[..i] + [scan[i]];
      assert scan[..i + 1][..i] == scan[..i];
      assert KeysOf(scan[..i + 1]) == KeysOf(scan[..i]) + {scan[i].key};
      seen := seen + {scan[i].key};
      actions := actions + [PlanOne(scan[i], state, settings)];
    }
    assert scan[..|scan|] == scan;
    var cameras := actions;
    for i := 0 to |order|
      invariant actions == cameras + PlanMissing(order[..i], seen)
    {
      assert order[..i + 1][..i] == order[..i];
      if order[i] !in seen {
        actions := actions + [Missing(order[i])];
      }
    }
    assert order[..|order|] == order;
  }

  // ── The server and one action ──

  /** Live ingresses with the camera they were made for, and every id handed out so far. */
  datatype Server = Server(live: map<string, string>, used: set<string>)

  /** delete_ingress: done, refused by the server (the result is ignored), or no answer. */
  datatype DeleteOutcome = Deleted | Refused | DeleteRaised

  datatype CreateOutcome = Created(id: string) | CreateRaised

  datatype Outcome = Outcome(delete: DeleteOutcome, create: CreateOutcome)

  /**
   The client's state and the server. `stranded` is a history variable: the
   cameras whose ingress was deleted and could not be created again.
   */
  datatype World = World(state: State, server: Server, stranded: set<string>)

  function Create(w: World, cam: Camera, settings: Settings, o: CreateOutcome, now: int): World {
    match o
    case CreateRaised => w
    case Created(id) =>
      var (mode, rtsp) := RegistrationFor(cam, settings);
      World(w.state[cam.key := Entry(mode, rtsp, id, now, None)],
            Server(w.server.live[id := cam.key], w.server.used + {id}),
            w.stranded - {cam.key})
  }

  function Delete(w: World, key: string): World
    requires key in w.state
  {
    w.(server := w.server.(live := w.server.live - {w.state[key].ingressId}), stranded := w.stranded + {key})
  }

  /** An action fails exactly when a call it needs gets no good answer. */
  predicate Fails(a: Action, o: Outcome) {
    (a.Update? && o.delete.DeleteRaised?) || (CallsApi(a) && o.create.CreateRaised?)
  }

  /** The action still fits the state it was planned for. */
  predicate Fits(a: Action, state: State) {
    match a
    case Register(cam) => cam.key !in state || state[cam.key].ingressId == ""
    case Update(cam) => cam.key in state && state[cam.key].ingressId != ""
    case Keep(cam) => cam.key in state
    case Skip(_) => true
    case Missing(k) => k in state
  }

  function Perform(w: World, a: Action, settings: Settings, o: Outcome, now: int): World
    requires Fits(a, w.state)
  {
    match a
    case Skip(_) => w
    case Missing(k) =>
      var e := w.state[k];
      w.(state := w.state[k := e.(missingSince := if e.missingSince.None? then Some(now) else e.missingSince)])
    case Keep(cam) =>
      w.(state := w.state[cam.key := w.state[cam.key].(lastSeen := now, missingSince := None)])
    case Register(cam) => Create(w, cam, settings, o.create, now)
    case Update(cam) =>
      match o.delete
      case DeleteRaised => w
      case Refused => Create(w, cam, settings, o.create, now)
      case Deleted => Create(Delete(w, cam.key), cam, settings, o.create, now)
  }

  // ── One run ──

  /** The remaining actions concern different cameras and all fit. */
  ghost predicate Ready(actions: seq<Action>, state: State) {
    && (forall i :: 0 <= i < |actions| ==> Fits(actions[i], state))
    && DistinctCameras(actions)
  }

  ghost predicate DistinctCameras(actions: seq<Action>) {
    forall i, j :: 0 <= i < j < |actions| ==> Key(actions[i]) != Key(actions[j])
  }

  /** Performing one action leaves every other camera's entry alone. */
  lemma {:induction false} PerformKeepsOthers(w: World, a: Action, settings: Settings, o: Outcome, now: int)
    requires Fits(a, w.state)
    ensures var w' := Perform(w, a, settings, o, now);
            && w.state.Keys <= w'.state.Keys
            && (forall k :: k != Key(a) ==> (k in w'.state <==> k in w.state))
            && (forall k :: k != Key(a) && k in w.state ==> w'.state[k] == w.state[k])
            && (!CallsApi(a) ==> w'.server == w.server && w'.stranded == w.stranded)
            && (Fails(a, o) && Key(a) in w.state ==> w'.state == w.state)
  {
    hide RegistrationFor;
  }

  lemma {:induction false} StaysReady(w: World, actions: seq<Action>, settings: Settings, o: Outcome, now: int)
    requires actions != [] && Ready(actions, w.state)
    ensures Ready(actions[1..], Perform(w, actions[0], settings, o, now).state)
  {
    hide Perform;
    PerformKeepsOthers(w, actions[0], settings, o, now);
    var w' := Perform(w, actions[0], settings, o, now);
    forall i | 0 <= i < |actions| - 1
      ensures Fits(actions[1..][i], w'.state)
    {
      assert actions[1..][i] == actions[i + 1];
      assert Key(actions[0]) != Key(actions[i + 1]);
    }
  }

  function PerformAll(w: World, actions: seq<Action>, settings: Settings, outcomes: seq<Outcome>, now: int): World
    requires |outcomes| == |actions| && Ready(actions, w.state)
    decreases |actions|
  {
    if actions == [] then w
    else
      StaysReady(w, actions, settings, outcomes[0], now);
      PerformAll(Perform(w, actions[0], settings, outcomes[0], now), actions[1..], settings, outcomes[1..], now)
  }

  function Errors(actions: seq<Action>, outcomes: seq<Outcome>): nat
    requires |outcomes| == |actions|
  {
    if actions == [] then 0
    else (if Fails(actions[0], outcomes[0]) then 1 else 0) + Errors(actions[1..], outcomes[1..])
  }

  /** The loop of sync over the planned actions. */
  method PerformActions(w0: World, actions: seq<Action>, settings: Settings, outcomes: seq<Outcome>, now: int)
    returns (w: World, errors: nat)
    requires |outcomes| == |actions| && Ready(actions, w0.state)
    ensures w == PerformAll(w0, actions, settings, outcomes, now)
    ensures errors == Errors(actions, outcomes)
  {
    hide Perform, Fits, Fails;
    w, errors := w0, 0;
    var i := 0;
    while i < |actions|
      invariant i <= |actions| && Ready(actions[i..], w.state)
      invariant PerformAll(w0, actions, settings, outcomes, now) ==
                PerformAll(w, actions[i..], settings, outcomes[i..], now)
      invariant Errors(actions, outcomes) == errors + Errors(actions[i..], outcomes[i..])
    {
      var a, o := actions[i], outcomes[i];
      assert actions[i..][0] == a && outcomes[i..][0] == o;
      assert actions[i..][1..] == actions[i + 1..] && outcomes[i..][1..] == outcomes[i + 1..];
      StaysReady(w, actions[i..], settings, o, now);
      if Fails(a, o) {
        errors := errors + 1;
      }
      w := Perform(w, a, settings, o, now);
      i := i + 1;
    }
  }

  // ── A planned run is ready ──

  ghost predicate DistinctKeys(scan: seq<Camera>) {
    forall i, j :: 0 <= i < j < |scan| ==> scan[i].key != scan[j].key
  }

  /** `order` lists the keys of the state, each once. */
  ghost predicate Enumerates(order: seq<string>, state: State) {
    && (forall k :: k in order <==> k in state)
    && Distinct(order)
  }

  ghost predicate Distinct(order: seq<string>) {
    forall i, j :: 0 <= i < j < |order| ==> order[i] != order[j]
  }

  lemma {:induction false} CamerasPlanned(scan: seq<Camera>, state: State, settings: Settings)
    ensures var p := PlanCameras(scan, state, settings);
            |p| == |scan| && forall i :: 0 <= i < |p| ==> p[i] == PlanOne(scan[i], state, settings)
  {
    hide PlanOne;
    if scan == [] {
    } else {
      CamerasPlanned(scan[..|scan| - 1], state, settings);
    }
  }

  lemma {:induction false} MissingPlanned(order: seq<string>, seen: set<string>)
    ensures forall a :: a in PlanMissing(order, seen) ==> a.Missing? && a.key in order && a.key !in seen
  {
    if order == [] {
    } else {
      MissingPlanned(order[..|order| - 1], seen);
    }
  }

  lemma {:induction false} MissingDistinct(order: seq<string>, seen: set<string>)
    requires Distinct(order)
    ensures DistinctCameras(PlanMissing(order, seen))
  {
    if order == [] {
    } else {
      var before, k := order[..|order| - 1], order[|order| - 1];
      MissingDistinct(before, seen);
      MissingPlanned(before, seen);
      var p := PlanMissing(before, seen);
      forall i | 0 <= i < |p|
        ensures Key(p[i]) != k
      {
        assert p[i] in p;
        assert p[i].key in before;
        var j :| 0 <= j < |before| && before[j] == p[i].key;
        assert order[j] == before[j];
      }
      assert DistinctCameras(p + [Missing(k)]);
    }
  }

  lemma {:induction false} OnePlannedFits(cam: Camera, state: State, settings: Settings)
    ensures Fits(PlanOne(cam, state, settings), state) && Key(PlanOne(cam, state, settings)) == cam.key
    ensures !PlanOne(cam, state, settings).Missing?
  {
    hide RegistrationFor;
  }

  lemma {:induction false} PlanIsReady(scan: seq<Camera>, state: State, settings: Settings, order: seq<string>)
    requires DistinctKeys(scan) && Enumerates(order, state)
    ensures Ready(Plan(scan, state, settings, order), state)
  {
    hide PlanOne, PlanCameras, PlanMissing;
    var seen := KeysOf(scan);
    var cams, missing := PlanCameras(scan, state, settings), PlanMissing(order, seen);
    CamerasPlanned(scan, state, settings);
    MissingPlanned(order, seen);
    MissingDistinct(order, seen);
    forall i | 0 <= i < |cams|
      ensures Fits(cams[i], state) && Key(cams[i]) == scan[i].key && Key(cams[i]) in seen
    {
      assert scan[i] in scan;
      OnePlannedFits(scan[i], state, settings);
    }
    forall i | 0 <= i < |missing|
      ensures Fits(missing[i], state) && Key(missing[i]) !in seen
    {
      assert missing[i] in missing;
    }
    ReadyTogether(cams, missing, state);
  }

  lemma {:induction false} ReadyTogether(a: seq<Action>, b: seq<Action>, state: State)
    requires Ready(a, state) && Ready(b, state)
    requires forall i, j :: 0 <= i < |a| && 0 <= j < |b| ==> Key(a[i]) != Key(b[j])
    ensures Ready(a + b, state)
  {
    hide Fits;
  }

  /** What one run meets: the scan, the settings, the sorted keys of the state and the server's answers. */
  datatype Run = Run(scan: seq<Camera>, settings: Settings, order: seq<string>, outcomes: seq<Outcome>, now: int)

  ghost predicate Possible(w: World, r: Run) {
    && DistinctKeys(r.scan) && Enumerates(r.order, w.state)
    && |r.outcomes| == |Plan(r.scan, w.state, r.settings, r.order)|
  }

  function SyncOnce(w: World, r: Run): World
    requires Possible(w, r)
  {
    PlanIsReady(r.scan, w.state, r.settings, r.order);
    PerformAll(w, Plan(r.scan, w.state, r.settings, r.order), r.settings, r.outcomes, r.now)
  }

  /** sync: plan, perform, and the state to be saved. */
  method Sync(w0: World, r: Run) returns (w: World, errors: nat)
    requires Possible(w0, r)
    ensures w == SyncOnce(w0, r)
    ensures errors == Errors(Plan(r.scan, w0.state, r.settings, r.order), r.outcomes)
  {
    hide PlanOne, Perform, Plan;
    var actions := PlanSync(r.scan, w0.state, r.settings, r.order);
    PlanIsReady(r.scan, w0.state, r.settings, r.order);
    w, errors := PerformActions(w0, actions, r.settings, r.outcomes, r.now);
  }
}
