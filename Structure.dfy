/** The structure ability: construction progress, repair advice, provisioning
    of the commander's resource limit, resource storage and save/load.
    The engine calls the structure makes (animator, material, team colour,
    rally point, grid, playing area) are recorded in an event log. */
module Construction {
  import opened Persistence
  import opened Amounts

  /** `ResourceType.Provision` is the one resource type this core names; the
      others are enum members declared outside it. */
  datatype ResourceType = Provision | Other(code: nat)

  /** A call from the structure into a collaborator. */
  datatype Event =
    | SpawnPointSet                    // Rally.SetSpawnPoint
    | AnimatorBuilding                 // Animator.SetState(AnimState.Building)
    | MaterialRestored                 // ConstructionHandler.RestoreMaterial
    | TeamColorSet                     // Agent.SetTeamColor
    | LimitIncremented(amount: int)    // IncrementResourceLimit(Provision, amount)
    | LimitDecremented(amount: int)    // DecrementResourceLimit(Provision, amount)
    | Unbuilt                          // GridBuilder.Unbuild
    | PlayingAreaSet(area: Rect)       // Agent.SetPlayingArea

  predicate IsAnimation(e: Event) { e.AnimatorBuilding? }
  predicate IsRestoration(e: Event) { e.MaterialRestored? }
  predicate IsIncrement(e: Event) { e.LimitIncremented? }

  /** The number of events in `es` that satisfy `f`. */
  function CountIf(es: seq<Event>, f: Event -> bool): nat
    decreases |es|
  {
    if es == [] then 0 else (if f(es[0]) then 1 else 0) + CountIf(es[1..], f)
  }

  lemma {:induction false} CountIfAppend(a: seq<Event>, b: seq<Event>, f: Event -> bool)
    ensures CountIf(a + b, f) == CountIf(a, f) + CountIf(b, f)
    decreases |a|
  {
    if a == [] {
      assert a + b == b;
    } else {
      assert (a + b)[1..] == a[1..] + b;
      CountIfAppend(a[1..], b, f);
    }
  }

  /** The net change to the resource limit recorded in `es`. */
  function NetLimit(es: seq<Event>): int
    decreases |es|
  {
    if es == [] then 0
    else
      (match es[0]
       case LimitIncremented(a) => a
       case LimitDecremented(a) => -a
       case _ => 0) + NetLimit(es[1..])
  }

  lemma {:induction false} NetLimitAppend(a: seq<Event>, b: seq<Event>)
    ensures NetLimit(a + b) == NetLimit(a) + NetLimit(b)
    decreases |a|
  {
    if a == [] {
      assert a + b == b;
    } else {
      assert (a + b)[1..] == a[1..] + b;
      NetLimitAppend(a[1..], b);
    }
  }

  // ---------------------------------------------------------------------------
  // The state and its transitions.

  /** What a structure is set up with: its own inspector fields, its health
      ability's base and maximum health, and whether the agent has an animator
      and a rally point. */
  datatype Config = Config(
    provisioner: bool, provisionAmount: int,
    baseHealth: int, maxHealth: int,
    hasAnimator: bool, hasRally: bool)

  /** The structure's flags, the health amount, the commander's provision limit,
      the agent's playing area and the log of collaborator calls. */
  datatype Build = Build(
    needsConstruction: bool, constructionStarted: bool, needsRepair: bool,
    provisioned: bool, isCasting: bool,
    health: int, limit: int, playingArea: Rect, events: seq<Event>)

  /** The shared provisioning step of `OnSimulate` and `Construct`. */
  function Provisioned(cfg: Config, b: Build): (r: Build)
    ensures r.provisioned == (b.provisioned || cfg.provisioner)
    ensures var fires := cfg.provisioner && !b.provisioned;
            r.limit == b.limit + (if fires then cfg.provisionAmount else 0) &&
            r.events == b.events + (if fires then [LimitIncremented(cfg.provisionAmount)] else [])
    ensures r.(provisioned := b.provisioned, limit := b.limit, events := b.events) == b
  {
    if cfg.provisioner && !b.provisioned then
      b.(provisioned := true, limit := b.limit + cfg.provisionAmount,
         events := b.events + [LimitIncremented(cfg.provisionAmount)])
    else b
  }

  /** `OnInitialize`: clears three flags, but not `ConstructionStarted`. */
  function Initialized(b: Build): (r: Build)
    ensures !r.needsConstruction && !r.needsRepair && !r.provisioned
    ensures r.constructionStarted == b.constructionStarted && r.isCasting == b.isCasting
    ensures r.health == b.health && r.limit == b.limit && r.events == b.events
    ensures r.playingArea == b.playingArea
  {
    b.(needsConstruction := false, needsRepair := false, provisioned := false)
  }

  /** `OnSimulate`: raises the repair flag when a built structure is damaged,
      and provisions once health is at its maximum. */
  function Simulated(cfg: Config, b: Build): (r: Build)
    ensures r.needsRepair == (b.needsRepair || (!b.needsConstruction && b.health != cfg.maxHealth))
    ensures var fires := b.health == cfg.maxHealth && cfg.provisioner && !b.provisioned;
            r.provisioned == (b.provisioned || fires) &&
            r.limit == b.limit + (if fires then cfg.provisionAmount else 0) &&
            r.events == b.events + (if fires then [LimitIncremented(cfg.provisionAmount)] else [])
    ensures r.needsConstruction == b.needsConstruction && r.constructionStarted == b.constructionStarted
    ensures r.isCasting == b.isCasting && r.health == b.health && r.playingArea == b.playingArea
  {
    var b1 := if !b.needsConstruction && b.health != cfg.maxHealth then b.(needsRepair := true) else b;
    if b1.health == cfg.maxHealth then Provisioned(cfg, b1) else b1
  }

  /** `AwaitConstruction`. */
  function Awaited(cfg: Config, b: Build): (r: Build)
    ensures r.needsConstruction && r.isCasting && r.health == 0
    ensures r.events == b.events + (if cfg.hasRally then [SpawnPointSet] else [])
    ensures r.constructionStarted == b.constructionStarted && r.needsRepair == b.needsRepair
    ensures r.provisioned == b.provisioned && r.limit == b.limit && r.playingArea == b.playingArea
  {
    b.(needsConstruction := true, isCasting := true, health := 0,
       events := b.events + (if cfg.hasRally then [SpawnPointSet] else []))
  }

  /** The collaborator calls made when construction starts. */
  function StartEvents(cfg: Config): seq<Event>
  {
    (if cfg.hasAnimator then [AnimatorBuilding] else []) + [MaterialRestored]
  }

  /** The first part of `Construct`: the start of construction, taken only on
      the edge where construction is needed and has not yet started. */
  function BeginConstruction(cfg: Config, b: Build): Build
  {
    if b.needsConstruction && !b.constructionStarted then
      b.(constructionStarted := true, events := b.events + StartEvents(cfg))
    else b
  }

  /** The completion branch of `Construct`. */
  function CompleteConstruction(cfg: Config, b: Build): Build
  {
    Provisioned(cfg, b.(health := cfg.baseHealth, needsConstruction := false, isCasting := false,
                        events := b.events + [TeamColorSet]))
  }

  /** `Construct(amount)`. */
  function Constructed(cfg: Config, b: Build, amount: int): (r: Build)
    // health is clamped to the base health
    ensures r.health == Min(b.health + amount, cfg.baseHealth)
    // the start fires on the edge only, and is never undone
    ensures r.constructionStarted == (b.constructionStarted || b.needsConstruction)
    // reaching the base health completes construction and ends casting
    ensures var done := b.health + amount >= cfg.baseHealth;
            r.needsConstruction == (b.needsConstruction && !done) &&
            r.isCasting == (b.isCasting && !done)
    // provisioning fires on completion, once
    ensures var fires := b.health + amount >= cfg.baseHealth && cfg.provisioner && !b.provisioned;
            r.provisioned == (b.provisioned || fires) &&
            r.limit == b.limit + (if fires then cfg.provisionAmount else 0)
    ensures r.needsRepair == b.needsRepair && r.playingArea == b.playingArea
  {
    var b1 := BeginConstruction(cfg, b);
    if b1.health + amount >= cfg.baseHealth then CompleteConstruction(cfg, b1)
    else b1.(health := b1.health + amount)
  }

  /** `OnDeactivate`: gives back the provision whenever the structure is a
      provisioner, whether or not it provisioned, and always unbuilds. */
  function Deactivated(cfg: Config, b: Build): (r: Build)
    ensures r.limit == b.limit - (if cfg.provisioner then cfg.provisionAmount else 0)
    ensures r.events == b.events + (if cfg.provisioner then [LimitDecremented(cfg.provisionAmount)] else []) + [Unbuilt]
    ensures r.(limit := b.limit, events := b.events) == b
  {
    var b1 :=
      if cfg.provisioner then
        b.(limit := b.limit - cfg.provisionAmount, events := b.events + [LimitDecremented(cfg.provisionAmount)])
      else b;
    b1.(events := b1.events + [Unbuilt])
  }

  // ---------------------------------------------------------------------------
  // Save and load.

  const NeedsBuildingName: string := "NeedsBuilding"
  const NeedsRepairName: string := "NeedsRepair"
  const PlayingAreaName: string := "PlayingArea"

  /** `OnSaveDetails`: the playing area is written only while construction is needed. */
  function SaveStructure(needsBuilding: bool, needsRepair: bool, area: Rect): (props: seq<Property>)
    ensures |props| == if needsBuilding then 3 else 2
    ensures props[0] == Property(NeedsBuildingName, BoolValue(needsBuilding))
    ensures props[1] == Property(NeedsRepairName, BoolValue(needsRepair))
    ensures needsBuilding ==> props[2] == Property(PlayingAreaName, RectValue(area))
  {
    [Property(NeedsBuildingName, BoolValue(needsBuilding)),
     Property(NeedsRepairName, BoolValue(needsRepair))] +
    (if needsBuilding then [Property(PlayingAreaName, RectValue(area))] else [])
  }

  /** One call of `HandleLoadedProperty`; `None` is a value of the wrong type
      under a known name (a failing cast or rectangle read). */
  function LoadStructure(b: Build, p: Property): (r: Option<Build>)
    // unknown names are ignored and never fail
    ensures p.name !in {NeedsBuildingName, NeedsRepairName, PlayingAreaName} ==> r == Some(b)
    // a known name fails exactly when its value has the wrong type
    ensures r.None? <==>
              ((p.name == NeedsBuildingName || p.name == NeedsRepairName) && !p.value.BoolValue?) ||
              (p.name == PlayingAreaName && !p.value.RectValue?)
    // a successful load sets the named field and changes nothing else
    ensures r.Some? && p.name == NeedsBuildingName ==>
              r.value.needsConstruction == p.value.b && r.value.(needsConstruction := b.needsConstruction) == b
    ensures r.Some? && p.name == NeedsRepairName ==>
              r.value.needsRepair == p.value.b && r.value.(needsRepair := b.needsRepair) == b
    ensures r.Some? && p.name == PlayingAreaName ==>
              r.value.playingArea == p.value.r && r.value.events == b.events + [PlayingAreaSet(p.value.r)] &&
              r.value.(playingArea := b.playingArea, events := b.events) == b
  {
    if p.name == NeedsBuildingName then
      if p.value.BoolValue? then Some(b.(needsConstruction := p.value.b)) else None
    else if p.name == NeedsRepairName then
      if p.value.BoolValue? then Some(b.(needsRepair := p.value.b)) else None
    else if p.name == PlayingAreaName then
      if p.value.RectValue?
      then Some(b.(playingArea := p.value.r, events := b.events + [PlayingAreaSet(p.value.r)]))
      else None
    else Some(b)
  }

  /** Loading what was saved restores both flags, and the playing area when it
      was written; nothing else changes. */
  lemma SaveLoadRoundTrip(needsBuilding: bool, needsRepair: bool, area: Rect, b: Build)
    ensures LoadAll(LoadStructure, b, SaveStructure(needsBuilding, needsRepair, area)) ==
            Some(b.(needsConstruction := needsBuilding,
                    needsRepair := needsRepair,
                    playingArea := if needsBuilding then area else b.playingArea,
                    events := b.events + if needsBuilding then [PlayingAreaSet(area)] else []))
  {
    var props := SaveStructure(needsBuilding, needsRepair, area);
    var b1 := b.(needsConstruction := needsBuilding);
    var b2 := b1.(needsRepair := needsRepair);
    assert LoadStructure(b, props[0]) == Some(b1);
    assert LoadStructure(b1, props[1]) == Some(b2);
    assert props[1..][1..] == props[2..];
    if needsBuilding {
      var b3 := b2.(playingArea := area, events := b2.events + [PlayingAreaSet(area)]);
      assert LoadStructure(b2, props[2]) == Some(b3);
      assert props[2..][1..] == [];
      assert LoadAll(LoadStructure, b3, props[2..][1..]) == Some(b3);
      assert LoadAll(LoadStructure, b2, props[2..]) == Some(b3);
    } else {
      assert props[2..] == [];
      assert LoadAll(LoadStructure, b2, props[2..]) == Some(b2);
      assert b.events + [] == b.events;
    }
    assert LoadAll(LoadStructure, b1, props[1..]) == LoadAll(LoadStructure, b2, props[2..]);
    assert LoadAll(LoadStructure, b, props) == LoadAll(LoadStructure, b1, props[1..]);
  }

  /** Properties of names the structure does not know are ignored. */
  lemma LoadIgnoresUnknown(b: Build, props: seq<Property>)
    requires forall i :: 0 <= i < |props| ==> props[i].name !in {NeedsBuildingName, NeedsRepairName, PlayingAreaName}
    ensures LoadAll(LoadStructure, b, props) == Some(b)
  {
    LoadAllUnknown(LoadStructure, {NeedsBuildingName, NeedsRepairName, PlayingAreaName}, b, props);
  }

  // ---------------------------------------------------------------------------
  // Sequences of operations.

  datatype Op = Initialize | Simulate | Await | Construct(amount: int) | Deactivate | Load(p: Property)

  /** One lifecycle call; a failing load aborts and leaves the state as it was. */
  function Apply(cfg: Config, b: Build, op: Op): Build
  {
    match op
    case Initialize => Initialized(b)
    case Simulate => Simulated(cfg, b)
    case Await => Awaited(cfg, b)
    case Construct(amount) => Constructed(cfg, b, amount)
    case Deactivate => Deactivated(cfg, b)
    case Load(p) => match LoadStructure(b, p) case Some(b') => b' case None => b
  }

  /** The calls in order. */
  function RunOps(cfg: Config, b: Build, ops: seq<Op>): Build
    decreases |ops|
  {
    if ops == [] then b else RunOps(cfg, Apply(cfg, b, ops[0]), ops[1..])
  }

  function Initializations(ops: seq<Op>): nat
    decreases |ops|
  {
    if ops == [] then 0 else (if ops[0].Initialize? then 1 else 0) + Initializations(ops[1..])
  }

  /** The events a run added to the log. */
  function Added(b: Build, r: Build): seq<Event>
    requires |b.events| <= |r.events|
  {
    r.events[|b.events|..]
  }

  /** 1 while the structure may still provision, 0 once it has. */
  function Pending(b: Build): nat { if b.provisioned then 0 else 1 }

  /** What may happen between states `b` and `r` when `inits` of the calls in
      between are `OnInitialize`: the log only grows; each increment of the
      limit uses up a pending provision, and only an initialisation makes one
      pending again; a non-provisioner never increments; the started flag is
      never cleared, and the start of construction (the material restore, and
      the animator state when there is an animator) is logged exactly when it
      rises; the limit moves exactly by the logged amounts. */
  ghost predicate Tracks(cfg: Config, b: Build, r: Build, inits: nat)
  {
    |b.events| <= |r.events| && r.events[..|b.events|] == b.events &&
    CountIf(Added(b, r), IsIncrement) + Pending(r) <= Pending(b) + inits &&
    (!cfg.provisioner ==> CountIf(Added(b, r), IsIncrement) == 0) &&
    (b.constructionStarted ==> r.constructionStarted) &&
    CountIf(Added(b, r), IsRestoration) == (if r.constructionStarted && !b.constructionStarted then 1 else 0) &&
    CountIf(Added(b, r), IsAnimation) == (if cfg.hasAnimator && r.constructionStarted && !b.constructionStarted then 1 else 0) &&
    r.limit == b.limit + NetLimit(Added(b, r))
  }

  /** A step that appends `es` to the log. */
  lemma TracksAppend(cfg: Config, b: Build, r: Build, es: seq<Event>, inits: nat)
    requires r.events == b.events + es
    requires CountIf(es, IsIncrement) + Pending(r) <= Pending(b) + inits
    requires !cfg.provisioner ==> CountIf(es, IsIncrement) == 0
    requires b.constructionStarted ==> r.constructionStarted
    requires CountIf(es, IsRestoration) == (if r.constructionStarted && !b.constructionStarted then 1 else 0)
    requires CountIf(es, IsAnimation) == (if cfg.hasAnimator && r.constructionStarted && !b.constructionStarted then 1 else 0)
    requires r.limit == b.limit + NetLimit(es)
    ensures Tracks(cfg, b, r, inits)
  {
    assert Added(b, r) == es;
    assert r.events[..|b.events|] == b.events;
  }

  lemma TracksCompose(cfg: Config, a: Build, b: Build, c: Build, i: nat, j: nat)
    requires Tracks(cfg, a, b, i) && Tracks(cfg, b, c, j)
    ensures Tracks(cfg, a, c, i + j)
  {
    assert c.events[..|b.events|] == b.events;
    assert c.events[..|a.events|] == c.events[..|b.events|][..|a.events|];
    assert Added(a, b) == c.events[|a.events|..|b.events|];
    assert Added(b, c) == c.events[|b.events|..];
    assert Added(a, c) == Added(a, b) + Added(b, c);
    CountIfAppend(Added(a, b), Added(b, c), IsIncrement);
    CountIfAppend(Added(a, b), Added(b, c), IsRestoration);
    CountIfAppend(Added(a, b), Added(b, c), IsAnimation);
    NetLimitAppend(Added(a, b), Added(b, c));
  }

  lemma ProvisionedTracks(cfg: Config, b: Build)
    ensures Tracks(cfg, b, Provisioned(cfg, b), 0)
  {
    var r := Provisioned(cfg, b);
    TracksAppend(cfg, b, r, r.events[|b.events|..], 0);
  }

  lemma StartEventsCount(cfg: Config)
    ensures CountIf(StartEvents(cfg), IsRestoration) == 1
    ensures CountIf(StartEvents(cfg), IsAnimation) == if cfg.hasAnimator then 1 else 0
    ensures CountIf(StartEvents(cfg), IsIncrement) == 0
    ensures NetLimit(StartEvents(cfg)) == 0
  {
    var a := if cfg.hasAnimator then [AnimatorBuilding] else [];
    CountIfAppend(a, [MaterialRestored], IsRestoration);
    CountIfAppend(a, [MaterialRestored], IsAnimation);
    CountIfAppend(a, [MaterialRestored], IsIncrement);
    NetLimitAppend(a, [MaterialRestored]);
  }

  lemma ConstructedTracks(cfg: Config, b: Build, amount: int)
    ensures Tracks(cfg, b, Constructed(cfg, b, amount), 0)
  {
    var b1 := BeginConstruction(cfg, b);
    if b.needsConstruction && !b.constructionStarted {
      StartEventsCount(cfg);
      TracksAppend(cfg, b, b1, StartEvents(cfg), 0);
    } else {
      TracksAppend(cfg, b, b1, [], 0);
    }
    var r := Constructed(cfg, b, amount);
    if b1.health + amount >= cfg.baseHealth {
      var b2 := b1.(health := cfg.baseHealth, needsConstruction := false, isCasting := false,
                    events := b1.events + [TeamColorSet]);
      TracksAppend(cfg, b1, b2, [TeamColorSet], 0);
      ProvisionedTracks(cfg, b2);
      TracksCompose(cfg, b1, b2, r, 0, 0);
    } else {
      TracksAppend(cfg, b1, r, [], 0);
    }
    TracksCompose(cfg, b, b1, r, 0, 0);
  }

  lemma DeactivatedTracks(cfg: Config, b: Build)
    ensures Tracks(cfg, b, Deactivated(cfg, b), 0)
  {
    var dec := if cfg.provisioner then [LimitDecremented(cfg.provisionAmount)] else [];
    var b1 := b.(limit := b.limit - (if cfg.provisioner then cfg.provisionAmount else 0), events := b.events + dec);
    var r := Deactivated(cfg, b);
    TracksAppend(cfg, b, b1, dec, 0);
    TracksAppend(cfg, b1, r, [Unbuilt], 0);
    TracksCompose(cfg, b, b1, r, 0, 0);
  }

  lemma SimulatedTracks(cfg: Config, b: Build)
    ensures Tracks(cfg, b, Simulated(cfg, b), 0)
  {
    var fires := b.health == cfg.maxHealth && cfg.provisioner && !b.provisioned;
    var es := if fires then [LimitIncremented(cfg.provisionAmount)] else [];
    TracksAppend(cfg, b, Simulated(cfg, b), es, 0);
  }

  lemma AwaitedTracks(cfg: Config, b: Build)
    ensures Tracks(cfg, b, Awaited(cfg, b), 0)
  {
    TracksAppend(cfg, b, Awaited(cfg, b), if cfg.hasRally then [SpawnPointSet] else [], 0);
  }

  lemma LoadTracks(cfg: Config, b: Build, p: Property)
    ensures Tracks(cfg, b, Apply(cfg, b, Load(p)), 0)
  {
    var r := Apply(cfg, b, Load(p));
    if p.name == PlayingAreaName && p.value.RectValue? {
      TracksAppend(cfg, b, r, [PlayingAreaSet(p.value.r)], 0);
    } else {
      TracksAppend(cfg, b, r, [], 0);
    }
  }

  /** One call keeps `Tracks`, counting itself when it is `OnInitialize`. */
  lemma ApplyTracks(cfg: Config, b: Build, op: Op)
    ensures Tracks(cfg, b, Apply(cfg, b, op), if op.Initialize? then 1 else 0)
  {
    match op
    case Initialize => TracksAppend(cfg, b, Initialized(b), [], 1);
    case Simulate => SimulatedTracks(cfg, b);
    case Await => AwaitedTracks(cfg, b);
    case Construct(amount) => ConstructedTracks(cfg, b, amount);
    case Deactivate => DeactivatedTracks(cfg, b);
    case Load(p) => LoadTracks(cfg, b, p);
  }

  /** Over any sequence of calls: the limit is incremented at most once per
      lifetime (one more time for each `OnInitialize`, none if already
      provisioned, never for a non-provisioner); the start of construction is
      logged at most once and exactly when the started flag rises, and that
      flag is never cleared; the limit changes only by the logged amounts. */
  lemma {:induction false} RunTracks(cfg: Config, b: Build, ops: seq<Op>)
    ensures Tracks(cfg, b, RunOps(cfg, b, ops), Initializations(ops))
    decreases |ops|
  {
    if ops == [] {
      TracksAppend(cfg, b, b, [], 0);
    } else {
      var b1 := Apply(cfg, b, ops[0]);
      ApplyTracks(cfg, b, ops[0]);
      RunTracks(cfg, b1, ops[1..]);
      TracksCompose(cfg, b, b1, RunOps(cfg, b, ops), if ops[0].Initialize? then 1 else 0, Initializations(ops[1..]));
    }
  }

  /** Within one lifetime (no `OnInitialize`), the limit is incremented at most
      once, and not at all if the structure had already provisioned. */
  lemma ProvisionsAtMostOnce(cfg: Config, b: Build, ops: seq<Op>)
    requires forall i :: 0 <= i < |ops| ==> !ops[i].Initialize?
    ensures var r := RunOps(cfg, b, ops);
            |b.events| <= |r.events| && CountIf(Added(b, r), IsIncrement) <= Pending(b)
  {
    RunTracks(cfg, b, ops);
    NoInitializations(ops);
  }

  lemma {:induction false} NoInitializations(ops: seq<Op>)
    requires forall i :: 0 <= i < |ops| ==> !ops[i].Initialize?
    ensures Initializations(ops) == 0
    decreases |ops|
  {
    if ops != [] {
      NoInitializations(ops[1..]);
    }
  }

  /** `Construct` calls one after another. */
  function ConstructAll(cfg: Config, b: Build, amounts: seq<int>): Build
    decreases |amounts|
  {
    if amounts == [] then b else ConstructAll(cfg, Constructed(cfg, b, amounts[0]), amounts[1..])
  }

  /** At least one `Construct` with non-negative amounts: health is the start
      plus the total, capped at the base health, and construction is complete
      exactly when that total reaches it. */
  lemma {:induction false} ConstructAllReachesBase(cfg: Config, b: Build, amounts: seq<int>)
    requires |amounts| >= 1
    requires forall i :: 0 <= i < |amounts| ==> amounts[i] >= 0
    ensures var r := ConstructAll(cfg, b, amounts);
            var done := b.health + Sum(amounts) >= cfg.baseHealth;
            r.health == Min(b.health + Sum(amounts), cfg.baseHealth) &&
            r.needsConstruction == (b.needsConstruction && !done) &&
            r.isCasting == (b.isCasting && !done)
    decreases |amounts|
  {
    var b1 := Constructed(cfg, b, amounts[0]);
    if |amounts| > 1 {
      ConstructAllReachesBase(cfg, b1, amounts[1..]);
      SumNonNegative(amounts[1..]);
    }
  }

  /** Awaiting construction and then building with non-negative amounts whose
      total reaches the base health leaves health at exactly the base health and
      the structure built. */
  lemma AwaitThenBuild(cfg: Config, b: Build, amounts: seq<int>)
    requires |amounts| >= 1
    requires forall i :: 0 <= i < |amounts| ==> amounts[i] >= 0
    requires Sum(amounts) >= cfg.baseHealth
    ensures var r := ConstructAll(cfg, Awaited(cfg, b), amounts);
            r.health == cfg.baseHealth && !r.needsConstruction && !r.isCasting
  {
    ConstructAllReachesBase(cfg, Awaited(cfg, b), amounts);
  }

  /** The started flag outlives construction: a `Construct` call that completes
      construction leaves `ConstructionStarted` set and `NeedsConstruction` clear. */
  lemma StartedOutlivesConstruction(cfg: Config, b: Build, amount: int)
    requires b.needsConstruction && cfg.baseHealth <= b.health + amount
    ensures var r := Constructed(cfg, b, amount);
            r.constructionStarted && !r.needsConstruction
  {
  }

  /** A provisioner that never provisioned still lowers the limit when deactivated. */
  lemma DeactivateWithoutProvisioning(cfg: Config, b: Build)
    requires cfg.provisioner && !b.provisioned
    ensures Deactivated(cfg, b).limit == b.limit - cfg.provisionAmount
  {
  }

  // ---------------------------------------------------------------------------
  // The objects.

  /** The agent's health ability, as far as the structure uses it. */
  class Health {
    var HealthAmount: int
    const BaseHealth: int
    const MaxHealth: int

    constructor (amount: int, baseHealth: int, maxHealth: int)
      ensures HealthAmount == amount && BaseHealth == baseHealth && MaxHealth == maxHealth
    {
      HealthAmount := amount;
      BaseHealth := baseHealth;
      MaxHealth := maxHealth;
    }
  }

  /** The commander's resource manager, as far as provisioning uses it. */
  class ResourceManager {
    var provisionLimit: int

    constructor (limit: int)
      ensures provisionLimit == limit
    {
      provisionLimit := limit;
    }
  }

  class Structure {
    const provisioner: bool
    const provisionAmount: int
    const resourceStorage: array<ResourceType>
    /** The agent's other abilities and collaborators. */
    const health: Health
    const commander: ResourceManager
    const hasAnimator: bool
    const hasRally: bool

    var ConstructionStarted: bool
    var NeedsConstruction: bool
    var needsRepair: bool
    var provisioned: bool
    var IsCasting: bool
    /** The agent's playing area, read and written through the agent. */
    var playingArea: Rect
    ghost var events: seq<Event>

    function Settings(): Config
    {
      Config(provisioner, provisionAmount, health.BaseHealth, health.MaxHealth, hasAnimator, hasRally)
    }

    ghost function State(): Build
      reads this, health, commander
    {
      Build(NeedsConstruction, ConstructionStarted, needsRepair, provisioned, IsCasting,
            health.HealthAmount, commander.provisionLimit, playingArea, events)
    }

    constructor (provisioner: bool, provisionAmount: int, resourceStorage: array<ResourceType>,
                 health: Health, commander: ResourceManager, hasAnimator: bool, hasRally: bool,
                 playingArea: Rect)
      ensures this.provisioner == provisioner && this.provisionAmount == provisionAmount
      ensures this.resourceStorage == resourceStorage && this.health == health && this.commander == commander
      ensures this.hasAnimator == hasAnimator && this.hasRally == hasRally
      ensures State() == Build(false, false, false, false, false,
                               health.HealthAmount, commander.provisionLimit, playingArea, [])
    {
      this.provisioner := provisioner;
      this.provisionAmount := provisionAmount;
      this.resourceStorage := resourceStorage;
      this.health := health;
      this.commander := commander;
      this.hasAnimator := hasAnimator;
      this.hasRally := hasRally;
      this.playingArea := playingArea;
      ConstructionStarted, NeedsConstruction, needsRepair, provisioned, IsCasting := false, false, false, false, false;
      events := [];
    }

    method OnInitialize()
      modifies this
      ensures State() == Initialized(old(State()))
    {
      NeedsConstruction := false;
      needsRepair := false;
      provisioned := false;
    }

    method OnSimulate()
      modifies this, commander
      ensures State() == Simulated(Settings(), old(State()))
    {
      if !NeedsConstruction && health.HealthAmount != health.MaxHealth {
        needsRepair := true;
      }
      if health.HealthAmount == health.MaxHealth {
        if provisioner && !provisioned {
          provisioned := true;
          commander.provisionLimit := commander.provisionLimit + provisionAmount;
          events := events + [LimitIncremented(provisionAmount)];
        }
      }
    }

    method AwaitConstruction()
      modifies this, health
      ensures State() == Awaited(Settings(), old(State()))
    {
      NeedsConstruction := true;
      IsCasting := true;
      health.HealthAmount := 0;
      if hasRally {
        events := events + [SpawnPointSet];
      }
    }

    method Construct(amount: int)
      modifies this, health, commander
      ensures State() == Constructed(Settings(), old(State()), amount)
    {
      if NeedsConstruction && !ConstructionStarted {
        if hasAnimator {
          events := events + [AnimatorBuilding];
        }
        ConstructionStarted := true;
        events := events + [MaterialRestored];
      }
      health.HealthAmount := health.HealthAmount + amount;
      if health.HealthAmount >= health.BaseHealth {
        health.HealthAmount := health.BaseHealth;
        NeedsConstruction := false;
        IsCasting := false;
        events := events + [TeamColorSet];
        if provisioner && !provisioned {
          provisioned := true;
          commander.provisionLimit := commander.provisionLimit + provisionAmount;
          events := events + [LimitIncremented(provisionAmount)];
        }
      }
    }

    /** A linear search of the storage list. */
    method CanStoreResources(resourceType: ResourceType) returns (r: bool)
      ensures r <==> exists i :: 0 <= i < resourceStorage.Length && resourceStorage[i] == resourceType
    {
      if resourceStorage.Length > 0 {
        for i := 0 to resourceStorage.Length
          invariant forall j :: 0 <= j < i ==> resourceStorage[j] != resourceType
        {
          if resourceStorage[i] == resourceType {
            return true;
          }
        }
        return false;
      }
      return false;
    }

    method OnDeactivate()
      modifies this, commander
      ensures State() == Deactivated(Settings(), old(State()))
    {
      if provisioner {
        commander.provisionLimit := commander.provisionLimit - provisionAmount;
        events := events + [LimitDecremented(provisionAmount)];
      }
      events := events + [Unbuilt];
    }

    /** `OnSaveDetails`: writes `SaveStructure` of the flags and playing area,
        which `SaveLoadRoundTrip` loads back onto any structure; loaded back onto
        this one, it restores the state and only logs the playing area once more. */
    method OnSaveDetails() returns (props: seq<Property>)
      ensures props == SaveStructure(NeedsConstruction, needsRepair, playingArea)
      ensures LoadAll(LoadStructure, State(), props) ==
              Some(State().(events := events + if NeedsConstruction then [PlayingAreaSet(playingArea)] else []))
    {
      props := SaveStructure(NeedsConstruction, needsRepair, playingArea);
      SaveLoadRoundTrip(NeedsConstruction, needsRepair, playingArea, State());
    }

    /** `ok` is false when the value under a known name has the wrong type; then nothing changes. */
    method HandleLoadedProperty(name: string, value: Value) returns (ok: bool)
      modifies this
      ensures var r := LoadStructure(old(State()), Property(name, value));
              ok == r.Some? && State() == if ok then r.value else old(State())
    {
      ok := true;
      match name {
        case "NeedsBuilding" =>
          if value.BoolValue? { NeedsConstruction := value.b; } else { ok := false; }
        case "NeedsRepair" =>
          if value.BoolValue? { needsRepair := value.b; } else { ok := false; }
        case "PlayingArea" =>
          if value.RectValue? {
            playingArea := value.r;
            events := events + [PlayingAreaSet(value.r)];
          } else { ok := false; }
        case _ =>
      }
    }
  }

  /** Base health 500: awaiting construction, then building by 200 and by 400,
      leaves health at 500, the structure built and the limit raised once for a
      provisioner. */
  method BuildScenario(provisioner: bool) returns (healthAfter: int, needsConstruction: bool, limitRaise: int)
    ensures healthAfter == 500 && !needsConstruction
    ensures limitRaise == if provisioner then 10 else 0
  {
    var storage := new ResourceType[0];
    var health := new Health(500, 500, 500);
    var commander := new ResourceManager(0);
    var s := new Structure(provisioner, 10, storage, health, commander, true, false, Rect(0, 0, 1, 1));
    s.OnInitialize();
    s.AwaitConstruction();
    s.Construct(200);
    s.Construct(400);
    healthAfter, needsConstruction, limitRaise := health.HealthAmount, s.NeedsConstruction, commander.provisionLimit;
  }
}
