# Lockstep RTS simulation: three per-entity state machines

This project models three abilities of a deterministic lockstep real-time
strategy engine. Every peer runs the same ticks, so each ability must reach
the same state from the same inputs.

- **Decision throttle** (`DeterminismAI`, module `Decisions`). Each agent keeps
  an integer countdown `searchCount`. Every tick it is updated by one of three
  rules: casting, moving or idle. An idle tick whose countdown runs out resets
  it to `SearchRate` and makes the agent decide. Deciding replaces the
  remembered `nearbyAgent` with the result of an influence scan.
- **Structure** (module `Construction`). A building waits for construction,
  gains health through `Construct`, and raises the commander's provision limit
  once it is complete. It lowers that limit again when it is deactivated. It
  also flags itself for repair and answers whether it can store a resource type.
- **Resource deposit** (module `Resources`). A node starts full at `Capacity`.
  `Remove` subtracts from `AmountLeft` and clamps the result at zero.

Each ability is a Dafny class whose fields the methods update in place. Each
state-changing method is proved equal to a pure specification function of the
old state (`Step`, `Constructed`, `Removed`, …). Lemmas about those functions
carry the properties: edge-triggered start, provisioning at most once, clamping,
determinism of the decision sequence and save/load round trips. Module
`Persistence` models the save writer and load reader as a list of
`(name, value)` pairs, which the loader hands to the ability one at a time.
Module `Amounts` holds the integer helpers `Min`, `Max` and `Sum`.

Collaborator calls are recorded as events in a ghost log on the structure:
the animator, the material restore, the team colour, the rally point, the
resource-limit increment and decrement, the grid unbuild and the playing area.
The commander's resource manager is a small class holding the provision limit.
The influence scan's result and the random draw are method parameters.

Where the code differs from what a reader might expect, the model follows the code:

- `ConstructionStarted` is never cleared. A finished structure has it set while
  `NeedsConstruction` is clear (`StartedOutlivesConstruction`).
- `OnDeactivate` lowers the provision limit whenever the structure is a
  provisioner, even if it never provisioned (`DeactivateWithoutProvisioning`).
- A moving tick never produces a decision, even when its countdown falls to
  zero or below.
- `IsEmpty` is `AmountLeft <= 0`, not `== 0`. `AmountLeft` can only be
  negative after a load, or after `OnInitialize` with a negative `Capacity`.
- `searchCount` is a C# `int` with unchecked arithmetic. The model wraps it at
  32 bits (`Wrap32`). A long run of moving ticks therefore wraps the count
  round to near the largest `int`. From `int.MinValue + 7` it lands exactly on
  `int.MaxValue` (`MovingWrapsAround`); from the other counts just above
  `int.MinValue` it lands within 7 of it.

## Model

| member | source | states |
|---|---|---|
| Decisions.Wrap32 | Assets/Core/Simulation/Influence/AI/DeterminismAI.cs:14 | the 32-bit wrap of `int` arithmetic lands in the `int` range and leaves in-range values unchanged |
| Decisions.ActivityOf | Assets/Core/Simulation/Influence/AI/DeterminismAI.cs:49-59 | casting takes precedence over moving; a tick is idle exactly when the agent is neither casting nor moving |
| Decisions.Step | Assets/Core/Simulation/Influence/AI/DeterminismAI.cs:47-75 | casting sets the count to -1 and does not decide; moving subtracts 8 and never decides; an idle tick decides iff count - 2 <= 0, and a decision sets the count to exactly `SearchRate`; an idle tick without a decision subtracts 3 in all and leaves the count >= 0 |
| Decisions.Run | Assets/Core/Simulation/Influence/AI/DeterminismAI.cs:47-75 | a run of ticks gives one decision per tick and a count that stays in the `int` range |
| Decisions.RunAppend | Assets/Core/Simulation/Influence/AI/DeterminismAI.cs:47-75 | running two tick sequences one after the other is the same as running them joined; earlier decisions do not depend on later ticks |
| Decisions.RunSnoc | Assets/Core/Simulation/Influence/AI/DeterminismAI.cs:47-75 | one more tick appends exactly that tick's decision and count |
| Decisions.DecidesOnlyWhenIdle | Assets/Core/Simulation/Influence/AI/DeterminismAI.cs:49-58 | in any run, every tick that decides is an idle tick |
| Decisions.CastingThenIdleDecides | Assets/Core/Simulation/Influence/AI/DeterminismAI.cs:49-66 | an idle tick right after a casting tick always decides |
| Decisions.IdleDecidesAfterDelay | Assets/Core/Simulation/Influence/AI/DeterminismAI.cs:59-74 | from any count above `int.MinValue + 1`, an idle agent decides on exactly its `IdleDelay(count)`-th idle tick and on none before it, and then holds `SearchRate` |
| Decisions.MovingWrapsAround | Assets/Core/Simulation/Influence/AI/DeterminismAI.cs:54-57 | a moving tick at count `int.MinValue + 7` wraps to `int.MaxValue`, which delays the next idle decision by 715,827,883 ticks |
| Decisions.LoadSearchCount | Assets/Core/Simulation/Influence/AI/DeterminismAI.cs:136-144 | loading `SearchCount` sets the count to an `int` value, fails on a value of another type, and ignores every other name |
| Decisions.SearchCountRoundTrip | Assets/Core/Simulation/Influence/AI/DeterminismAI.cs:131-144 | saving a count and loading it back, among other names, restores exactly that count |
| Decisions.DeterminismAI.constructor | Assets/Core/Simulation/Influence/AI/DeterminismAI.cs:13-17 | `SearchRate` is half the frame rate; no nearby agent is remembered |
| Decisions.DeterminismAI.OnInitialize | Assets/Core/Simulation/Influence/AI/DeterminismAI.cs:29-32 | the initial count is the random draw plus one, so it lies in `[1, SearchRate]` |
| Decisions.DeterminismAI.ShouldMakeDecision | Assets/Core/Simulation/Influence/AI/DeterminismAI.cs:47-75 | the new count and the answer are the ones `Step` gives for the old count and the agent's state; the tick and decision are appended to the agent's history |
| Decisions.DeterminismAI.DoScan | Assets/Core/Simulation/Influence/AI/DeterminismAI.cs:83-119 | with no agent predicate (the default) the scan finds nothing; otherwise it returns the influence scan's result |
| Decisions.DeterminismAI.DecideWhatToDo | Assets/Core/Simulation/Influence/AI/DeterminismAI.cs:77-81 | the remembered nearby agent is always overwritten with the scan result |
| Decisions.DeterminismAI.ResetAwareness | Assets/Core/Simulation/Influence/AI/DeterminismAI.cs:121-124 | the remembered nearby agent is cleared |
| Decisions.DeterminismAI.OnSimulate | Assets/Core/Simulation/Influence/AI/DeterminismAI.cs:34-40 | a tick is taken; the nearby agent is replaced by the scan exactly when the tick decides, and is otherwise left alone |
| Decisions.DeterminismAI.OnSaveDetails | Assets/Core/Simulation/Influence/AI/DeterminismAI.cs:131-134 | writes `SaveSearchCount` of the count, which `SearchCountRoundTrip` loads back from any prior count; what is written loads back as the current count |
| Decisions.DeterminismAI.HandleLoadedProperty | Assets/Core/Simulation/Influence/AI/DeterminismAI.cs:136-144 | the field changes as `LoadSearchCount` says; a failed cast changes nothing |
| Decisions.SameHistorySameDecisions | Assets/Core/Simulation/Influence/AI/DeterminismAI.cs:47-75 | two agents with the same starting count and the same sequence of casting, moving and idle ticks make the same decisions and end with the same count |
| Persistence.LoadAllAppend | Assets/Core/Game/Abilities/Essential/Structure.cs:171-187 | loading a joined list of properties is loading the first part, then the second |
| Persistence.LoadAllUnknown | Assets/Core/Game/Abilities/Essential/Structure.cs:171-187 | properties whose names the ability does not know change nothing and never fail |
| Construction.Provisioned | Assets/Core/Game/Abilities/Essential/Structure.cs:111-115 | a provisioner that has not yet provisioned raises the limit by `provisionAmount` once and becomes provisioned; otherwise nothing changes |
| Construction.Initialized | Assets/Core/Game/Abilities/Essential/Structure.cs:55-60 | the construction, repair and provisioned flags are cleared; `ConstructionStarted` is kept |
| Construction.Simulated | Assets/Core/Game/Abilities/Essential/Structure.cs:62-77 | a built, damaged structure gets the repair flag, which is never cleared here; at full health a pending provisioner raises the limit once |
| Construction.Awaited | Assets/Core/Game/Abilities/Essential/Structure.cs:79-89 | construction is needed, the structure is casting, health is 0, and the rally point is set when there is one |
| Construction.Constructed | Assets/Core/Game/Abilities/Essential/Structure.cs:91-117 | health becomes min(old + amount, base health); the started flag rises only when construction is needed and is never cleared; reaching base health clears the need and casting, and provisions once |
| Construction.Deactivated | Assets/Core/Game/Abilities/Essential/Structure.cs:150-158 | a provisioner lowers the limit by `provisionAmount` whether or not it provisioned; the structure is always unbuilt; nothing else changes |
| Construction.SaveStructure | Assets/Core/Game/Abilities/Essential/Structure.cs:160-169 | `NeedsBuilding` and `NeedsRepair` are written, then `PlayingArea` only while construction is needed |
| Construction.LoadStructure | Assets/Core/Game/Abilities/Essential/Structure.cs:171-187 | a known name fails exactly when its value has the wrong type; a successful load sets the named field (and logs the playing area) and changes nothing else; unknown names are ignored |
| Construction.SaveLoadRoundTrip | Assets/Core/Game/Abilities/Essential/Structure.cs:160-187 | loading what was saved restores both flags, and the playing area when it was written; nothing else changes |
| Construction.LoadIgnoresUnknown | Assets/Core/Game/Abilities/Essential/Structure.cs:171-187 | a load of unknown names leaves the structure as it was |
| Construction.ApplyTracks | Assets/Core/Game/Abilities/Essential/Structure.cs:55-187 | each lifecycle call keeps the provisioning, started-flag and limit bookkeeping of `Tracks` |
| Construction.RunTracks | Assets/Core/Game/Abilities/Essential/Structure.cs:55-187 | over any sequence of calls: the limit rises at most once per initialisation, never for a non-provisioner; the material restore, and the animator state when there is an animator, are logged exactly once when the started flag rises and never otherwise, and that flag is never cleared; the limit moves only by the logged amounts |
| Construction.ProvisionsAtMostOnce | Assets/Core/Game/Abilities/Essential/Structure.cs:62-117 | within one lifetime, `OnSimulate` and `Construct` together raise the limit at most once, and not at all once provisioned |
| Construction.ConstructAllReachesBase | Assets/Core/Game/Abilities/Essential/Structure.cs:104-110 | after non-negative `Construct` amounts, health is the start plus the total, capped at base health, and construction is complete exactly when that total reaches it |
| Construction.AwaitThenBuild | Assets/Core/Game/Abilities/Essential/Structure.cs:79-117 | awaiting construction and then building by amounts totalling at least base health leaves health at exactly base health and the structure built |
| Construction.StartedOutlivesConstruction | Assets/Core/Game/Abilities/Essential/Structure.cs:93-110 | any `Construct(amount)` call that completes a structure needing construction leaves `ConstructionStarted` set and `NeedsConstruction` clear |
| Construction.DeactivateWithoutProvisioning | Assets/Core/Game/Abilities/Essential/Structure.cs:150-155 | a provisioner that never provisioned still lowers the limit when deactivated |
| Construction.Structure.constructor | Assets/Core/Game/Abilities/Essential/Structure.cs:12-45 | all flags start false and the event log is empty |
| Construction.Structure.OnInitialize | Assets/Core/Game/Abilities/Essential/Structure.cs:55-60 | the new state is `Initialized` of the old one |
| Construction.Structure.OnSimulate | Assets/Core/Game/Abilities/Essential/Structure.cs:62-77 | the new state, including the commander's limit, is `Simulated` of the old one |
| Construction.Structure.AwaitConstruction | Assets/Core/Game/Abilities/Essential/Structure.cs:79-89 | the new state, including the health amount, is `Awaited` of the old one |
| Construction.Structure.Construct | Assets/Core/Game/Abilities/Essential/Structure.cs:91-117 | the new state, including health and the limit, is `Constructed` of the old one |
| Construction.Structure.CanStoreResources | Assets/Core/Game/Abilities/Essential/Structure.cs:124-142 | true iff the type occurs in the storage array, so an empty array gives false |
| Construction.Structure.OnDeactivate | Assets/Core/Game/Abilities/Essential/Structure.cs:150-158 | the new state, including the limit, is `Deactivated` of the old one |
| Construction.Structure.OnSaveDetails | Assets/Core/Game/Abilities/Essential/Structure.cs:160-169 | writes `SaveStructure` of its flags and playing area (`NeedsBuilding`, `NeedsRepair`, then `PlayingArea` only while construction is needed), which `SaveLoadRoundTrip` loads back onto any structure; loaded back onto this one it restores the state and changes nothing but the log of playing-area calls |
| Construction.Structure.HandleLoadedProperty | Assets/Core/Game/Abilities/Essential/Structure.cs:171-187 | the state changes as `LoadStructure` says; a failed cast changes nothing |
| Construction.BuildScenario | Assets/Core/Game/Abilities/Essential/Structure.cs:79-117 | base health 500: await, then `Construct(200)` and `Construct(400)`, leaves health 500, construction done, and the limit raised once exactly for a provisioner |
| Resources.Removed | Assets/Core/Game/Abilities/Essential/ResourceDeposit.cs:52-60 | the amount after a removal is never negative, is at least old minus amount, and is either 0 or old minus amount |
| Resources.RemovedIsClampedDifference | Assets/Core/Game/Abilities/Essential/ResourceDeposit.cs:52-60 | a removal leaves max(0, old - amount) |
| Resources.RemoveKeepsBounds | Assets/Core/Game/Abilities/Essential/ResourceDeposit.cs:55-59 | a non-negative removal never raises the amount and keeps it in `[0, Capacity]` |
| Resources.EmptyStaysEmpty | Assets/Core/Game/Abilities/Essential/ResourceDeposit.cs:52-65 | once `AmountLeft <= 0`, a non-negative removal leaves exactly 0, which is still empty |
| Resources.RemoveAllIsClampedTotal | Assets/Core/Game/Abilities/Essential/ResourceDeposit.cs:52-60 | non-negative removals from a non-negative amount leave max(0, start - total), whatever their order |
| Resources.EmptyIsFinal | Assets/Core/Game/Abilities/Essential/ResourceDeposit.cs:52-65 | once some prefix of non-negative removals empties the node, the whole sequence leaves it empty |
| Resources.EmptyRemovesToZero | Assets/Core/Game/Abilities/Essential/ResourceDeposit.cs:52-65 | non-negative removals from an empty node leave it empty |
| Resources.LoadDeposit | Assets/Core/Game/Abilities/Essential/ResourceDeposit.cs:73-84 | loading `AmountLeft` sets the amount to a numeric value, fails on any other value, and ignores other names |
| Resources.DepositRoundTrip | Assets/Core/Game/Abilities/Essential/ResourceDeposit.cs:67-84 | saving an amount and loading it back, among other names, restores exactly that amount |
| Resources.ResourceDeposit.constructor | Assets/Core/Game/Abilities/Essential/ResourceDeposit.cs:8-12 | the capacity is set and `AmountLeft` holds its default 0 |
| Resources.ResourceDeposit.OnInitialize | Assets/Core/Game/Abilities/Essential/ResourceDeposit.cs:18-21 | after initialisation `AmountLeft == Capacity` |
| Resources.ResourceDeposit.Remove | Assets/Core/Game/Abilities/Essential/ResourceDeposit.cs:52-60 | the new amount is `Removed` of the old one and the amount removed |
| Resources.ResourceDeposit.IsEmpty | Assets/Core/Game/Abilities/Essential/ResourceDeposit.cs:62-65 | true iff `AmountLeft <= 0` |
| Resources.ResourceDeposit.OnSaveDetails | Assets/Core/Game/Abilities/Essential/ResourceDeposit.cs:67-71 | writes `SaveDeposit` of the amount, which `DepositRoundTrip` loads back from any prior amount; what is written loads back as the current amount |
| Resources.ResourceDeposit.HandleLoadedProperty | Assets/Core/Game/Abilities/Essential/ResourceDeposit.cs:73-84 | the amount changes as `LoadDeposit` says; a failed cast changes nothing |
| Resources.DepletionScenario | Assets/Core/Game/Abilities/Essential/ResourceDeposit.cs:18-65 | capacity 1000: initialise, `Remove(300)`, `Remove(800)` leaves 0 and `IsEmpty()` true |

## Left out

- `ResourceDeposit.OnVisualize`: float ratio thresholds, renderer toggling and `Agent.Die` are presentation and floating point.
- Fixed-point `long` amounts (health, `AmountLeft`, construction amounts) are unbounded integers. 64-bit overflow of `HealthAmount += amount` and `AmountLeft -= amount` is not modelled. `FixedMath` is not part of this model.
- `AmountLeft` is written with a float writer and read back as `long`. The model writes and reads an integer and does not model the float encoding.
- `InfluenceManager.Scan` is not part of this model. Its result is a parameter of `DecideWhatToDo` and `OnSimulate`, and so are the agent's position, sight and alliance predicate. A concrete AI's agent predicate is reduced to whether it supplies one (`hasAgentConditional`).
- `LSUtility.GetRandom` is not part of this model. Its draw is a parameter of `OnInitialize`, bounded to `[0, SearchRate)`.
- `LockstepManager.FrameRate` is not part of this model. It is a constructor parameter, and `SearchRate` is half of it.
- `OnSetup` and `AgentValid` of the decision throttle: they only cache the agent and a predicate that always answers true.
- Engine calls (`Animator.SetState`, `ConstructionHandler.RestoreMaterial`, `SetTeamColor`, `Rally.SetSpawnPoint`, `GridBuilder.Unbuild`, `SetPlayingArea`) are events in a ghost log, not behaviour. `GetPlayerArea` reads a playing-area field kept on the structure.
- `PlayingArea` is read through `LoadManager.LoadRect(reader)`, not from the value handed in. The model takes the rectangle as the property's value.
- `Ability` (the base class's `SaveDetails` and `HandleLoadedProperty`) is not part of this model. The model keeps only the structure's and the deposit's own fields.
- `SetGridPosition`, `GetUpgradeLevel`, `WallSegmentGO`, `BuildSizeLow`/`High` and the placement flags (`IsValidOnGrid`, `IsMoving`, `IsOverlay`, `ValidPlacement`) have no behaviour in this core. `Vector2d.ToInt` is not part of this model.
- `TempStructure` is a property bag with no logic.
- Tick ordering across agents, the JSON framing of save files, and concurrency belong to the external tick driver and persistence layer.
