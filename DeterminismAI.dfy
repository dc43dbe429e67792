/** The per-agent decision throttle of the lockstep AI.
    Each tick the agent's `searchCount` is updated by one of three rules
    (casting, moving, idle); an idle tick whose count has run out resets the
    count to `SearchRate` and makes the agent decide, which replaces its
    remembered nearby agent with the result of an influence scan. */
module Decisions {
  import opened Persistence

  // ---------------------------------------------------------------------------
  // 32-bit integers. `searchCount` is a C# `int`, and C# arithmetic is
  // unchecked by default, so a subtraction past the smallest value wraps.

  const MinInt32: int := -0x8000_0000
  const MaxInt32: int := 0x7fff_ffff
  const TwoTo32: int := 0x1_0000_0000

  predicate IsInt32(x: int) {
    MinInt32 <= x <= MaxInt32
  }

  /** Two's-complement reduction of `x` into the 32-bit range. */
  function Wrap32(x: int): (r: int)
    ensures IsInt32(r)
    ensures IsInt32(x) ==> r == x
    ensures MinInt32 - TwoTo32 <= x < MinInt32 ==> r == x + TwoTo32
  {
    (x - MinInt32) % TwoTo32 + MinInt32
  }

  // ---------------------------------------------------------------------------
  // One tick of the throttle, as a function of the count and the agent's state.

  type AgentId = nat

  /** What the agent is doing on a tick, in the order the throttle tests it. */
  datatype Activity = Casting | Moving | Idle

  /** Casting takes precedence over moving. */
  function ActivityOf(isCasting: bool, isMoving: bool): (a: Activity)
    ensures a == Casting <==> isCasting
    ensures a == Moving <==> !isCasting && isMoving
    ensures a == Idle <==> !isCasting && !isMoving
  {
    if isCasting then Casting else if isMoving then Moving else Idle
  }

  /** The count after a tick, and whether the agent decides on that tick. */
  datatype Tick = Tick(count: int, decide: bool)

  /** One call of `ShouldMakeDecision`. */
  function Step(searchRate: int, count: int, a: Activity): (t: Tick)
    requires IsInt32(searchRate) && IsInt32(count)
    ensures IsInt32(t.count)
    // only an idle tick can decide, and a decision resets the count
    ensures t.decide ==> a == Idle && t.count == searchRate
    // casting suspends the count at the sentinel -1
    ensures a == Casting ==> t == Tick(-1, false)
    // moving postpones by 8, whatever the count, and never decides
    ensures a == Moving ==> !t.decide && t.count == Wrap32(count - 8)
    ensures a == Moving && count >= MinInt32 + 8 ==> t.count == count - 8
    // idle: due exactly when the count minus 2 has run out
    ensures a == Idle ==> (t.decide <==> Wrap32(count - 2) <= 0)
    ensures a == Idle && count >= MinInt32 + 2 ==> (t.decide <==> count <= 2)
    // idle and not due: 3 off in all, and the count stays non-negative
    ensures a == Idle && !t.decide ==> t.count == Wrap32(count - 2) - 1 >= 0
    ensures a == Idle && !t.decide && count >= MinInt32 + 2 ==> t.count == count - 3
  {
    match a
    case Casting => Tick(-1, false)
    case Moving => Tick(Wrap32(count - 8), false)
    case Idle =>
      var c := Wrap32(count - 2);
      if c <= 0 then Tick(searchRate, true) else Tick(c - 1, false)
  }

  /** The final count and the per-tick decisions of a run of ticks. */
  datatype Trace = Trace(count: int, decisions: seq<bool>)

  /** A sequence of ticks from a starting count: the decision sequence is a
      function of the starting count and the activities alone. */
  function Run(searchRate: int, count: int, acts: seq<Activity>): (r: Trace)
    requires IsInt32(searchRate) && IsInt32(count)
    ensures IsInt32(r.count)
    ensures |r.decisions| == |acts|
    decreases |acts|
  {
    if acts == [] then Trace(count, [])
    else
      var t := Step(searchRate, count, acts[0]);
      var rest := Run(searchRate, t.count, acts[1..]);
      Trace(rest.count, [t.decide] + rest.decisions)
  }

  /** Running `a` then `b` is running `a + b`: what happens during `a` does not
      depend on the ticks that follow it. */
  lemma {:induction false} RunAppend(searchRate: int, count: int, a: seq<Activity>, b: seq<Activity>)
    requires IsInt32(searchRate) && IsInt32(count)
    ensures var ra := Run(searchRate, count, a);
            var rb := Run(searchRate, ra.count, b);
            Run(searchRate, count, a + b) == Trace(rb.count, ra.decisions + rb.decisions)
    decreases |a|
  {
    if a == [] {
      assert a + b == b;
    } else {
      assert (a + b)[0] == a[0];
      assert (a + b)[1..] == a[1..] + b;
      var t := Step(searchRate, count, a[0]);
      RunAppend(searchRate, t.count, a[1..], b);
    }
  }

  /** One more tick at the end of a run. */
  lemma RunSnoc(searchRate: int, count: int, acts: seq<Activity>, a: Activity)
    requires IsInt32(searchRate) && IsInt32(count)
    ensures var r := Run(searchRate, count, acts);
            var t := Step(searchRate, r.count, a);
            Run(searchRate, count, acts + [a]) == Trace(t.count, r.decisions + [t.decide])
  {
    RunAppend(searchRate, count, acts, [a]);
  }

  /** Casting and moving ticks never decide. */
  lemma {:induction false} DecidesOnlyWhenIdle(searchRate: int, count: int, acts: seq<Activity>, i: nat)
    requires IsInt32(searchRate) && IsInt32(count)
    requires i < |acts| && Run(searchRate, count, acts).decisions[i]
    ensures acts[i] == Idle
    decreases |acts|
  {
    if i > 0 {
      DecidesOnlyWhenIdle(searchRate, Step(searchRate, count, acts[0]).count, acts[1..], i - 1);
    }
  }

  /** An idle tick right after a casting tick always decides: -1 - 2 <= 0. */
  lemma {:induction false} CastingThenIdleDecides(searchRate: int, count: int, acts: seq<Activity>, i: nat)
    requires IsInt32(searchRate) && IsInt32(count)
    requires i + 1 < |acts| && acts[i] == Casting && acts[i + 1] == Idle
    ensures Run(searchRate, count, acts).decisions[i + 1]
    decreases |acts|
  {
    if i > 0 {
      CastingThenIdleDecides(searchRate, Step(searchRate, count, acts[0]).count, acts[1..], i - 1);
    }
  }

  /** The number of idle ticks, from `count`, up to and including the next decision. */
  function IdleDelay(count: int): (n: nat)
  {
    if count <= 0 then 1 else count / 3 + 1
  }

  /** Without wrap-around, an idle agent decides on exactly its `IdleDelay(count)`-th
      idle tick and on none before, and it then holds `searchRate`: after a
      decision, an idle agent decides again every `IdleDelay(searchRate)` ticks. */
  lemma {:induction false} IdleDecidesAfterDelay(searchRate: int, count: int, acts: seq<Activity>)
    requires IsInt32(searchRate) && IsInt32(count) && count >= MinInt32 + 2
    requires |acts| == IdleDelay(count)
    requires forall i :: 0 <= i < |acts| ==> acts[i] == Idle
    ensures var r := Run(searchRate, count, acts);
            r.count == searchRate &&
            r.decisions[|acts| - 1] &&
            forall j :: 0 <= j < |acts| - 1 ==> !r.decisions[j]
    decreases |acts|
  {
    var t := Step(searchRate, count, acts[0]);
    if count <= 2 {
      assert t.decide;
      assert acts[1..] == [];
    } else {
      assert t.count == count - 3;
      assert IdleDelay(count - 3) == |acts| - 1;
      IdleDecidesAfterDelay(searchRate, t.count, acts[1..]);
    }
  }

  /** A moving tick just above the smallest count wraps to the largest one, after
      which the agent stays idle for about 700 million ticks before deciding. */
  lemma MovingWrapsAround(searchRate: int)
    requires IsInt32(searchRate)
    ensures Step(searchRate, MinInt32 + 7, Moving).count == MaxInt32
    ensures IdleDelay(MaxInt32) == 715_827_883
  {
  }

  // ---------------------------------------------------------------------------
  // Save and load of `SearchCount`.

  const SearchCountName: string := "SearchCount"

  /** What `OnSaveDetails` writes. */
  function SaveSearchCount(count: int): seq<Property>
  {
    [Property(SearchCountName, IntValue(count))]
  }

  /** One call of `HandleLoadedProperty` on a count; `None` is a failing `(int)` cast. */
  function LoadSearchCount(count: int, p: Property): (r: Option<int>)
    ensures p.name != SearchCountName ==> r == Some(count)
    ensures p.name == SearchCountName ==> (r.Some? <==> p.value.IntValue? && IsInt32(p.value.i))
    ensures p.name == SearchCountName && r.Some? ==> r.value == p.value.i
  {
    if p.name == SearchCountName then
      if p.value.IntValue? && IsInt32(p.value.i) then Some(p.value.i) else None
    else Some(count)
  }

  /** Saving a count and loading it back, among properties of other names on
      either side, restores exactly that count, whatever the count was before. */
  lemma SearchCountRoundTrip(before: seq<Property>, saved: int, after: seq<Property>, count: int)
    requires IsInt32(saved)
    requires forall i :: 0 <= i < |before| ==> before[i].name != SearchCountName
    requires forall i :: 0 <= i < |after| ==> after[i].name != SearchCountName
    ensures LoadAll(LoadSearchCount, count, before + SaveSearchCount(saved) + after) == Some(saved)
  {
    assert IgnoresOthers(LoadSearchCount, {SearchCountName});
    LoadAllUnknown(LoadSearchCount, {SearchCountName}, count, before);
    LoadAllUnknown(LoadSearchCount, {SearchCountName}, saved, after);
    LoadAllAppend(LoadSearchCount, saved, SaveSearchCount(saved), after);
    LoadAllAppend(LoadSearchCount, count, before, SaveSearchCount(saved) + after);
    assert before + SaveSearchCount(saved) + after == before + (SaveSearchCount(saved) + after);
  }

  // ---------------------------------------------------------------------------
  // The ability object.

  class DeterminismAI {
    /** `LockstepManager.FrameRate / 2`. */
    const SearchRate: int
    /** Whether the concrete AI supplies an agent predicate; the base one supplies none. */
    const hasAgentConditional: bool

    var searchCount: int
    var nearbyAgent: Option<AgentId>

    /** The count at the last initialisation or load, and the ticks since. */
    ghost var startCount: int
    ghost var history: seq<Activity>
    ghost var decisions: seq<bool>

    /** The current count and every decision since the last initialisation or
        load are determined by the count then and the activities since. */
    ghost predicate Valid()
      reads this
    {
      IsInt32(SearchRate) && 1 <= SearchRate && IsInt32(startCount) &&
      Run(SearchRate, startCount, history) == Trace(searchCount, decisions)
    }

    /** The field initialisation: `SearchRate` is half the lockstep manager's
        frame rate, a positive `int` constant; `searchCount` and `nearbyAgent`
        hold their defaults. */
    constructor (frameRate: int, hasAgentConditional: bool)
      requires 2 <= frameRate <= MaxInt32
      ensures Valid()
      ensures SearchRate == frameRate / 2 && this.hasAgentConditional == hasAgentConditional
      ensures searchCount == 0 && nearbyAgent == None
      ensures history == [] && decisions == []
    {
      SearchRate := frameRate / 2;
      this.hasAgentConditional := hasAgentConditional;
      searchCount := 0;
      nearbyAgent := None;
      startCount := 0;
      history := [];
      decisions := [];
    }

    /** `OnInitialize`; `random` is `GetRandom(SearchRate)`, a value in [0, SearchRate). */
    method OnInitialize(random: int)
      requires Valid()
      requires 0 <= random < SearchRate
      modifies this
      ensures Valid()
      ensures searchCount == random + 1 && 1 <= searchCount <= SearchRate
      ensures nearbyAgent == old(nearbyAgent)
      ensures startCount == searchCount && history == [] && decisions == []
    {
      searchCount := random + 1;
      startCount := searchCount;
      history := [];
      decisions := [];
    }

    /** `ShouldMakeDecision`: one tick of the throttle. */
    method ShouldMakeDecision(isCasting: bool, isMoving: bool) returns (decide: bool)
      requires Valid()
      modifies this
      ensures Valid()
      ensures Tick(searchCount, decide) == Step(SearchRate, old(searchCount), ActivityOf(isCasting, isMoving))
      ensures history == old(history) + [ActivityOf(isCasting, isMoving)]
      ensures decisions == old(decisions) + [decide]
      ensures startCount == old(startCount) && nearbyAgent == old(nearbyAgent)
    {
      if isCasting {
        searchCount := -1;
        decide := false;
      } else if isMoving {
        searchCount := Wrap32(searchCount - 8);
        decide := false;
      } else {
        searchCount := Wrap32(searchCount - 2);
        if searchCount <= 0 {
          searchCount := SearchRate;
          decide := true;
        } else {
          searchCount := searchCount - 1;
          decide := false;
        }
      }
      RunSnoc(SearchRate, startCount, history, ActivityOf(isCasting, isMoving));
      history := history + [ActivityOf(isCasting, isMoving)];
      decisions := decisions + [decide];
    }

    /** `DoScan`: `scan` is what the influence scan would return for this agent. */
    function DoScan(scan: Option<AgentId>): (r: Option<AgentId>)
      ensures !hasAgentConditional ==> r == None
      ensures hasAgentConditional ==> r == scan
    {
      if hasAgentConditional then scan else None
    }

    /** `DecideWhatToDo`: the scan result replaces the remembered agent. */
    method DecideWhatToDo(scan: Option<AgentId>)
      modifies this`nearbyAgent
      ensures nearbyAgent == DoScan(scan)
    {
      nearbyAgent := DoScan(scan);
    }

    /** `ResetAwareness`. */
    method ResetAwareness()
      modifies this`nearbyAgent
      ensures nearbyAgent == None
    {
      nearbyAgent := None;
    }

    /** `OnSimulate`: a tick, and a decision when one is due. */
    method OnSimulate(isCasting: bool, isMoving: bool, scan: Option<AgentId>)
      requires Valid()
      modifies this
      ensures Valid()
      ensures var t := Step(SearchRate, old(searchCount), ActivityOf(isCasting, isMoving));
              searchCount == t.count &&
              decisions == old(decisions) + [t.decide] &&
              nearbyAgent == if t.decide then DoScan(scan) else old(nearbyAgent)
      ensures history == old(history) + [ActivityOf(isCasting, isMoving)]
      ensures startCount == old(startCount)
    {
      var decide := ShouldMakeDecision(isCasting, isMoving);
      if decide {
        DecideWhatToDo(scan);
      }
    }

    /** `OnSaveDetails`. */
    function OnSaveDetails(): (props: seq<Property>)
      reads this
      ensures props == SaveSearchCount(searchCount)
      ensures LoadAll(LoadSearchCount, 0, props) == if IsInt32(searchCount) then Some(searchCount) else None
    {
      SaveSearchCount(searchCount)
    }

    /** `HandleLoadedProperty`; `ok` is false when the `(int)` cast fails, and then nothing changes. */
    method HandleLoadedProperty(name: string, value: Value) returns (ok: bool)
      requires Valid()
      modifies this
      ensures Valid()
      ensures var r := LoadSearchCount(old(searchCount), Property(name, value));
              ok == r.Some? && searchCount == if ok then r.value else old(searchCount)
      ensures nearbyAgent == old(nearbyAgent)
      ensures ok && name == SearchCountName ==> startCount == searchCount && history == [] && decisions == []
      ensures !(ok && name == SearchCountName) ==>
                startCount == old(startCount) && history == old(history) && decisions == old(decisions)
    {
      ok := true;
      if name == SearchCountName {
        if value.IntValue? && IsInt32(value.i) {
          searchCount := value.i;
          startCount := searchCount;
          history := [];
          decisions := [];
        } else {
          ok := false;
        }
      }
    }
  }

  /** Two agents that start from the same count and see the same activities make
      the same decisions and end with the same count. */
  lemma SameHistorySameDecisions(x: DeterminismAI, y: DeterminismAI)
    requires x.Valid() && y.Valid()
    requires x.SearchRate == y.SearchRate && x.startCount == y.startCount && x.history == y.history
    ensures x.decisions == y.decisions && x.searchCount == y.searchCount
  {
  }
}
