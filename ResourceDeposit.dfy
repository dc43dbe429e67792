/** The resource deposit ability: a node holding `AmountLeft` units of one
    resource type, drawn down by harvesters until it is empty. The amounts are
    fixed-point `long` values, modelled as plain integers. */
module Resources {
  import opened Persistence
  import opened Amounts

  // ---------------------------------------------------------------------------
  // Removal.

  /** The amount left after `Remove(amount)`: subtract, then clamp at zero. */
  function Removed(amountLeft: int, amount: int): (r: int)
    ensures r >= 0
    ensures r >= amountLeft - amount
    ensures r == 0 || r == amountLeft - amount
  {
    if amountLeft - amount < 0 then 0 else amountLeft - amount
  }

  /** `Removed` is exactly the clamped difference. */
  lemma RemovedIsClampedDifference(amountLeft: int, amount: int)
    ensures Removed(amountLeft, amount) == Max(0, amountLeft - amount)
  {
  }

  /** A non-negative removal never raises the amount and keeps it within
      `[0, capacity]`. */
  lemma RemoveKeepsBounds(amountLeft: int, capacity: int, amount: int)
    requires 0 <= amountLeft <= capacity && amount >= 0
    ensures 0 <= Removed(amountLeft, amount) <= amountLeft <= capacity
  {
  }

  /** `IsEmpty` on an amount. */
  predicate Empty(amountLeft: int)
  {
    amountLeft <= 0
  }

  /** An empty deposit stays empty under any non-negative removal; it then
      holds exactly zero. */
  lemma EmptyStaysEmpty(amountLeft: int, amount: int)
    requires Empty(amountLeft) && amount >= 0
    ensures Removed(amountLeft, amount) == 0 && Empty(Removed(amountLeft, amount))
  {
  }

  /** `Remove` calls one after another. */
  function RemoveAll(amountLeft: int, amounts: seq<int>): int
    decreases |amounts|
  {
    if amounts == [] then amountLeft else RemoveAll(Removed(amountLeft, amounts[0]), amounts[1..])
  }

  /** From a non-negative amount, removals of non-negative amounts leave the
      start minus their total, clamped at zero. */
  lemma {:induction false} RemoveAllIsClampedTotal(amountLeft: int, amounts: seq<int>)
    requires amountLeft >= 0
    requires forall i :: 0 <= i < |amounts| ==> amounts[i] >= 0
    ensures RemoveAll(amountLeft, amounts) == Max(0, amountLeft - Sum(amounts))
    decreases |amounts|
  {
    if amounts != [] {
      RemoveAllIsClampedTotal(Removed(amountLeft, amounts[0]), amounts[1..]);
      SumNonNegative(amounts[1..]);
    }
  }

  /** Once removals of non-negative amounts have emptied a deposit, every
      later prefix of removals leaves it empty. */
  lemma {:induction false} EmptyIsFinal(amountLeft: int, amounts: seq<int>, k: nat)
    requires k <= |amounts|
    requires forall i :: 0 <= i < |amounts| ==> amounts[i] >= 0
    requires Empty(RemoveAll(amountLeft, amounts[..k]))
    ensures Empty(RemoveAll(amountLeft, amounts))
    decreases |amounts|
  {
    if k == 0 {
      assert amounts[..k] == [];
      EmptyRemovesToZero(amountLeft, amounts);
    } else {
      assert amounts[..k][0] == amounts[0];
      assert amounts[..k][1..] == amounts[1..][..k - 1];
      EmptyIsFinal(Removed(amountLeft, amounts[0]), amounts[1..], k - 1);
    }
  }

  /** Non-negative removals from an empty deposit leave it empty. */
  lemma {:induction false} EmptyRemovesToZero(amountLeft: int, amounts: seq<int>)
    requires Empty(amountLeft)
    requires forall i :: 0 <= i < |amounts| ==> amounts[i] >= 0
    ensures Empty(RemoveAll(amountLeft, amounts))
    decreases |amounts|
  {
    if amounts != [] {
      EmptyStaysEmpty(amountLeft, amounts[0]);
      EmptyRemovesToZero(Removed(amountLeft, amounts[0]), amounts[1..]);
    }
  }

  // ---------------------------------------------------------------------------
  // Save and load of `AmountLeft`.

  const AmountLeftName: string := "AmountLeft"

  /** What `OnSaveDetails` writes. */
  function SaveDeposit(amountLeft: int): seq<Property>
  {
    [Property(AmountLeftName, IntValue(amountLeft))]
  }

  /** One call of `HandleLoadedProperty` on an amount; `None` is a failing
      `(long)` cast of a value that is not a number. */
  function LoadDeposit(amountLeft: int, p: Property): (r: Option<int>)
    ensures p.name != AmountLeftName ==> r == Some(amountLeft)
    ensures p.name == AmountLeftName ==> (r.Some? <==> p.value.IntValue?)
    ensures p.name == AmountLeftName && r.Some? ==> r.value == p.value.i
  {
    if p.name == AmountLeftName then
      if p.value.IntValue? then Some(p.value.i) else None
    else Some(amountLeft)
  }

  /** Saving an amount and loading it back, among properties of other names on
      either side, restores exactly that amount, whatever it was before. */
  lemma DepositRoundTrip(before: seq<Property>, saved: int, after: seq<Property>, amountLeft: int)
    requires forall i :: 0 <= i < |before| ==> before[i].name != AmountLeftName
    requires forall i :: 0 <= i < |after| ==> after[i].name != AmountLeftName
    ensures LoadAll(LoadDeposit, amountLeft, before + SaveDeposit(saved) + after) == Some(saved)
  {
    assert IgnoresOthers(LoadDeposit, {AmountLeftName});
    LoadAllUnknown(LoadDeposit, {AmountLeftName}, amountLeft, before);
    LoadAllUnknown(LoadDeposit, {AmountLeftName}, saved, after);
    LoadAllAppend(LoadDeposit, saved, SaveDeposit(saved), after);
    LoadAllAppend(LoadDeposit, amountLeft, before, SaveDeposit(saved) + after);
    assert before + SaveDeposit(saved) + after == before + (SaveDeposit(saved) + after);
  }

  // ---------------------------------------------------------------------------
  // The ability object.

  class ResourceDeposit {
    /** The inspector-set capacity of the node. */
    const Capacity: int
    var AmountLeft: int

    /** `AmountLeft` holds the default zero until `OnInitialize`. */
    constructor (capacity: int)
      ensures Capacity == capacity && AmountLeft == 0
    {
      Capacity := capacity;
      AmountLeft := 0;
    }

    /** `OnInitialize`: the node starts full. */
    method OnInitialize()
      modifies this
      ensures AmountLeft == Capacity
    {
      AmountLeft := Capacity;
    }

    /** `Remove(amount)`: subtracts in place, then clamps a negative result to zero. */
    method Remove(amount: int)
      modifies this
      ensures AmountLeft == Removed(old(AmountLeft), amount)
    {
      AmountLeft := AmountLeft - amount;
      if AmountLeft < 0 {
        AmountLeft := 0;
      }
    }

    /** `IsEmpty`. */
    predicate IsEmpty()
      reads this
      ensures IsEmpty() <==> AmountLeft <= 0
    {
      Empty(AmountLeft)
    }

    /** `OnSaveDetails`: whatever it writes loads back as the current amount. */
    function OnSaveDetails(): (props: seq<Property>)
      reads this
      ensures props == SaveDeposit(AmountLeft)
      ensures LoadAll(LoadDeposit, 0, props) == Some(AmountLeft)
    {
      SaveDeposit(AmountLeft)
    }

    /** `HandleLoadedProperty`; `ok` is false when the `(long)` cast fails, and then nothing changes. */
    method HandleLoadedProperty(name: string, value: Value) returns (ok: bool)
      modifies this
      ensures var r := LoadDeposit(old(AmountLeft), Property(name, value));
              ok == r.Some? && AmountLeft == if ok then r.value else old(AmountLeft)
    {
      ok := true;
      match name {
        case "AmountLeft" =>
          if value.IntValue? { AmountLeft := value.i; } else { ok := false; }
        case _ =>
      }
    }
  }

  /** Capacity 1000: initialising, then removing 300 and 800, leaves the node
      at zero and empty. */
  method DepletionScenario() returns (amountLeft: int, empty: bool)
    ensures amountLeft == 0 && empty
  {
    var d := new ResourceDeposit(1000);
    d.OnInitialize();
    d.Remove(300);
    d.Remove(800);
    amountLeft, empty := d.AmountLeft, d.IsEmpty();
  }
}
