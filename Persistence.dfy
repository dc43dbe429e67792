/** Save and load of component state as sequences of named values.
    A component's save hook writes a list of (name, value) pairs; the loader
    then hands the pairs back, one at a time and in order, to the component's
    load hook, which either assigns a field, ignores an unknown name, or fails
    because the value under a known name has the wrong type (a failed cast). */
module Persistence {

  datatype Option<+T> = None | Some(value: T)

  /** A rectangle of the playing area, as the save file stores it. */
  datatype Rect = Rect(xMin: int, yMin: int, xMax: int, yMax: int)

  /** The value stored under a name. */
  datatype Value = IntValue(i: int) | BoolValue(b: bool) | RectValue(r: Rect)

  datatype Property = Property(name: string, value: Value)

  /** Hands the properties to `handle` in order; a failing property stops the load. */
  function LoadAll<S>(handle: (S, Property) -> Option<S>, s: S, props: seq<Property>): Option<S>
    decreases |props|
  {
    if props == [] then Some(s)
    else match handle(s, props[0])
      case None => None
      case Some(s') => LoadAll(handle, s', props[1..])
  }

  /** Loading a concatenation is loading the first part, then the second from where it left off. */
  lemma {:induction false} LoadAllAppend<S>(handle: (S, Property) -> Option<S>, s: S, a: seq<Property>, b: seq<Property>)
    ensures LoadAll(handle, s, a + b) ==
            match LoadAll(handle, s, a)
            case None => None
            case Some(s') => LoadAll(handle, s', b)
    decreases |a|
  {
    if a == [] {
      assert a + b == b;
    } else {
      assert (a + b)[0] == a[0];
      assert (a + b)[1..] == a[1..] + b;
      match handle(s, a[0])
      case None =>
      case Some(s') => LoadAllAppend(handle, s', a[1..], b);
    }
  }

  /** `handle` leaves the state alone for every name outside `known`. */
  ghost predicate IgnoresOthers<S(!new)>(handle: (S, Property) -> Option<S>, known: set<string>)
  {
    forall s: S, p: Property :: p.name !in known ==> handle(s, p) == Some(s)
  }

  /** Properties whose names the component does not know change nothing and never fail. */
  lemma {:induction false} LoadAllUnknown<S(!new)>(handle: (S, Property) -> Option<S>, known: set<string>, s: S, props: seq<Property>)
    requires IgnoresOthers(handle, known)
    requires forall i :: 0 <= i < |props| ==> props[i].name !in known
    ensures LoadAll(handle, s, props) == Some(s)
    decreases |props|
  {
    if props != [] {
      assert handle(s, props[0]) == Some(s);
      LoadAllUnknown(handle, known, s, props[1..]);
    }
  }
}
