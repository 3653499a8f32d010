/**
  The simple sample proposals: the base proposal, which only hands back its
  current object; the sorted proposal, which sorts the caller's list in place and
  walks it from the lowest class probability up; and the random proposal, which
  draws until it finds an object it has not proposed before.

  Every proposal keeps the caller's list by reference, so the list is an `array`
  that the proposal shares with its caller. The random source is a sequence of
  draws, each a value `nextInt(size)` may return.
 */
module Proposals {
  import opened Basics
  import opened Domain
  import opened ProbSort

  /** `AbstractSampleProposal`: the shared list and a current object that nothing here sets. */
  class BaseProposal {
    const pathObjects: array<PathObject>
    var currentObject: Option<PathObject>

    /** Keeps the caller's list itself, not a copy; there is no current object yet. */
    constructor (objects: array<PathObject>)
      ensures pathObjects == objects && currentObject == None
    {
      pathObjects := objects;
      currentObject := None;
    }

    /** `serveObject()`: the current object, changing nothing, so every call agrees. */
    method ServeObject() returns (r: Option<PathObject>)
      ensures r == currentObject
    {
      r := currentObject;
    }
  }

  /** Collections.sort on the shared list: ascending, stable, by probability. */
  method SortInPlace(a: array<PathObject>)
    modifies a
    ensures a[..] == SortByProb(old(a[..]))
  {
    var sorted := SortByProb(a[..]);
    SortByProbSpec(a[..]);
    forall i | 0 <= i < a.Length {
      a[i] := sorted[i];
    }
    assert a[..] == sorted;
  }

  /** What one `serveObject()` of the sorted proposal returns, and its cursor and current object afterwards. */
  function SortedServed(iter: Cursor<PathObject>, current: Option<PathObject>): (Option<PathObject>, Cursor<PathObject>, Option<PathObject>) {
    if iter.HasNext() then (Some(iter.Next()), iter.Advanced(), Some(iter.Next()))
    else (current, iter, current)
  }

  /** What `n` calls in a row return. */
  function SortedServedTimes(iter: Cursor<PathObject>, current: Option<PathObject>, n: nat): seq<Option<PathObject>>
    decreases n
  {
    if n == 0 then []
    else
      var (r, iter', current') := SortedServed(iter, current);
      [r] + SortedServedTimes(iter', current', n - 1)
  }

  /** The smaller of two numbers. */
  function Min(a: int, b: int): int {
    if a <= b then a else b
  }

  /**
    From position `k` of a non-empty list, with the element before `k` (the first
    one at `k == 0`) as the current object, the j-th call returns element `k + j`,
    and once the list is used up, its last element again and again.
   */
  lemma {:induction false} SortedServedWalks(s: seq<PathObject>, k: nat, n: nat)
    requires 0 < |s| && k <= |s|
    ensures var rs := SortedServedTimes(Cursor(s, k), Some(s[if k == 0 then 0 else k - 1]), n);
      |rs| == n && forall j :: 0 <= j < n ==> rs[j] == Some(s[Min(k + j, |s| - 1)])
    decreases n
  {
    if n > 0 {
      if k < |s| {
        SortedServedWalks(s, k + 1, n - 1);
      } else {
        SortedServedWalks(s, k, n - 1);
      }
    }
  }

  /** `SortedSampleProposal`. */
  class SortedProposal {
    const pathObjects: array<PathObject>
    var iter: Cursor<PathObject>
    var currentObject: Option<PathObject>

    /**
      Sorts the caller's list in place, puts a cursor at its front and makes the
      first element current; `get(0)` needs a non-empty list.
     */
    constructor (objects: array<PathObject>)
      requires objects.Length > 0
      modifies objects
      ensures pathObjects == objects && objects[..] == SortByProb(old(objects[..]))
      ensures iter == Fresh(objects[..]) && currentObject == Some(objects[0])
    {
      pathObjects := objects;
      new;
      SortInPlace(objects);
      iter := Fresh(objects[..]);
      currentObject := Some(objects[0]);
    }

    /** `sort()`: re-sorts the shared list and restarts serving from its front. */
    method Sort()
      modifies this, pathObjects
      ensures pathObjects[..] == SortByProb(old(pathObjects[..]))
      ensures iter == Fresh(pathObjects[..]) && currentObject == old(currentObject)
    {
      SortInPlace(pathObjects);
      iter := Fresh(pathObjects[..]);
    }

    /** `reset()` is `sort()`. */
    method Reset()
      modifies this, pathObjects
      ensures pathObjects[..] == SortByProb(old(pathObjects[..]))
      ensures iter == Fresh(pathObjects[..]) && currentObject == old(currentObject)
    {
      Sort();
    }

    method ServeObject() returns (r: Option<PathObject>)
      modifies this
      ensures (r, iter, currentObject) == SortedServed(old(iter), old(currentObject))
    {
      if iter.HasNext() {
        currentObject := Some(iter.Next());
        iter := iter.Advanced();
      }
      r := currentObject;
    }
  }

  /**
    After construction the proposal serves the sorted list from the lowest
    probability up, the first call returning the element that was already
    current, and then repeats the last element for ever.
   */
  lemma SortedProposalOrder(s: seq<PathObject>, n: nat)
    requires 0 < |s|
    ensures var sorted := SortByProb(s);
      var rs := SortedServedTimes(Fresh(sorted), Some(sorted[0]), n);
      && SortedByProb(sorted) && multiset(sorted) == multiset(s)
      && |rs| == n
      && (forall j :: 0 <= j < n ==> rs[j] == Some(sorted[Min(j, |s| - 1)]))
  {
    SortByProbSpec(s);
    SortedServedWalks(SortByProb(s), 0, n);
  }

  /** What the random proposal's `serveObject()` ends with. */
  datatype RandomDraw =
    | Proposed(obj: PathObject)  // the object returned
    | Refused(e: JavaException)  // `nextInt(0)` on an empty list
    | DrawsUsedUp                // every draw given was rejected

  /** The random proposal's fields. */
  datatype RandomState = RandomState(objects: seq<PathObject>, proposed: set<PathObject>, current: Option<PathObject>)

  /** Each draw is a value `nextInt(|objects|)` can return. */
  predicate DrawsFit(objects: seq<PathObject>, draws: seq<nat>) {
    forall i :: 0 <= i < |draws| ==> draws[i] < |objects|
  }

  /** A draw is kept when its object is new, or once every object has been proposed. */
  predicate Accepts(objects: seq<PathObject>, proposed: set<PathObject>, d: nat)
    requires d < |objects|
  {
    objects[d] !in proposed || |proposed| >= |objects|
  }

  /** The index of the first draw from `k` on that is kept, or `|draws|` when none is. */
  function FirstAccepted(objects: seq<PathObject>, proposed: set<PathObject>, draws: seq<nat>, k: nat): (j: nat)
    requires DrawsFit(objects, draws) && k <= |draws|
    ensures k <= j <= |draws|
    ensures j < |draws| ==> Accepts(objects, proposed, draws[j])
    ensures forall i :: k <= i < j ==> !Accepts(objects, proposed, draws[i])
    decreases |draws| - k
  {
    if k == |draws| then k
    else if Accepts(objects, proposed, draws[k]) then k
    else FirstAccepted(objects, proposed, draws, k + 1)
  }

  /** `serveObject()` of the random proposal. */
  function RandomServed(st: RandomState, draws: seq<nat>): (RandomDraw, RandomState)
    requires DrawsFit(st.objects, draws)
  {
    if |st.objects| == 0 then (Refused(IllegalArgument), st)
    else if draws == [] then (DrawsUsedUp, st)
    else
      var j := FirstAccepted(st.objects, st.proposed, draws, 0);
      if j == |draws| then (DrawsUsedUp, st.(current := Some(st.objects[draws[|draws| - 1]])))
      else
        var o := st.objects[draws[j]];
        (Proposed(o), st.(current := Some(o), proposed := st.proposed + {o}))
  }

  /**
    The random proposal returns one of the list's objects and remembers it; while
    some object is still unproposed it never repeats one and the set grows by
    exactly one; once the set is as large as the list it returns the first draw,
    repeat or not. An empty list makes `nextInt(0)` throw.
   */
  lemma RandomServedSpec(st: RandomState, draws: seq<nat>)
    requires DrawsFit(st.objects, draws)
    ensures var (r, st') := RandomServed(st, draws);
      && (|st.objects| == 0 <==> r == Refused(IllegalArgument))
      && (r.Proposed? ==> r.obj in st.objects && r.obj in st'.proposed && st'.current == Some(r.obj))
      && st.proposed <= st'.proposed && |st'.proposed| <= |st.proposed| + 1
      && st'.objects == st.objects
      && (r.Proposed? && |st.proposed| < |st.objects| ==> r.obj !in st.proposed && |st'.proposed| == |st.proposed| + 1)
      && (|st.proposed| >= |st.objects| && draws != [] ==> r == Proposed(st.objects[draws[0]]))
      && (r == DrawsUsedUp && |st.objects| > 0 ==> forall i :: 0 <= i < |draws| ==> st.objects[draws[i]] in st.proposed)
      && (r == DrawsUsedUp ==> st'.proposed == st.proposed)
  {
  }

  /** `RandomSampleProposal`. */
  class RandomProposal {
    const pathObjects: array<PathObject>
    var previouslyProposed: set<PathObject>
    var currentObject: Option<PathObject>

    function State(): RandomState
      reads this, pathObjects
    {
      RandomState(pathObjects[..], previouslyProposed, currentObject)
    }

    constructor (objects: array<PathObject>)
      ensures pathObjects == objects && previouslyProposed == {} && currentObject == None
    {
      pathObjects := objects;
      previouslyProposed := {};
      currentObject := None;
    }

    method ServeObject(draws: seq<nat>) returns (r: RandomDraw)
      requires DrawsFit(pathObjects[..], draws)
      modifies this
      ensures (r, State()) == RandomServed(old(State()), draws)
    {
      if pathObjects.Length == 0 {
        return Refused(IllegalArgument);
      }
      if draws == [] {
        return DrawsUsedUp;
      }
      ghost var objects := pathObjects[..];
      var k := 0;
      currentObject := Some(pathObjects[draws[0]]);
      while currentObject.value in previouslyProposed && |previouslyProposed| < pathObjects.Length
        invariant 0 <= k < |draws| && currentObject == Some(pathObjects[draws[k]])
        invariant previouslyProposed == old(previouslyProposed) && pathObjects[..] == objects
        invariant FirstAccepted(objects, previouslyProposed, draws, 0) == FirstAccepted(objects, previouslyProposed, draws, k)
        decreases |draws| - k
      {
        k := k + 1;
        if k == |draws| {
          return DrawsUsedUp;
        }
        currentObject := Some(pathObjects[draws[k]]);
      }
      previouslyProposed := previouslyProposed + {currentObject.value};
      return Proposed(currentObject.value);
    }
  }
}
