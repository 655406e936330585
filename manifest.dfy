/** Pure functions over a ship's ordered list of containers: first-match
    search by number, removal and the summed weight. */
module Manifest {
  import opened Outcomes
  import opened Containers

  /** The position of the first container numbered `n` (`None` where
      `List.FindIndex` returns -1). */
  function FindIndex(cs: seq<Container>, n: string): (r: Option<nat>)
    ensures r.Some? ==> r.value < |cs| && cs[r.value].number == n
    ensures r.Some? ==> forall j :: 0 <= j < r.value ==> cs[j].number != n
    ensures r.None? ==> forall j :: 0 <= j < |cs| ==> cs[j].number != n
  {
    if cs == [] then None
    else if cs[0].number == n then Some(0)
    else match FindIndex(cs[1..], n)
      case None => None
      case Some(i) => Some(i + 1)
  }

  /** The first container numbered `n`, if any. */
  function Find(cs: seq<Container>, n: string): (r: Option<Container>)
    ensures r.Some? ==> r.value in cs && r.value.number == n
    ensures r.Some? ==> exists j :: (0 <= j < |cs| && cs[j] == r.value
      && forall k :: 0 <= k < j ==> cs[k].number != n)
    ensures r.None? <==> forall c :: c in cs ==> c.number != n
  {
    match FindIndex(cs, n)
    case None => None
    case Some(i) => Some(cs[i])
  }

  /** The list without its `i`-th element, the others in their order. */
  function RemoveAt(cs: seq<Container>, i: nat): (r: seq<Container>)
    requires i < |cs|
    ensures |r| == |cs| - 1
    ensures forall j :: 0 <= j < i ==> r[j] == cs[j]
    ensures forall j :: i <= j < |r| ==> r[j] == cs[j + 1]
  {
    cs[..i] + cs[i + 1..]
  }

  /** Removal of the first element that is the same object as `x`, as a list
      removes by reference equality; a no-op when `x` is absent. */
  function RemoveFirst(cs: seq<Container>, x: Container): (r: seq<Container>)
    ensures x !in cs ==> r == cs
    ensures x in cs ==> |r| == |cs| - 1 && multiset(r) + multiset{x} == multiset(cs)
  {
    if cs == [] then []
    else
      assert cs == [cs[0]] + cs[1..];
      if cs[0] == x then cs[1..]
      else [cs[0]] + RemoveFirst(cs[1..], x)
  }

  /** The summed current weight of the listed containers: nothing for an
      empty list, and never negative when no weight is. */
  function SumWeights(cs: seq<Container>): (r: real)
    reads cs
    ensures cs == [] ==> r == 0.0
    ensures (forall j :: 0 <= j < |cs| ==> cs[j].weight >= 0.0) ==> r >= 0.0
  {
    if cs == [] then 0.0 else cs[0].weight + SumWeights(cs[1..])
  }

  /** Past a different head, removal of an object continues in the tail. */
  lemma RemoveFirstPastHead(cs: seq<Container>, x: Container)
    requires cs != [] && cs[0] != x
    ensures RemoveFirst(cs, x) == [cs[0]] + RemoveFirst(cs[1..], x)
  {
  }

  /** Removing the first occurrence of an object removes it at the position
      where it first occurs. */
  lemma {:induction false} RemoveFirstAt(cs: seq<Container>, i: nat)
    requires i < |cs|
    requires forall j :: 0 <= j < i ==> cs[j] != cs[i]
    ensures RemoveFirst(cs, cs[i]) == RemoveAt(cs, i)
  {
    if i > 0 {
      var tail := cs[1..];
      assert tail[i - 1] == cs[i];
      forall j | 0 <= j < i - 1 ensures tail[j] != tail[i - 1] {
        assert tail[j] == cs[j + 1];
      }
      RemoveFirstAt(tail, i - 1);
      RemoveFirstPastHead(cs, cs[i]);
      RemoveAtPastHead(cs, i);
    }
  }

  /** Removing a position past the head keeps the head and removes in the tail. */
  lemma RemoveAtPastHead(cs: seq<Container>, i: nat)
    requires 0 < i < |cs|
    ensures RemoveAt(cs, i) == [cs[0]] + RemoveAt(cs[1..], i - 1)
  {
    assert cs[..i] == [cs[0]] + cs[1..][..i - 1];
    assert cs[i + 1..] == cs[1..][i..];
  }

  /** Removing the container found by number removes exactly the element at
      the first matching position. */
  lemma RemoveFoundIsRemoveAt(cs: seq<Container>, n: string)
    requires FindIndex(cs, n).Some?
    ensures Find(cs, n).Some?
    ensures RemoveFirst(cs, Find(cs, n).value) == RemoveAt(cs, FindIndex(cs, n).value)
  {
    var i := FindIndex(cs, n).value;
    forall j | 0 <= j < i ensures cs[j] != cs[i] {
      assert cs[j].number != n;
    }
    RemoveFirstAt(cs, i);
  }

  /** When no weight is negative, every single container weighs at most the
      total. */
  lemma {:induction false} SumBoundsEach(cs: seq<Container>, i: nat)
    requires i < |cs|
    requires forall j :: 0 <= j < |cs| ==> cs[j].weight >= 0.0
    ensures cs[i].weight <= SumWeights(cs)
  {
    if i > 0 {
      assert forall j :: 0 <= j < |cs[1..]| ==> cs[1..][j].weight >= 0.0 by {
        forall j | 0 <= j < |cs[1..]| ensures cs[1..][j].weight >= 0.0 {
          assert cs[1..][j] == cs[j + 1];
        }
      }
      SumBoundsEach(cs[1..], i - 1);
    }
  }

  /** Appending one container adds its weight to the sum. */
  lemma {:induction false} SumAppend(cs: seq<Container>, c: Container)
    ensures SumWeights(cs + [c]) == SumWeights(cs) + c.weight
  {
    if cs != [] {
      assert (cs + [c])[1..] == cs[1..] + [c];
      SumAppend(cs[1..], c);
    }
  }

  /** Removing the `i`-th container takes exactly its weight off the sum. */
  lemma {:induction false} SumRemoveAt(cs: seq<Container>, i: nat)
    requires i < |cs|
    ensures SumWeights(RemoveAt(cs, i)) == SumWeights(cs) - cs[i].weight
  {
    if i > 0 {
      assert RemoveAt(cs, i) == [cs[0]] + RemoveAt(cs[1..], i - 1);
      assert RemoveAt(cs, i)[1..] == RemoveAt(cs[1..], i - 1);
      SumRemoveAt(cs[1..], i - 1);
    } else {
      assert RemoveAt(cs, 0) == cs[1..];
    }
  }

  /** Overwriting the `i`-th container swaps its weight for the newcomer's. */
  lemma {:induction false} SumUpdate(cs: seq<Container>, i: nat, c: Container)
    requires i < |cs|
    ensures SumWeights(cs[i := c]) == SumWeights(cs) - cs[i].weight + c.weight
  {
    if i > 0 {
      assert cs[i := c][1..] == cs[1..][i - 1 := c];
      SumUpdate(cs[1..], i - 1, c);
    } else {
      assert cs[0 := c][1..] == cs[1..];
    }
  }

  /** Appending a container whose number is not yet listed and then removing
      the first container with that number gives back the original list. */
  lemma AppendThenRemoveByNumber(cs: seq<Container>, c: Container)
    requires FindIndex(cs, c.number).None?
    ensures FindIndex(cs + [c], c.number) == Some(|cs|)
    ensures RemoveAt(cs + [c], |cs|) == cs
  {
  }

  /** Removing an element before the tail commutes with appending. */
  lemma RemoveAtAppend(cs: seq<Container>, i: nat, c: Container)
    requires i < |cs|
    ensures RemoveAt(cs + [c], i) == RemoveAt(cs, i) + [c]
  {
    assert (cs + [c])[..i] == cs[..i];
    assert (cs + [c])[i + 1..] == cs[i + 1..] + [c];
  }
}
