/** The ship aggregate: an ordered list of containers, bounded in count and
    summed weight at the moment a container is loaded. */
module Ships {
  import opened Outcomes
  import opened Containers
  import opened Manifest

  /** Why a ship refuses a container. */
  datatype ShipError = TooManyContainers | TooHeavy

  /** What a transfer between ships did. */
  datatype Transfer = Transferred | Refused(error: ShipError) | NotFound

  /** The figures reported for one container. */
  datatype ContainerInfo = ContainerInfo(number: string, loadCapacity: real, weight: real)

  class Ship {
    const maxSpeed: real
    const maxContainers: int
    const maxWeight: real
    var containers: seq<Container>

    /** A new ship carries nothing. */
    constructor (maxSpeed: real, maxContainers: int, maxWeight: real)
      ensures this.maxSpeed == maxSpeed && this.maxContainers == maxContainers
      ensures this.maxWeight == maxWeight
      ensures containers == []
    {
      this.maxSpeed := maxSpeed;
      this.maxContainers := maxContainers;
      this.maxWeight := maxWeight;
      containers := [];
    }

    /** The ship's verdict on a container of weight `w`: the count bound is
        checked first, then the weight bound. */
    function Admission(w: real): (r: Outcome<ShipError>)
      reads this, containers
      ensures r == Fail(TooManyContainers) <==> |containers| >= maxContainers
      ensures r == Fail(TooHeavy) <==>
        |containers| < maxContainers && SumWeights(containers) + w > maxWeight
      ensures r == Pass <==>
        |containers| < maxContainers && SumWeights(containers) + w <= maxWeight
    {
      if |containers| >= maxContainers then Fail(TooManyContainers)
      else if SumWeights(containers) + w > maxWeight then Fail(TooHeavy)
      else Pass
    }

    /** Appends `c` if the ship has room for one more container and its
        current weight keeps the total within the bound; otherwise nothing
        changes. A successful load leaves both bounds satisfied. */
    method LoadContainer(c: Container) returns (r: Outcome<ShipError>)
      modifies this
      ensures r == old(Admission(c.weight))
      ensures old(|containers|) >= maxContainers ==> r == Fail(TooManyContainers)
      ensures old(|containers|) < maxContainers && old(SumWeights(containers)) + c.weight > maxWeight
        ==> r == Fail(TooHeavy)
      ensures old(|containers|) < maxContainers && old(SumWeights(containers)) + c.weight <= maxWeight
        ==> r == Pass
      ensures r.Fail? ==> containers == old(containers)
      ensures r.Pass? ==> containers == old(containers) + [c]
      ensures r.Pass? ==> SumWeights(containers) == old(SumWeights(containers)) + c.weight
      ensures r.Pass? ==> |containers| <= maxContainers && SumWeights(containers) <= maxWeight
    {
      if |containers| >= maxContainers {
        return Fail(TooManyContainers);
      }
      var currentWeight := SumWeights(containers);
      if currentWeight + c.weight > maxWeight {
        return Fail(TooHeavy);
      }
      SumAppend(containers, c);
      containers := containers + [c];
      r := Pass;
    }

    /** Removes the first container numbered `n`; the others keep their
        order. Nothing happens when no container has that number. */
    method UnloadContainer(n: string)
      modifies this
      ensures FindIndex(old(containers), n).None? ==> containers == old(containers)
      ensures FindIndex(old(containers), n).Some? ==>
        containers == RemoveAt(old(containers), FindIndex(old(containers), n).value)
      ensures FindIndex(old(containers), n).Some? ==>
        SumWeights(containers) == old(SumWeights(containers))
          - old(containers)[FindIndex(old(containers), n).value].weight
    {
      var found := Find(containers, n);
      if found.Some? {
        RemoveFoundIsRemoveAt(containers, n);
        SumRemoveAt(containers, FindIndex(containers, n).value);
        containers := RemoveFirst(containers, found.value);
      }
    }

    /** Puts `c` in place of the first container numbered `oldNumber`, without
        checking the count or weight bounds. Nothing happens when no container
        has that number. */
    method ReplaceContainer(oldNumber: string, c: Container)
      modifies this
      ensures FindIndex(old(containers), oldNumber).None? ==> containers == old(containers)
      ensures FindIndex(old(containers), oldNumber).Some? ==>
        containers == old(containers)[FindIndex(old(containers), oldNumber).value := c]
      ensures FindIndex(old(containers), oldNumber).Some? ==>
        SumWeights(containers) == old(SumWeights(containers))
          - old(containers)[FindIndex(old(containers), oldNumber).value].weight + c.weight
    {
      var index := FindIndex(containers, oldNumber);
      if index.Some? {
        SumUpdate(containers, index.value, c);
        containers := containers[index.value := c];
      }
    }

    /** The number, capacity and weight of the first container numbered `n`. */
    function Info(n: string): (r: Option<ContainerInfo>)
      reads this, containers
      ensures r.None? <==> forall j :: 0 <= j < |containers| ==> containers[j].number != n
      ensures r.Some? ==> exists j :: (0 <= j < |containers| && containers[j].number == n
        && (forall k :: 0 <= k < j ==> containers[k].number != n)
        && r.value == ContainerInfo(n, containers[j].loadCapacity, containers[j].weight))
    {
      match Find(containers, n)
      case None => None
      case Some(c) => Some(ContainerInfo(c.number, c.loadCapacity, c.weight))
    }

    /** Moves the first container numbered `n` onto `target`. The container is
        offered to the target first and leaves this ship only if the target
        took it, so a refusal changes neither ship. When `target` is this
        ship, an accepted container moves to the end of the list. */
    method TransferContainerBetweenShips(target: Ship, n: string) returns (r: Transfer)
      modifies this, target
      ensures r.NotFound? <==> FindIndex(old(containers), n).None?
      ensures !r.Transferred? ==> containers == old(containers) && target.containers == old(target.containers)
      ensures FindIndex(old(containers), n).Some? ==>
        var c := old(containers)[FindIndex(old(containers), n).value];
        (r.Transferred? <==> old(target.Admission(c.weight)).Pass?) &&
        (r.Refused? ==> old(target.Admission(c.weight)) == Fail(r.error))
      ensures r.Transferred? && target != this ==>
        var i := FindIndex(old(containers), n).value;
        containers == RemoveAt(old(containers), i) &&
        target.containers == old(target.containers) + [old(containers)[i]]
      ensures r.Transferred? && target == this ==>
        var i := FindIndex(old(containers), n).value;
        containers == RemoveAt(old(containers), i) + [old(containers)[i]]
    {
      var found := Find(containers, n);
      if found.None? {
        return NotFound;
      }
      var c := found.value;
      ghost var before := containers;
      ghost var i := FindIndex(containers, n).value;
      var loaded := target.LoadContainer(c);
      if loaded.Fail? {
        return Refused(loaded.error);
      }
      if target == this {
        RemoveAtAppend(before, i, c);
        forall j | 0 <= j < i ensures containers[j] != containers[i] {
          assert containers[j].number != n;
        }
        RemoveFirstAt(containers, i);
      } else {
        RemoveFoundIsRemoveAt(containers, n);
      }
      containers := RemoveFirst(containers, c);
      r := Transferred;
    }
  }
}
