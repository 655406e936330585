/** Containers: a common record (number, load capacity, empty weight, current
    weight) with a variant tag that decides how loading notifies and how
    emptying resets the weight. */
module Containers {
  import opened Outcomes

  /** The container variants. `Basic` is the base container class, which can
      be constructed on its own; the other three are its subclasses. */
  datatype Kind =
    | Basic
    | Liquid(pressure: real)
    | Gas(pressure: real)
    | Refrigerated(temperature: real, productType: string)

  /** The only way a container load can fail. */
  datatype LoadError = Overfill

  /** Whether loading `cargo` into a container of this kind raises a hazard
      notification. Liquid containers notify only when pressurised, gas
      containers regardless of pressure, the others never. */
  predicate Hazardous(kind: Kind, loadCapacity: real, cargo: real)
    ensures Hazardous(kind, loadCapacity, cargo) ==> kind.Liquid? || kind.Gas?
    ensures Hazardous(kind, loadCapacity, cargo) ==> cargo > 0.5 * loadCapacity
    ensures kind.Gas? && cargo > 0.5 * loadCapacity ==> Hazardous(kind, loadCapacity, cargo)
    ensures kind.Liquid? ==>
      (Hazardous(kind, loadCapacity, cargo) <==> kind.pressure > 0.0 && cargo > 0.5 * loadCapacity)
  {
    match kind
    case Liquid(pressure) => pressure > 0.0 && cargo > loadCapacity * 0.5
    case Gas(_) => cargo > loadCapacity * 0.5
    case _ => false
  }

  /** A gas container's notification does not depend on its pressure. */
  lemma GasIgnoresPressure(p: real, q: real, loadCapacity: real, cargo: real)
    ensures Hazardous(Gas(p), loadCapacity, cargo) <==> Hazardous(Gas(q), loadCapacity, cargo)
    ensures Hazardous(Gas(p), loadCapacity, cargo) <==> cargo > 0.5 * loadCapacity
  {
  }

  /** Only the liquid and gas variants ever notify. */
  lemma OnlyHazardousVariantsNotify(kind: Kind, loadCapacity: real, cargo: real)
    requires kind.Basic? || kind.Refrigerated?
    ensures !Hazardous(kind, loadCapacity, cargo)
  {
  }

  /** The notification is decided before the overfill check, so every
      overfilling load of a gas or pressurised liquid container (with a
      non-negative capacity) notifies even though the load then fails. */
  lemma OverfillNotifies(kind: Kind, loadCapacity: real, cargo: real)
    requires kind.Gas? || (kind.Liquid? && kind.pressure > 0.0)
    requires 0.0 <= loadCapacity < cargo
    ensures Hazardous(kind, loadCapacity, cargo)
  {
  }

  class Container {
    const number: string
    const loadCapacity: real
    const emptyWeight: real
    const kind: Kind
    var weight: real

    /** A new container holds no cargo: its weight is its empty weight. */
    constructor (number: string, loadCapacity: real, emptyWeight: real, kind: Kind)
      ensures this.number == number && this.loadCapacity == loadCapacity
      ensures this.emptyWeight == emptyWeight && this.kind == kind
      ensures weight == emptyWeight
    {
      this.number := number;
      this.loadCapacity := loadCapacity;
      this.emptyWeight := emptyWeight;
      this.kind := kind;
      weight := emptyWeight;
    }

    /** Loads `cargo`. The variant first decides whether to notify; then the
        base check either rejects an overfill, leaving the weight as it was,
        or sets the weight to cargo plus empty weight. */
    method Load(cargo: real) returns (notified: bool, r: Outcome<LoadError>)
      modifies this
      ensures notified <==> Hazardous(kind, loadCapacity, cargo)
      ensures r.Pass? <==> cargo <= loadCapacity
      ensures r.Fail? ==> r.error == Overfill && weight == old(weight)
      ensures r.Pass? ==> weight == cargo + emptyWeight
    {
      notified := Hazardous(kind, loadCapacity, cargo);
      if cargo > loadCapacity {
        return notified, Fail(Overfill);
      }
      weight := cargo + emptyWeight;
      r := Pass;
    }

    /** Empties the container: the weight goes back to the empty weight and,
        for liquid and gas, that reset value is then scaled to 5%. The result
        does not depend on the cargo held before, so emptying twice is the
        same as emptying once. */
    method Empty()
      modifies this
      ensures kind.Liquid? || kind.Gas? ==> weight == 0.05 * emptyWeight
      ensures kind.Basic? || kind.Refrigerated? ==> weight == emptyWeight
    {
      weight := emptyWeight;
      if kind.Liquid? || kind.Gas? {
        weight := weight * 0.05;
      }
    }
  }
}
