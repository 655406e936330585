# Container ship model

A Dafny model of the container/ship domain of `ConsoleApplication7/Program.cs`:
containers of four kinds (the base container, liquid, gas, refrigerated) that
are loaded with cargo and emptied, and a ship that holds an ordered list of
containers, bounded in count and summed weight when a container is loaded, and
supports unload, replace, lookup and transfer to another ship.

- `outcomes.dfy` (`Outcomes`): `Option` for lookups that may miss, `Outcome`
  for check-then-commit operations that fail with an error instead of an
  exception.
- `containers.dfy` (`Containers`): the `Kind` datatype (`Basic`, `Liquid(pressure)`,
  `Gas(pressure)`, `Refrigerated(temperature, productType)`) replaces the
  subclass hierarchy; the `Container` class keeps number, load capacity, empty
  weight and kind as constants and the current weight as a mutable field. The
  hazard notification is the boolean that `Load` returns.
- `manifest.dfy` (`Manifest`): pure functions over `seq<Container>`: first match
  by number (`FindIndex`, `Find`), removal by position (`RemoveAt`) and by
  reference, as a list removes an object (`RemoveFirst`), and the summed weight
  (`SumWeights`), with the lemmas that connect them.
- `ships.dfy` (`Ships`): the `Ship` class with its bounds as constants and its
  list as a `seq<Container>` field that the methods reassign. The containers
  are shared objects, as in the original: re-loading a container that is on
  board changes the ship's total weight.
- `scenarios.dfy` (`Scenarios`): client methods that derive concrete outcomes
  from the contracts alone: a one-container ship refusing a second container,
  a gas container notifying on an overfill and keeping a 5% residue, a transfer
  onto a full ship changing nothing, a successful transfer, and the weight
  bound being broken after loading by `ReplaceContainer` and by re-loading a
  container already on board.

Behaviour kept as written: emptying a liquid or gas container leaves 5% of the
container's empty weight, not of its cargo; `ReplaceContainer` does not check
the ship's bounds; container numbers need not be unique, and every lookup,
unload, replace and transfer acts on the first match. A transfer whose target
is the source ship itself is modelled too: if accepted, the container moves to
the end of the list.

## Model

| member | source | states |
|---|---|---|
| `Containers.Container.constructor` | ConsoleApplication7/Program.cs:22-28 | number, capacity, empty weight and kind are stored as given and the weight starts at the empty weight |
| `Containers.Container.Load` | ConsoleApplication7/Program.cs:56-62 | notifies iff the kind's hazard condition holds for the cargo; fails with `Overfill` iff cargo exceeds capacity, leaving the weight unchanged; otherwise weight becomes cargo plus empty weight (base check at lines 30-35) |
| `Containers.Container.Empty` | ConsoleApplication7/Program.cs:64-68 | weight becomes 0.05 times the empty weight for liquid and gas, the empty weight otherwise, whatever the container held (base reset at lines 37-40) |
| `Containers.Hazardous` | ConsoleApplication7/Program.cs:56-92 | a notification fires only for liquid and gas containers and only when cargo exceeds half the capacity; for gas that condition alone suffices; for liquid it fires iff the pressure is positive and cargo exceeds half the capacity |
| `Containers.GasIgnoresPressure` | ConsoleApplication7/Program.cs:86-92 | a gas container notifies iff cargo exceeds half its capacity, for every pressure |
| `Containers.OverfillNotifies` | ConsoleApplication7/Program.cs:56-62 | for gas and pressurised liquid containers with non-negative capacity, every overfilling load notifies although it then fails |
| `Containers.OnlyHazardousVariantsNotify` | ConsoleApplication7/Program.cs:105-116 | base and refrigerated containers never notify |
| `Manifest.FindIndex` | ConsoleApplication7/Program.cs:154 | the result is the least position whose container has the number, or none when no container has it |
| `Manifest.Find` | ConsoleApplication7/Program.cs:147 | the result is the first listed container with the number (no earlier container has it), and is missing iff no listed container has it |
| `Manifest.RemoveAt` | ConsoleApplication7/Program.cs:145-150 | removing position i shortens the list by one, keeps the elements before i and shifts those after it down by one |
| `Manifest.RemoveFirst` | ConsoleApplication7/Program.cs:149 | removing an object leaves the list as it is when the object is absent, and otherwise takes exactly one occurrence out |
| `Manifest.RemoveFirstAt` | ConsoleApplication7/Program.cs:149 | removing an object equals removing the position where it first occurs |
| `Manifest.RemoveFoundIsRemoveAt` | ConsoleApplication7/Program.cs:147-149 | removing the container found by number removes the element at the first matching position |
| `Manifest.SumWeights` | ConsoleApplication7/Program.cs:138 | the total weight of an empty list is zero, and the total is never negative when no container weight is |
| `Manifest.SumBoundsEach` | ConsoleApplication7/Program.cs:138 | a property of the summed weight: when no container weight is negative, each container weighs at most the total |
| `Manifest.SumAppend` | ConsoleApplication7/Program.cs:138-142 | appending a container adds its weight to the ship's total |
| `Manifest.SumRemoveAt` | ConsoleApplication7/Program.cs:145-150 | removing a container takes exactly its weight off the total |
| `Manifest.SumUpdate` | ConsoleApplication7/Program.cs:152-159 | replacing a container changes the total by the new weight minus the old |
| `Manifest.AppendThenRemoveByNumber` | ConsoleApplication7/Program.cs:133-150 | loading a container whose number is not on board and then unloading that number restores the list |
| `Manifest.RemoveAtAppend` | ConsoleApplication7/Program.cs:189-190 | removing an early element after an append equals appending after the removal (the self-transfer case) |
| `Ships.Ship.constructor` | ConsoleApplication7/Program.cs:126-131 | the bounds are stored as given and the ship starts empty |
| `Ships.Ship.Admission` | ConsoleApplication7/Program.cs:133-140 | a ship refuses with `TooManyContainers` iff its count is at the bound, with `TooHeavy` iff there is room but total plus the offered weight exceeds the weight bound, and accepts otherwise |
| `Ships.Ship.LoadContainer` | ConsoleApplication7/Program.cs:133-143 | fails with `TooManyContainers` when the count is at the bound, else with `TooHeavy` when total plus the container's current weight exceeds the bound, leaving the list unchanged; otherwise appends the container, which adds its weight to the total, after which both bounds hold |
| `Ships.Ship.UnloadContainer` | ConsoleApplication7/Program.cs:145-150 | removes exactly the first container with the number, keeping the others in order, and the total drops by its weight; no-op when none matches |
| `Ships.Ship.ReplaceContainer` | ConsoleApplication7/Program.cs:152-159 | overwrites the first match in place, same length and all other positions unchanged, with no bound check; the total changes by the new weight minus the old; no-op when none matches |
| `Ships.Ship.Info` | ConsoleApplication7/Program.cs:161-174 | number, capacity and weight of the first container with the number, none iff no container has it |
| `Ships.Ship.TransferContainerBetweenShips` | ConsoleApplication7/Program.cs:184-197 | not found iff no container has the number; transferred iff the target admits it, then the target gains it at the end and the source loses its first match; otherwise neither list changes and the target's error is returned |

## Left out

- The interactive menu loop (lines 204-372): console prompts, number parsing and case-insensitive choice of the container kind; it only calls the operations above.
- Console output: the hazard notification is the boolean `Load` returns, the transfer messages are the `Transfer` result, and `PrintContainerInfo` is the `Info` query; `PrintShipInfo` prints the ship's constant fields and `SumWeights` of its list, so it has no member of its own.
- `NotifyDangerousEvent` on the base class (lines 41-44) is never called by the base class and has no effect besides printing.
- Floating-point arithmetic: weights are `real`, so the model claims nothing about rounding of the 0.05 factor or of the sum.
- `MaxSpeed` is stored but nothing depends on it.
- The `IHazardNotifier` interface and the exception classes: notification is a returned flag and errors are `Outcome`/`Transfer` values.
- `GetContainers` (lines 199-202) hands out the mutable list. In the model the `containers` field is public and any client with a `modifies` right on the ship can reassign it; keeping it read-only outside the ship's methods is a convention the model does not enforce.
- Access control on the container weight: the original's setter is protected (line 19), but the model's `weight` field can be assigned by any client that may modify the container; only `Load` and `Empty` are meant to change it.
