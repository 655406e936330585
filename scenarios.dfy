/** Client scenarios: what a caller can conclude from the contracts alone. */
module Scenarios {
  import opened Outcomes
  import opened Containers
  import opened Manifest
  import opened Ships

  /** A ship for one container accepts the first and refuses a second. */
  method CapacityScenario()
  {
    var ship := new Ship(25.5, 1, 1000.0);
    var a := new Container("A", 50.0, 100.0, Basic);
    var notified, loaded := a.Load(40.0);
    assert loaded == Pass && a.weight == 140.0 && !notified;
    var r := ship.LoadContainer(a);
    assert r == Pass;
    var b := new Container("B", 50.0, 100.0, Refrigerated(-18.0, "fish"));
    r := ship.LoadContainer(b);
    assert r == Fail(TooManyContainers);
    assert ship.containers == [a];
  }

  /** A gas container notifies on an overfilling load that then fails, and
      emptying leaves 5% of its empty weight whatever it held. */
  method GasScenario()
  {
    var g := new Container("G", 100.0, 200.0, Gas(0.0));
    var notified, loaded := g.Load(150.0);
    assert notified && loaded == Fail(Overfill) && g.weight == 200.0;
    notified, loaded := g.Load(80.0);
    assert notified && loaded == Pass && g.weight == 280.0;
    g.Empty();
    assert g.weight == 10.0;
    g.Empty();
    assert g.weight == 10.0;
  }

  /** Transferring onto a full ship leaves the container where it was. */
  method TransferToFullShipScenario()
  {
    var source := new Ship(20.0, 10, 10000.0);
    var target := new Ship(20.0, 0, 10000.0);
    var x := new Container("X", 500.0, 100.0, Liquid(2.0));
    var r := source.LoadContainer(x);
    assert r == Pass && source.containers == [x];
    var t := source.TransferContainerBetweenShips(target, "X");
    assert t == Refused(TooManyContainers);
    assert source.containers == [x] && target.containers == [];
  }

  /** A successful transfer moves the first match from one list to the end of
      the other. */
  method TransferScenario()
  {
    var source := new Ship(20.0, 10, 10000.0);
    var target := new Ship(20.0, 10, 10000.0);
    var x := new Container("X", 500.0, 100.0, Basic);
    var y := new Container("Y", 500.0, 100.0, Basic);
    var r := source.LoadContainer(x);
    assert r == Pass && source.containers == [x] && [x][1..] == [];
    assert SumWeights(source.containers) == 100.0;
    r := source.LoadContainer(y);
    assert r == Pass && source.containers == [x, y];
    assert FindIndex([x, y], "Y") == Some(1) by {
      assert [x, y][1..] == [y];
    }
    assert target.Admission(y.weight) == Pass;
    var t := source.TransferContainerBetweenShips(target, "Y");
    assert t == Transferred;
    assert RemoveAt([x, y], 1) == [x];
    assert source.containers == [x] && target.containers == [y];
  }

  /** Transferring a number that is not on board changes neither ship. */
  method TransferNotFoundScenario()
  {
    var source := new Ship(20.0, 10, 10000.0);
    var target := new Ship(20.0, 10, 10000.0);
    var x := new Container("X", 500.0, 100.0, Basic);
    var r := source.LoadContainer(x);
    assert r == Pass && source.containers == [x];
    assert FindIndex([x], "Z") == None;
    var t := source.TransferContainerBetweenShips(target, "Z");
    assert t == NotFound && source.containers == [x] && target.containers == [];
  }

  /** The weight bound holds right after a load but is not kept afterwards:
      replacing a container does not check it. */
  method ReplaceSkipsBoundScenario()
  {
    var ship := new Ship(20.0, 2, 1000.0);
    var a := new Container("A", 5000.0, 100.0, Basic);
    var r := ship.LoadContainer(a);
    assert r == Pass && ship.containers == [a];
    var heavy := new Container("H", 5000.0, 3000.0, Basic);
    ship.ReplaceContainer("A", heavy);
    assert ship.containers == [heavy] && [heavy][1..] == [];
    assert SumWeights(ship.containers) == 3000.0 > ship.maxWeight;
    ship.ReplaceContainer("A", a);
    assert ship.containers == [heavy];
    ship.UnloadContainer("H");
    assert ship.containers == [];
  }

  /** Loading more cargo into a container that is already on board raises the
      ship's total past its bound, because the ship holds the same object. */
  method ReloadOnBoardScenario()
  {
    var ship := new Ship(20.0, 2, 1000.0);
    var a := new Container("A", 5000.0, 100.0, Basic);
    var r := ship.LoadContainer(a);
    assert r == Pass && ship.containers == [a];
    var notified, loaded := a.Load(4000.0);
    assert loaded == Pass && ship.containers == [a] && [a][1..] == [];
    assert SumWeights(ship.containers) == 4100.0 > ship.maxWeight;
  }
}
