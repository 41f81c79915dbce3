/**
 * The power plant service: simulate an uploaded fleet, replace the stored
 * fleet, and query the stored fleet for its total output or its per-plant
 * state after a number of days. Each query delegates the per-plant energy to
 * the simulator.
 */
module Service {
  import opened Simulator

  /** An uploaded plant record: a name (not necessarily unique) and an age in days. */
  datatype PlantRequest = PlantRequest(name: string, age: int)

  /** A plant of the simulated network, with its age after the simulated days. */
  datatype NetworkEntry = NetworkEntry(name: string, age: int)

  /** Answer to an upload: total energy produced and the aged network, in input order. */
  datatype Response = Response(producedKWh: real, network: seq<NetworkEntry>)

  /** A stored plant (the persisted entity; its id and timestamps are not modelled). */
  datatype PowerPlant = PowerPlant(name: string, age: int)

  /** Per-plant line of the network-state view. */
  datatype PlantOutput = PlantOutput(name: string, age: int, outputInKWh: real)

  /** Largest output `count` plants can produce over `days` days. */
  function FleetBound(count: nat, days: int): real
  {
    count as real * (Horizon(days) as real * MaxDailyKWh)
  }

  /** One more plant raises the fleet bound by one plant's bound. */
  lemma FleetBoundStep(count: nat, days: int)
    ensures FleetBound(count + 1, days) == FleetBound(count, days) + Horizon(days) as real * MaxDailyKWh
  {
  }

  /**
   * Energy produced by the uploaded plants, accumulated in list order:
   * the total after a prefix is the total of that prefix.
   */
  function RequestsOutput(plants: seq<PlantRequest>, days: int): (kwh: real)
    ensures 0.0 <= kwh <= FleetBound(|plants|, days)
  {
    if plants == [] then 0.0
    else
      FleetBoundStep(|plants| - 1, days);
      RequestsOutput(plants[..|plants| - 1], days) + Output(plants[|plants| - 1].age, days)
  }

  /** Energy produced by the stored plants, summed in store order. */
  function FleetOutput(plants: seq<PowerPlant>, days: int): (kwh: real)
    ensures 0.0 <= kwh <= FleetBound(|plants|, days)
  {
    if plants == [] then 0.0
    else
      FleetBoundStep(|plants| - 1, days);
      FleetOutput(plants[..|plants| - 1], days) + Output(plants[|plants| - 1].age, days)
  }

  /** Sum of the per-plant outputs of a network-state view. */
  function SumOutputs(outputs: seq<PlantOutput>): real
  {
    if outputs == [] then 0.0
    else SumOutputs(outputs[..|outputs| - 1]) + outputs[|outputs| - 1].outputInKWh
  }

  /** Entities to store for an uploaded list: same names and ages, same order. */
  function ToEntities(plants: seq<PlantRequest>): (entities: seq<PowerPlant>)
    ensures |entities| == |plants|
    ensures forall i :: 0 <= i < |plants| ==>
      entities[i] == PowerPlant(plants[i].name, plants[i].age)
  {
    if plants == [] then []
    else [PowerPlant(plants[0].name, plants[0].age)] + ToEntities(plants[1..])
  }

  /**
   * The network-state view of a fleet: each plant keeps its place and name,
   * is aged by `days`, and reports the output simulated from its stored age.
   */
  function NetworkState(plants: seq<PowerPlant>, days: int): (outputs: seq<PlantOutput>)
    ensures |outputs| == |plants|
    ensures forall i :: 0 <= i < |plants| ==>
      outputs[i] == PlantOutput(plants[i].name, plants[i].age + days, Output(plants[i].age, days))
  {
    if plants == [] then []
    else [PlantOutput(plants[0].name, plants[0].age + days, Output(plants[0].age, days))]
         + NetworkState(plants[1..], days)
  }

  /** Totals are additive: the total of a list is the total of its parts. */
  lemma {:induction false} RequestsOutputAppend(front: seq<PlantRequest>, back: seq<PlantRequest>, days: int)
    ensures RequestsOutput(front + back, days) == RequestsOutput(front, days) + RequestsOutput(back, days)
    decreases |back|
  {
    if back != [] {
      var rest := back[..|back| - 1];
      assert (front + back)[..|front + back| - 1] == front + rest;
      RequestsOutputAppend(front, rest, days);
    } else {
      assert front + back == front;
    }
  }

  /**
   * Storing an uploaded list and asking for its total over `days` gives
   * the energy the upload itself reports for the same days.
   */
  lemma {:induction false} TotalsAgree(plants: seq<PlantRequest>, days: int)
    ensures FleetOutput(ToEntities(plants), days) == RequestsOutput(plants, days)
    decreases |plants|
  {
    if plants != [] {
      var front := plants[..|plants| - 1];
      TotalsAgree(front, days);
      assert ToEntities(plants)[..|plants| - 1] == ToEntities(front);
    }
  }

  /** The total-output query equals the sum of the network-state view's outputs. */
  lemma {:induction false} TotalIsSumOfNetworkState(plants: seq<PowerPlant>, days: int)
    ensures SumOutputs(NetworkState(plants, days)) == FleetOutput(plants, days)
    decreases |plants|
  {
    if plants != [] {
      var front := plants[..|plants| - 1];
      TotalIsSumOfNetworkState(front, days);
      assert NetworkState(plants, days)[..|plants| - 1] == NetworkState(front, days);
    }
  }

  /** Two stored plants of equal age report equal output, whatever their names. */
  lemma EqualAgesEqualOutputs(plants: seq<PowerPlant>, days: int, i: nat, j: nat)
    requires i < |plants| && j < |plants| && plants[i].age == plants[j].age
    ensures NetworkState(plants, days)[i].outputInKWh == NetworkState(plants, days)[j].outputInKWh
  {
  }

  /**
   * Simulate an uploaded list: every plant is simulated over `days`, its
   * energy added to the running total, and it reappears, in place, aged by
   * `days`.
   */
  method CalculateEnergyProduction(powerPlants: seq<PlantRequest>, days: int) returns (response: Response)
    ensures response.producedKWh == RequestsOutput(powerPlants, days)
    ensures |response.network| == |powerPlants|
    ensures forall i :: 0 <= i < |powerPlants| ==>
      response.network[i] == NetworkEntry(powerPlants[i].name, powerPlants[i].age + days)
  {
    var totalEnergy := 0.0;
    var updatedPowerPlants: seq<NetworkEntry> := [];
    var i := 0;
    while i < |powerPlants|
      invariant 0 <= i <= |powerPlants|
      invariant totalEnergy == RequestsOutput(powerPlants[..i], days)
      invariant |updatedPowerPlants| == i
      invariant forall k :: 0 <= k < i ==>
        updatedPowerPlants[k] == NetworkEntry(powerPlants[k].name, powerPlants[k].age + days)
    {
      var plant := powerPlants[i];
      var energyProduced := CalculatePlantOutput(plant.age, days);
      assert powerPlants[..i + 1][..i] == powerPlants[..i];
      totalEnergy := totalEnergy + energyProduced;
      var newAge := plant.age + days;
      updatedPowerPlants := updatedPowerPlants + [NetworkEntry(plant.name, newAge)];
      i := i + 1;
    }
    assert powerPlants[..i] == powerPlants;
    response := Response(totalEnergy, updatedPowerPlants);
  }

  /** The persisted fleet: an ordered list of stored plants. */
  class PowerPlantRepository {
    var plants: seq<PowerPlant>

    constructor ()
      ensures plants == []
    {
      plants := [];
    }

    method DeleteAll()
      modifies this
      ensures plants == []
    {
      plants := [];
    }

    method SaveAll(entities: seq<PowerPlant>)
      modifies this
      ensures plants == old(plants) + entities
    {
      plants := plants + entities;
    }

    method FindAll() returns (all: seq<PowerPlant>)
      ensures all == plants
    {
      all := plants;
    }
  }

  /** The service over one repository. */
  class PowerPlantService {
    const powerPlantRepository: PowerPlantRepository

    constructor (repository: PowerPlantRepository)
      ensures powerPlantRepository == repository
    {
      powerPlantRepository := repository;
    }

    /**
     * Replace the stored fleet wholesale: afterwards the repository holds
     * exactly the uploaded plants, in order, and nothing it held before.
     */
    method LoadPowerPlantNetwork(plants: seq<PlantRequest>)
      modifies powerPlantRepository
      ensures powerPlantRepository.plants == ToEntities(plants)
    {
      powerPlantRepository.DeleteAll();
      var updatedPowerPlants := ToEntities(plants);
      powerPlantRepository.SaveAll(updatedPowerPlants);
    }

    /** Total energy the stored fleet produces over `days`. */
    method CalculateTotalOutputForTDays(days: int) returns (totalOutput: real)
      ensures totalOutput == FleetOutput(powerPlantRepository.plants, days)
      ensures 0.0 <= totalOutput <= FleetBound(|powerPlantRepository.plants|, days)
    {
      var powerPlants := powerPlantRepository.FindAll();
      totalOutput := FleetOutput(powerPlants, days);
    }

    /** Per-plant state of the stored fleet after `days`, in store order. */
    method GetNetworkStateWithTDays(days: int) returns (powerPlantOutput: seq<PlantOutput>)
      ensures |powerPlantOutput| == |powerPlantRepository.plants|
      ensures forall i :: 0 <= i < |powerPlantOutput| ==>
        var plant := powerPlantRepository.plants[i];
        powerPlantOutput[i] == PlantOutput(plant.name, plant.age + days, Output(plant.age, days))
    {
      var powerPlants := powerPlantRepository.FindAll();
      powerPlantOutput := NetworkState(powerPlants, days);
    }
  }
}
