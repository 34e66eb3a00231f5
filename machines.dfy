/** The static catalogue of placeable machine types (src/data/Machines.ts). */
module Machines {
  import opened Results

  /** One machine type: its id (also its display name), its purchase cost and its sprite path. */
  datatype MachineTypeData = MachineTypeData(id: string, cost: int, spritePath: string)

  const MIXER: MachineTypeData := MachineTypeData("Mixer", 100, "assets/sprites/mixer_placeholder.png")
  const HEATER: MachineTypeData := MachineTypeData("Heater", 300, "assets/sprites/heater_placeholder.png")

  /** The catalogue, keyed by machine type id. */
  const MACHINE_TYPE_DATA: map<string, MachineTypeData> := map["Mixer" := MIXER, "Heater" := HEATER]

  /** Looks a machine type up by id; an unknown id is the error the source throws. */
  function GetMachineTypeData(id: string): (r: Result<MachineTypeData>)
    ensures r.Ok? <==> id in MACHINE_TYPE_DATA
    ensures r.Ok? ==> r.value.id == id
    ensures r.Err? ==> r.message == "Machine type data not found for ID: " + id
  {
    if id in MACHINE_TYPE_DATA then Ok(MACHINE_TYPE_DATA[id])
    else Err("Machine type data not found for ID: " + id)
  }

  /** A Mixer costs 100 and a Heater 300; every catalogued type has a positive cost. */
  lemma MachineCosts(id: string)
    ensures GetMachineTypeData("Mixer") == Ok(MIXER) && MIXER.cost == 100
    ensures GetMachineTypeData("Heater") == Ok(HEATER) && HEATER.cost == 300
    ensures GetMachineTypeData(id).Ok? ==> GetMachineTypeData(id).value.cost > 0
  {
  }
}
