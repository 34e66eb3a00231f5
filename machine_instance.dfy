/** A placed machine and its production state machine (src/MachineInstance.ts).

    `Step` gives the meaning of one `update` tick on a value that holds the machine's status,
    its timer and the shared store's contents; the class `MachineInstance` performs the tick
    in place, through the `Inventory` object's methods, and is proved against `Step`. */
module MachineInstance {
  import opened Results
  import opened Machines
  import opened Recipes
  import opened Inventory

  /** The five states of a machine. */
  datatype MachineStatus = Idle | Processing | BlockedOutput | BlockedInput | NoRecipe

  /** What one tick reads and writes: the status, the countdown in seconds, and the store. */
  datatype Snapshot = Snapshot(status: MachineStatus, timer: real, storage: Storage)

  /** The pre-check of a tick: every input of the recipe is stored in the required amount. */
  predicate AllAvailable(m: Storage, inputs: Amounts)
  {
    forall i :: 0 <= i < |inputs| ==> AmountOf(m, inputs[i].0) >= inputs[i].1
  }

  /** The store after removing `inputs` one after the other; the flag says whether every removal
      was accepted. The first refused removal ends the sequence, and earlier removals stay. */
  function ConsumeInputs(m: Storage, inputs: Amounts): (Storage, bool)
    decreases |inputs|
  {
    if inputs == [] then (m, true)
    else if CanRemove(m, inputs[0].0, inputs[0].1) then
      ConsumeInputs(Withdraw(m, inputs[0].0, inputs[0].1), inputs[1..])
    else (m, false)
  }

  /** The store after adding `outputs` one after the other; the flag says whether every add was
      accepted. The first refused add ends the sequence, and earlier adds stay. */
  ghost function DepositOutputs(m: Storage, capacity: int, outputs: Amounts): (Storage, bool)
    decreases |outputs|
  {
    if outputs == [] then (m, true)
    else if CanAdd(m, capacity, outputs[0].1) then
      DepositOutputs(Deposit(m, outputs[0].0, outputs[0].1), capacity, outputs[1..])
    else (m, false)
  }

  /** The recipe a new machine of this type is assigned: the first recipe for its type, if any. */
  function InitialRecipe(machineType: string): (r: Option<RecipeData>)
    ensures r.None? <==> forall x :: x in RECIPE_DATA ==> x.machineType != machineType
    ensures r.Some? ==> r.value in RECIPE_DATA && r.value.machineType == machineType
    ensures r.Some? ==> exists i :: 0 <= i < |RECIPE_DATA| && RECIPE_DATA[i] == r.value &&
                                    forall j :: 0 <= j < i ==> RECIPE_DATA[j].machineType != machineType
  {
    var availableRecipes := GetRecipesForMachine(machineType);
    if |availableRecipes| > 0 then
      FirstRecipeIsEarliest(machineType);
      Some(availableRecipes[0])
    else None
  }

  /** The status a new machine starts in. */
  function InitialStatus(recipe: Option<RecipeData>): MachineStatus
  {
    if recipe.Some? then Idle else NoRecipe
  }

  /** Finishing a run: add the outputs in order, then Idle if all were accepted and Blocked_Output
      otherwise, with the timer reset to 0 either way. Without a recipe only the status changes. */
  ghost function Finish(recipe: Option<RecipeData>, s: Snapshot, capacity: int): Snapshot
  {
    match recipe
    case None => s.(status := Idle)
    case Some(r) =>
      var (m, added) := DepositOutputs(s.storage, capacity, r.outputs);
      Snapshot(if added then Idle else BlockedOutput, 0.0, m)
  }

  /** One `update(deltaMS)` tick of a machine running `recipe` over a store of the given capacity. */
  ghost function Step(recipe: Option<RecipeData>, s: Snapshot, capacity: int, deltaMS: real): Snapshot
  {
    match s.status
    case NoRecipe => s
    case Idle | BlockedInput =>
      if recipe.None? then s.(status := NoRecipe)
      else if !AllAvailable(s.storage, recipe.value.inputs) then s.(status := Idle)
      else
        var (m, consumed) := ConsumeInputs(s.storage, recipe.value.inputs);
        if consumed then Snapshot(Processing, recipe.value.processingTimeSeconds as real, m)
        else Snapshot(BlockedInput, s.timer, m)
    case Processing =>
      var timer := s.timer - deltaMS / 1000.0;
      if timer <= 0.0 then Finish(recipe, s.(timer := timer), capacity) else s.(timer := timer)
    case BlockedOutput =>
      if s.timer <= 0.0 then Finish(recipe, s, capacity) else s
  }

  /** A machine placed in the factory, drawing on the shared inventory. */
  class MachineInstance {
    const id: string
    const machineType: string
    const machineTypeData: MachineTypeData
    const inventory: Inventory
    const currentRecipe: Option<RecipeData>
    var status: MachineStatus
    var processingTimerSeconds: real

    /** The part of the state one tick reads and writes. */
    ghost function Snap(): Snapshot
      reads this, inventory
    {
      Snapshot(status, processingTimerSeconds, inventory.storage)
    }

    /** A machine of a known type: it runs the first recipe for its type and starts Idle, or
        has no recipe and starts in No_Recipe; the timer starts at 0. */
    constructor (id: string, machineType: string, inventory: Inventory)
      requires GetMachineTypeData(machineType).Ok?
      ensures this.id == id && this.machineType == machineType && this.inventory == inventory
      ensures machineTypeData == GetMachineTypeData(machineType).value
      ensures currentRecipe == InitialRecipe(machineType)
      ensures status == InitialStatus(currentRecipe)
      ensures processingTimerSeconds == 0.0
    {
      this.id := id;
      this.machineType := machineType;
      this.inventory := inventory;
      processingTimerSeconds := 0.0;
      machineTypeData := GetMachineTypeData(machineType).value;
      var availableRecipes := GetRecipesForMachine(machineType);
      if |availableRecipes| > 0 {
        currentRecipe := Some(availableRecipes[0]);
        status := Idle;
      } else {
        currentRecipe := None;
        status := NoRecipe;
      }
    }

    /** The source's constructor, which throws for an unknown machine type. */
    static method Create(id: string, machineType: string, inventory: Inventory) returns (r: Result<MachineInstance>)
      ensures r.Err? <==> GetMachineTypeData(machineType).Err?
      ensures r.Err? ==> r.message == "Invalid machine type \"" + machineType + "\" for machine instance " + id + "."
      ensures r.Ok? ==> fresh(r.value) && r.value.id == id && r.value.machineType == machineType
      ensures r.Ok? ==> r.value.machineTypeData == GetMachineTypeData(machineType).value
      ensures r.Ok? ==> r.value.inventory == inventory && r.value.currentRecipe == InitialRecipe(machineType)
      ensures r.Ok? ==> r.value.status == InitialStatus(r.value.currentRecipe) && r.value.processingTimerSeconds == 0.0
    {
      if GetMachineTypeData(machineType).Err? {
        return Err("Invalid machine type \"" + machineType + "\" for machine instance " + id + ".");
      }
      var m := new MachineInstance(id, machineType, inventory);
      return Ok(m);
    }

    /** One tick of `deltaMS` milliseconds. */
    method Update(deltaMS: real)
      requires inventory.Valid()
      modifies this, inventory
      ensures inventory.Valid() && inventory.maxCapacity == old(inventory.maxCapacity)
      ensures Snap() == Step(currentRecipe, old(Snap()), old(inventory.maxCapacity), deltaMS)
    {
      if status == NoRecipe {
        return;
      }
      if status == Idle || status == BlockedInput {
        if currentRecipe.None? {
          status := NoRecipe;
          return;
        }
        var recipe := currentRecipe.value;
        var inputs := recipe.inputs;
        ghost var m0 := inventory.storage;
        var canConsume := true;
        var i := 0;
        while i < |inputs|
          invariant 0 <= i <= |inputs| && canConsume
          invariant forall j :: 0 <= j < i ==> AmountOf(m0, inputs[j].0) >= inputs[j].1
        {
          if !inventory.HasEnough(inputs[i].0, inputs[i].1) {
            canConsume := false;
            break;
          }
          i := i + 1;
        }
        if canConsume {
          var consumedSuccessfully := true;
          i := 0;
          while i < |inputs|
            invariant 0 <= i <= |inputs| && consumedSuccessfully
            invariant inventory.Valid() && inventory.maxCapacity == old(inventory.maxCapacity)
            invariant ConsumeInputs(inventory.storage, inputs[i..]) == ConsumeInputs(m0, inputs)
            invariant status == old(status) && processingTimerSeconds == old(processingTimerSeconds)
          {
            assert inputs[i..][0] == inputs[i] && inputs[i..][1..] == inputs[i + 1..];
            var removed := inventory.RemoveChemical(inputs[i].0, inputs[i].1);
            if !removed {
              consumedSuccessfully := false;
              break;
            }
            i := i + 1;
          }
          if consumedSuccessfully {
            status := Processing;
            processingTimerSeconds := recipe.processingTimeSeconds as real;
          } else {
            status := BlockedInput;
          }
        } else {
          status := Idle;
        }
      } else if status == Processing {
        processingTimerSeconds := processingTimerSeconds - deltaMS / 1000.0;
        if processingTimerSeconds <= 0.0 {
          FinishProcessing();
        }
      } else if status == BlockedOutput {
        if processingTimerSeconds <= 0.0 {
          FinishProcessing();
        }
      }
    }

    /** Deposits the recipe's outputs in order, stopping at the first refused add. */
    method FinishProcessing()
      requires inventory.Valid()
      modifies this, inventory
      ensures inventory.Valid() && inventory.maxCapacity == old(inventory.maxCapacity)
      ensures Snap() == Finish(currentRecipe, old(Snap()), old(inventory.maxCapacity))
    {
      if currentRecipe.None? {
        status := Idle;
        return;
      }
      var outputs := currentRecipe.value.outputs;
      ghost var m0 := inventory.storage;
      var addedSuccessfully := true;
      var i := 0;
      while i < |outputs|
        invariant 0 <= i <= |outputs| && addedSuccessfully
        invariant inventory.Valid() && inventory.maxCapacity == old(inventory.maxCapacity)
        invariant DepositOutputs(inventory.storage, inventory.maxCapacity, outputs[i..]) ==
                  DepositOutputs(m0, inventory.maxCapacity, outputs)
      {
        assert outputs[i..][0] == outputs[i] && outputs[i..][1..] == outputs[i + 1..];
        var added := inventory.AddChemical(outputs[i].0, outputs[i].1);
        if !added {
          addedSuccessfully := false;
          break;
        }
        i := i + 1;
      }
      if addedSuccessfully {
        status := Idle;
        processingTimerSeconds := 0.0;
      } else {
        status := BlockedOutput;
        processingTimerSeconds := 0.0;
      }
    }
  }
}
