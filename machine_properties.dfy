/** What a machine's ticks do to its state and to the shared store, proved about `Step`. */
module MachineProperties {
  import opened Results
  import opened Machines
  import opened Recipes
  import opened Inventory
  import opened MachineInstance

  // ---------------------------------------------------------------------------------------
  // Sequences of removals and adds

  /** The store after every one of `a` is withdrawn, in order. */
  function WithdrawAll(m: Storage, a: Amounts): Storage
    decreases |a|
  {
    if a == [] then m else WithdrawAll(Withdraw(m, a[0].0, a[0].1), a[1..])
  }

  /** The store after every one of `a` is deposited, in order. */
  function DepositAll(m: Storage, a: Amounts): Storage
    decreases |a|
  {
    if a == [] then m else DepositAll(Deposit(m, a[0].0, a[0].1), a[1..])
  }

  /** The total amount `a` names for chemical `k`. */
  function AmountIn(a: Amounts, k: string): int
    decreases |a|
  {
    if a == [] then 0 else (if a[0].0 == k then a[0].1 else 0) + AmountIn(a[1..], k)
  }

  /** The total of all amounts in `a`. */
  function Total(a: Amounts): int
    decreases |a|
  {
    if a == [] then 0 else a[0].1 + Total(a[1..])
  }

  lemma {:induction false} TotalNonNegative(a: Amounts)
    requires PositiveAmounts(a)
    ensures Total(a) >= 0
    decreases |a|
  {
    if a != [] {
      TotalNonNegative(a[1..]);
    }
  }

  /** Consuming inputs either removes all of them, or stops at the first refused removal with
      the earlier removals kept. */
  lemma {:induction false} ConsumeStopsAtFirstRefusal(m: Storage, inputs: Amounts)
    ensures ConsumeInputs(m, inputs).1 ==> ConsumeInputs(m, inputs).0 == WithdrawAll(m, inputs)
    ensures !ConsumeInputs(m, inputs).1 ==>
      exists k :: 0 <= k < |inputs| && ConsumeInputs(m, inputs).0 == WithdrawAll(m, inputs[..k]) &&
                  !CanRemove(ConsumeInputs(m, inputs).0, inputs[k].0, inputs[k].1)
    decreases |inputs|
  {
    if inputs == [] {
    } else if CanRemove(m, inputs[0].0, inputs[0].1) {
      var m' := Withdraw(m, inputs[0].0, inputs[0].1);
      var rest := inputs[1..];
      ConsumeStopsAtFirstRefusal(m', rest);
      if !ConsumeInputs(m', rest).1 {
        var k :| 0 <= k < |rest| && ConsumeInputs(m', rest).0 == WithdrawAll(m', rest[..k]) &&
                 !CanRemove(ConsumeInputs(m', rest).0, rest[k].0, rest[k].1);
        assert inputs[..k + 1][0] == inputs[0] && inputs[..k + 1][1..] == rest[..k];
      }
    } else {
      assert inputs[..0] == [];
    }
  }

  /** Adding outputs either adds all of them, or stops at the first refused add with the
      earlier adds kept. */
  lemma {:induction false} DepositStopsAtFirstRefusal(m: Storage, capacity: int, outputs: Amounts)
    ensures DepositOutputs(m, capacity, outputs).1 ==> DepositOutputs(m, capacity, outputs).0 == DepositAll(m, outputs)
    ensures !DepositOutputs(m, capacity, outputs).1 ==>
      exists k :: 0 <= k < |outputs| && DepositOutputs(m, capacity, outputs).0 == DepositAll(m, outputs[..k]) &&
                  !CanAdd(DepositOutputs(m, capacity, outputs).0, capacity, outputs[k].1)
    decreases |outputs|
  {
    if outputs == [] {
    } else if CanAdd(m, capacity, outputs[0].1) {
      var m' := Deposit(m, outputs[0].0, outputs[0].1);
      var rest := outputs[1..];
      DepositStopsAtFirstRefusal(m', capacity, rest);
      if !DepositOutputs(m', capacity, rest).1 {
        var k :| 0 <= k < |rest| && DepositOutputs(m', capacity, rest).0 == DepositAll(m', rest[..k]) &&
                 !CanAdd(DepositOutputs(m', capacity, rest).0, capacity, rest[k].1);
        assert outputs[..k + 1][0] == outputs[0] && outputs[..k + 1][1..] == rest[..k];
      }
    } else {
      assert outputs[..0] == [];
    }
  }

  /** With distinct chemical ids, the sequential removal succeeds exactly when the pre-check
      holds and every amount is positive: after a passed pre-check, only a non-positive amount
      can leave a machine in Blocked_Input. */
  lemma {:induction false} ConsumeSucceedsIff(m: Storage, inputs: Amounts)
    requires AllPositive(m) && DistinctKeys(inputs)
    ensures ConsumeInputs(m, inputs).1 <==> PositiveAmounts(inputs) && AllAvailable(m, inputs)
    decreases |inputs|
  {
    if inputs != [] {
      var (id, n) := inputs[0];
      var rest := inputs[1..];
      if CanRemove(m, id, n) {
        var m' := Withdraw(m, id, n);
        WithdrawEffect(m, id, n);
        assert forall i :: 0 <= i < |rest| ==> rest[i] == inputs[i + 1] && rest[i].0 != id;
        ConsumeSucceedsIff(m', rest);
        assert AllAvailable(m', rest) <==> AllAvailable(m, rest);
        assert PositiveAmounts(inputs) <==> n > 0 && PositiveAmounts(rest);
        assert AllAvailable(m, inputs) <==> AmountOf(m, id) >= n && AllAvailable(m, rest);
      }
    }
  }

  /** Depositing outputs succeeds exactly when every amount is positive and all of them fit
      into the remaining capacity together. */
  lemma {:induction false} DepositSucceedsIff(m: Storage, capacity: int, outputs: Amounts)
    requires Sum(m) <= capacity
    ensures DepositOutputs(m, capacity, outputs).1 <==> PositiveAmounts(outputs) && Sum(m) + Total(outputs) <= capacity
    decreases |outputs|
  {
    if outputs != [] {
      var (id, n) := outputs[0];
      var rest := outputs[1..];
      assert PositiveAmounts(outputs) <==> n > 0 && PositiveAmounts(rest) by {
        assert forall i :: 0 <= i < |rest| ==> rest[i] == outputs[i + 1];
      }
      assert Total(outputs) == n + Total(rest);
      if PositiveAmounts(rest) {
        TotalNonNegative(rest);
      }
      if CanAdd(m, capacity, n) {
        DepositEffect(m, id, n);
        DepositSucceedsIff(Deposit(m, id, n), capacity, rest);
      }
    }
  }

  /** Withdrawing well-formed, available inputs lowers each chemical by exactly its amount in
      the recipe and keeps every entry positive. */
  lemma {:induction false} WithdrawAllAmounts(m: Storage, a: Amounts)
    requires AllPositive(m) && WellFormedAmounts(a) && AllAvailable(m, a)
    ensures AllPositive(WithdrawAll(m, a))
    ensures forall k :: AmountOf(WithdrawAll(m, a), k) == AmountOf(m, k) - AmountIn(a, k)
    decreases |a|
  {
    if a != [] {
      var (id, n) := a[0];
      var rest := a[1..];
      var m' := Withdraw(m, id, n);
      WithdrawEffect(m, id, n);
      assert forall i :: 0 <= i < |rest| ==> rest[i] == a[i + 1] && rest[i].0 != id;
      assert AllAvailable(m', rest);
      WithdrawAllAmounts(m', rest);
    }
  }

  /** Depositing outputs raises each chemical by exactly its amount in `a`, and the load by the total. */
  lemma {:induction false} DepositAllAmounts(m: Storage, a: Amounts)
    ensures forall k :: AmountOf(DepositAll(m, a), k) == AmountOf(m, k) + AmountIn(a, k)
    ensures Sum(DepositAll(m, a)) == Sum(m) + Total(a)
    decreases |a|
  {
    if a != [] {
      DepositEffect(m, a[0].0, a[0].1);
      DepositAllAmounts(Deposit(m, a[0].0, a[0].1), a[1..]);
    }
  }

  lemma {:induction false} ConsumeKeepsValid(m: Storage, capacity: int, inputs: Amounts)
    requires StoreValid(m, capacity)
    ensures StoreValid(ConsumeInputs(m, inputs).0, capacity)
    decreases |inputs|
  {
    if inputs != [] && CanRemove(m, inputs[0].0, inputs[0].1) {
      WithdrawKeepsValid(m, capacity, inputs[0].0, inputs[0].1);
      ConsumeKeepsValid(Withdraw(m, inputs[0].0, inputs[0].1), capacity, inputs[1..]);
    }
  }

  lemma {:induction false} DepositKeepsStoreValid(m: Storage, capacity: int, outputs: Amounts)
    requires StoreValid(m, capacity)
    ensures StoreValid(DepositOutputs(m, capacity, outputs).0, capacity)
    decreases |outputs|
  {
    if outputs != [] && CanAdd(m, capacity, outputs[0].1) {
      DepositKeepsValid(m, capacity, outputs[0].0, outputs[0].1);
      DepositKeepsStoreValid(Deposit(m, outputs[0].0, outputs[0].1), capacity, outputs[1..]);
    }
  }

  // ---------------------------------------------------------------------------------------
  // One tick

  /** A tick keeps the store's invariant (load within capacity, positive entries). */
  lemma StepKeepsStoreValid(recipe: Option<RecipeData>, s: Snapshot, capacity: int, deltaMS: real)
    requires StoreValid(s.storage, capacity)
    ensures StoreValid(Step(recipe, s, capacity, deltaMS).storage, capacity)
  {
    if recipe.Some? {
      ConsumeKeepsValid(s.storage, capacity, recipe.value.inputs);
      DepositKeepsStoreValid(s.storage, capacity, recipe.value.outputs);
    }
  }

  /** The reachable combinations of recipe, status and timer: No_Recipe exactly when there is no
      recipe, a positive timer while Processing, and a zero timer otherwise. */
  ghost predicate Consistent(recipe: Option<RecipeData>, s: Snapshot)
  {
    && (recipe.None? <==> s.status == NoRecipe)
    && (s.status == Processing ==> s.timer > 0.0)
    && (s.status != Processing ==> s.timer == 0.0)
  }

  /** A new machine is in a consistent state. */
  lemma InitialConsistent(machineType: string, m: Storage)
    ensures Consistent(InitialRecipe(machineType), Snapshot(InitialStatus(InitialRecipe(machineType)), 0.0, m))
  {
  }

  /** A tick keeps the state consistent when the recipe has a positive duration; in particular a
      machine in Blocked_Output always has a zero timer, so every tick retries its outputs. */
  lemma StepKeepsConsistent(recipe: Option<RecipeData>, s: Snapshot, capacity: int, deltaMS: real)
    requires recipe.Some? ==> recipe.value.processingTimeSeconds > 0
    requires Consistent(recipe, s)
    ensures Consistent(recipe, Step(recipe, s, capacity, deltaMS))
  {
  }

  /** In Idle or Blocked_Input: with an input short, nothing but the status (now Idle) changes;
      with all inputs available, either all are removed and the machine is Processing with the
      recipe's duration on the timer, or the removal stopped at a refused input, earlier
      removals stay and the machine is Blocked_Input. */
  lemma StepFromIdle(r: RecipeData, s: Snapshot, capacity: int, deltaMS: real)
    requires s.status == Idle || s.status == BlockedInput
    ensures !AllAvailable(s.storage, r.inputs) ==> Step(Some(r), s, capacity, deltaMS) == s.(status := Idle)
    ensures AllAvailable(s.storage, r.inputs) && ConsumeInputs(s.storage, r.inputs).1 ==>
      Step(Some(r), s, capacity, deltaMS) ==
        Snapshot(Processing, r.processingTimeSeconds as real, WithdrawAll(s.storage, r.inputs))
    ensures AllAvailable(s.storage, r.inputs) && !ConsumeInputs(s.storage, r.inputs).1 ==>
      var t := Step(Some(r), s, capacity, deltaMS);
      t.status == BlockedInput && t.timer == s.timer &&
      exists k :: 0 <= k < |r.inputs| && t.storage == WithdrawAll(s.storage, r.inputs[..k]) &&
                  !CanRemove(t.storage, r.inputs[k].0, r.inputs[k].1)
  {
    ConsumeStopsAtFirstRefusal(s.storage, r.inputs);
  }

  /** For a well-formed recipe the Blocked_Input path is never taken: once every input is
      available, the tick removes exactly the recipe's amounts and starts processing. */
  lemma StepStartsWhenInputsAvailable(r: RecipeData, s: Snapshot, capacity: int, deltaMS: real)
    requires s.status == Idle || s.status == BlockedInput
    requires WellFormed(r) && AllPositive(s.storage) && AllAvailable(s.storage, r.inputs)
    ensures Step(Some(r), s, capacity, deltaMS).status == Processing
    ensures Step(Some(r), s, capacity, deltaMS).timer == r.processingTimeSeconds as real
    ensures forall k :: AmountOf(Step(Some(r), s, capacity, deltaMS).storage, k) == AmountOf(s.storage, k) - AmountIn(r.inputs, k)
  {
    ConsumeSucceedsIff(s.storage, r.inputs);
    ConsumeStopsAtFirstRefusal(s.storage, r.inputs);
    WithdrawAllAmounts(s.storage, r.inputs);
  }

  /** While Processing, a tick lowers the timer by deltaMS / 1000 seconds; while that stays
      positive, nothing else changes. */
  lemma StepCountsDown(recipe: Option<RecipeData>, s: Snapshot, capacity: int, deltaMS: real)
    requires s.status == Processing && s.timer - deltaMS / 1000.0 > 0.0
    ensures Step(recipe, s, capacity, deltaMS) == s.(timer := s.timer - deltaMS / 1000.0)
  {
  }

  /** Depositing the outputs at the end of a run (from Processing once the timer reaches 0, or
      from Blocked_Output): the timer becomes 0; the machine is Idle with every output added
      exactly when all outputs are positive and fit together, and otherwise Blocked_Output with
      the outputs before the refused one kept. */
  lemma FinishOutcome(r: RecipeData, s: Snapshot, capacity: int)
    requires Sum(s.storage) <= capacity
    ensures var t := Finish(Some(r), s, capacity);
      && t.timer == 0.0
      && (t.status == Idle <==> PositiveAmounts(r.outputs) && Sum(s.storage) + Total(r.outputs) <= capacity)
      && (t.status == Idle ==> t.storage == DepositAll(s.storage, r.outputs) &&
                               forall k :: AmountOf(t.storage, k) == AmountOf(s.storage, k) + AmountIn(r.outputs, k))
      && (t.status != Idle ==>
            && t.status == BlockedOutput
            && exists k :: 0 <= k < |r.outputs| && t.storage == DepositAll(s.storage, r.outputs[..k]) &&
                           !CanAdd(t.storage, capacity, r.outputs[k].1))
  {
    DepositSucceedsIff(s.storage, capacity, r.outputs);
    DepositStopsAtFirstRefusal(s.storage, capacity, r.outputs);
    DepositAllAmounts(s.storage, r.outputs);
  }

  /** A tick that runs the timer out finishes the run as `FinishOutcome` describes. */
  lemma StepFinishesRun(r: RecipeData, s: Snapshot, capacity: int, deltaMS: real)
    requires s.status == Processing && s.timer - deltaMS / 1000.0 <= 0.0
    requires Sum(s.storage) <= capacity
    ensures Step(Some(r), s, capacity, deltaMS) == Finish(Some(r), s.(timer := s.timer - deltaMS / 1000.0), capacity)
    ensures Step(Some(r), s, capacity, deltaMS).status == Idle <==>
              PositiveAmounts(r.outputs) && Sum(s.storage) + Total(r.outputs) <= capacity
  {
    FinishOutcome(r, s.(timer := s.timer - deltaMS / 1000.0), capacity);
  }

  /** In Blocked_Output with the timer run out, every tick retries the outputs: it leaves for
      Idle exactly when they fit, and otherwise stays Blocked_Output. */
  lemma StepRetriesBlockedOutput(r: RecipeData, s: Snapshot, capacity: int, deltaMS: real)
    requires s.status == BlockedOutput && s.timer <= 0.0
    requires Sum(s.storage) <= capacity
    ensures Step(Some(r), s, capacity, deltaMS) == Finish(Some(r), s, capacity)
    ensures Step(Some(r), s, capacity, deltaMS).status in {Idle, BlockedOutput}
    ensures Step(Some(r), s, capacity, deltaMS).status == Idle <==>
              PositiveAmounts(r.outputs) && Sum(s.storage) + Total(r.outputs) <= capacity
  {
    FinishOutcome(r, s, capacity);
  }

  // ---------------------------------------------------------------------------------------
  // Many ticks

  /** The state after one tick per element of `deltas`, in order. */
  ghost function Run(recipe: Option<RecipeData>, s: Snapshot, capacity: int, deltas: seq<real>): Snapshot
    decreases |deltas|
  {
    if deltas == [] then s else Run(recipe, Step(recipe, s, capacity, deltas[0]), capacity, deltas[1..])
  }

  /** The sum of the tick lengths, in milliseconds. */
  function Elapsed(deltas: seq<real>): real
    decreases |deltas|
  {
    if deltas == [] then 0.0 else deltas[0] + Elapsed(deltas[1..])
  }

  /** Running two batches of ticks is running their concatenation. */
  lemma {:induction false} RunAppend(recipe: Option<RecipeData>, s: Snapshot, capacity: int, a: seq<real>, b: seq<real>)
    ensures Run(recipe, s, capacity, a + b) == Run(recipe, Run(recipe, s, capacity, a), capacity, b)
    decreases |a|
  {
    if a != [] {
      assert (a + b)[0] == a[0] && (a + b)[1..] == a[1..] + b;
      RunAppend(recipe, Step(recipe, s, capacity, a[0]), capacity, a[1..], b);
    } else {
      assert a + b == b;
    }
  }

  /** A machine in No_Recipe never leaves it, and leaves the store alone, whatever the ticks. */
  lemma {:induction false} RunNoRecipe(recipe: Option<RecipeData>, s: Snapshot, capacity: int, deltas: seq<real>)
    requires s.status == NoRecipe
    ensures Run(recipe, s, capacity, deltas) == s
    decreases |deltas|
  {
    if deltas != [] {
      RunNoRecipe(recipe, s, capacity, deltas[1..]);
    }
  }

  /** Over any number of ticks, the store stays valid and the machine's state stays consistent. */
  lemma {:induction false} RunKeepsInvariants(recipe: Option<RecipeData>, s: Snapshot, capacity: int, deltas: seq<real>)
    requires recipe.Some? ==> recipe.value.processingTimeSeconds > 0
    requires Consistent(recipe, s) && StoreValid(s.storage, capacity)
    ensures Consistent(recipe, Run(recipe, s, capacity, deltas))
    ensures StoreValid(Run(recipe, s, capacity, deltas).storage, capacity)
    decreases |deltas|
  {
    if deltas != [] {
      StepKeepsConsistent(recipe, s, capacity, deltas[0]);
      StepKeepsStoreValid(recipe, s, capacity, deltas[0]);
      RunKeepsInvariants(recipe, Step(recipe, s, capacity, deltas[0]), capacity, deltas[1..]);
    }
  }

  lemma {:induction false} ElapsedNonNegative(deltas: seq<real>)
    requires forall i :: 0 <= i < |deltas| ==> deltas[i] >= 0.0
    ensures Elapsed(deltas) >= 0.0
    decreases |deltas|
  {
    if deltas != [] {
      ElapsedNonNegative(deltas[1..]);
    }
  }

  /** A machine Processing keeps counting down, with the store untouched, over non-negative
      ticks that add up to less than its remaining time. */
  lemma {:induction false} RunCountsDown(recipe: Option<RecipeData>, s: Snapshot, capacity: int, deltas: seq<real>)
    requires s.status == Processing
    requires forall i :: 0 <= i < |deltas| ==> deltas[i] >= 0.0
    requires s.timer - Elapsed(deltas) / 1000.0 > 0.0
    ensures Run(recipe, s, capacity, deltas) == s.(timer := s.timer - Elapsed(deltas) / 1000.0)
    decreases |deltas|
  {
    if deltas != [] {
      ElapsedNonNegative(deltas[1..]);
      var s' := s.(timer := s.timer - deltas[0] / 1000.0);
      assert Step(recipe, s, capacity, deltas[0]) == s';
      RunCountsDown(recipe, s', capacity, deltas[1..]);
    }
  }

  // ---------------------------------------------------------------------------------------
  // The catalogue's machines

  /** Every catalogued machine type has a recipe, so a machine built from the catalogue starts
      Idle: a Mixer with 'Mix A to B', a Heater with 'Heat B to C'. */
  lemma KnownTypesStartIdle(machineType: string)
    requires GetMachineTypeData(machineType).Ok?
    ensures InitialRecipe(machineType).Some? && InitialStatus(InitialRecipe(machineType)) == Idle
    ensures machineType == "Mixer" ==> InitialRecipe(machineType) == Some(MIX_A_TO_B)
    ensures machineType == "Heater" ==> InitialRecipe(machineType) == Some(HEAT_B_TO_C)
  {
  }

  /** A Mixer given one unit of Raw Chemical A: the first tick consumes it and starts a 5 second
      run; once the ticks after it add up to 5000 ms, the machine is Idle again and the store
      holds one unit of Product B. */
  lemma MixerProducesProductB(capacity: int, first: real, waits: seq<real>, last: real)
    requires capacity >= 1
    requires forall i :: 0 <= i < |waits| ==> waits[i] >= 0.0
    requires Elapsed(waits) < 5000.0 && Elapsed(waits) + last >= 5000.0
    ensures var s0 := Snapshot(Idle, 0.0, map["Raw Chemical A" := 1]);
      && Step(InitialRecipe("Mixer"), s0, capacity, first) == Snapshot(Processing, 5.0, map[])
      && Run(InitialRecipe("Mixer"), s0, capacity, [first] + waits) ==
           Snapshot(Processing, 5.0 - Elapsed(waits) / 1000.0, map[])
      && Run(InitialRecipe("Mixer"), s0, capacity, [first] + waits + [last]) ==
           Snapshot(Idle, 0.0, map["Product B" := 1])
  {
    KnownTypesStartIdle("Mixer");
    var recipe := Some(MIX_A_TO_B);
    var s0 := Snapshot(Idle, 0.0, map["Raw Chemical A" := 1]);
    assert Withdraw(s0.storage, "Raw Chemical A", 1) == map[];
    var s1 := Snapshot(Processing, 5.0, map[]);
    assert Step(recipe, s0, capacity, first) == s1;
    assert ([first] + waits)[1..] == waits;
    RunCountsDown(recipe, s1, capacity, waits);
    var s2 := s1.(timer := 5.0 - Elapsed(waits) / 1000.0);
    assert Run(recipe, s0, capacity, [first] + waits) == s2;
    assert Sum(map[]) == 0;
    assert Step(recipe, s2, capacity, last) == Snapshot(Idle, 0.0, map["Product B" := 1]);
    RunAppend(recipe, s0, capacity, [first] + waits, [last]);
  }

  /** A Mixer whose run ends while the store is filled to capacity with Product B goes to
      Blocked_Output and keeps the store as it was; it stays there on every tick while the store
      is full, and the first tick after room is freed deposits the Product B and leaves for Idle. */
  lemma MixerBlockedWhileFull(capacity: int, s: Snapshot, deltaMS: real, m: Storage)
    requires capacity >= 1
    requires s.status == Processing && s.timer - deltaMS / 1000.0 <= 0.0
    requires s.storage == map["Product B" := capacity]
    requires StoreValid(m, capacity) && Sum(m) < capacity
    ensures var blocked := Snapshot(BlockedOutput, 0.0, s.storage);
      && Step(InitialRecipe("Mixer"), s, capacity, deltaMS) == blocked
      && Step(InitialRecipe("Mixer"), blocked, capacity, deltaMS) == blocked
      && Step(InitialRecipe("Mixer"), Snapshot(BlockedOutput, 0.0, m), capacity, deltaMS) ==
           Snapshot(Idle, 0.0, Deposit(m, "Product B", 1))
  {
    KnownTypesStartIdle("Mixer");
    SumUpdate(map[], "Product B", capacity);
    assert map[]["Product B" := capacity] == s.storage;
  }

  /** The retry from Blocked_Output restarts from the first output, so the outputs before the
      refused one are added again as long as they fit: with two outputs that never fit together
      at capacity 2, the first finish and one retry each add a unit of the first output, after
      which it no longer fits either and further retries change nothing. (No catalogued recipe
      has two outputs.) */
  lemma RetryRepeatsEarlierOutputs(deltaMS: real)
    ensures var r := RecipeData("Make P and Q", "Maker", [], [("P", 1), ("Q", 2)], 1);
      && Finish(Some(r), Snapshot(Processing, 0.0, map[]), 2) == Snapshot(BlockedOutput, 0.0, map["P" := 1])
      && Step(Some(r), Snapshot(BlockedOutput, 0.0, map["P" := 1]), 2, deltaMS) ==
           Snapshot(BlockedOutput, 0.0, map["P" := 2])
      && Step(Some(r), Snapshot(BlockedOutput, 0.0, map["P" := 2]), 2, deltaMS) ==
           Snapshot(BlockedOutput, 0.0, map["P" := 2])
  {
    SumUpdate(map[], "P", 1);
    assert map[]["P" := 1] == map["P" := 1];
    SumUpdate(map["P" := 1], "P", 2);
    assert map["P" := 1]["P" := 2] == map["P" := 2];
  }
}
