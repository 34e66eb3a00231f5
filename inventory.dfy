/** The shared, capacity-bounded chemical store (src/Inventory.ts).

    The first half gives the store's meaning on plain map values: what an amount, the load,
    a deposit and a withdrawal are, and which of them are allowed. The class `Inventory`
    below keeps the store in a mutable field and is proved against these definitions. */
module Inventory {

  /** Chemical id -> stored amount. */
  type Storage = map<string, int>

  /** The stored amount of a chemical; an id without an entry holds 0. */
  function AmountOf(m: Storage, id: string): int
  {
    if id in m then m[id] else 0
  }

  /** The load: the total number of units stored, over all chemicals. */
  ghost function Sum(m: Storage): int
    decreases |m|
  {
    if m == map[] then 0
    else
      var k :| k in m;
      m[k] + Sum(m - {k})
  }

  /** Zero entries are pruned: every stored amount is positive. */
  ghost predicate AllPositive(m: Storage)
  {
    forall k :: k in m ==> m[k] > 0
  }

  /** The store's invariant: positive entries, a non-negative capacity, and a load within it. */
  ghost predicate StoreValid(m: Storage, capacity: int)
  {
    AllPositive(m) && 0 <= capacity && Sum(m) <= capacity
  }

  /** When an add of `amount` units is accepted. */
  ghost predicate CanAdd(m: Storage, capacity: int, amount: int)
  {
    amount > 0 && Sum(m) + amount <= capacity
  }

  /** When a removal of `amount` units of `id` is accepted. */
  predicate CanRemove(m: Storage, id: string, amount: int)
  {
    amount > 0 && AmountOf(m, id) >= amount
  }

  /** The store after `amount` more units of `id`. */
  function Deposit(m: Storage, id: string, amount: int): Storage
  {
    m[id := AmountOf(m, id) + amount]
  }

  /** The store after `amount` fewer units of `id`; an entry that reaches 0 is deleted. */
  function Withdraw(m: Storage, id: string, amount: int): Storage
  {
    var left := AmountOf(m, id) - amount;
    if left == 0 then m - {id} else m[id := left]
  }

  /** The load may be summed starting from any entry. */
  lemma {:induction false} SumRemove(m: Storage, k: string)
    requires k in m
    ensures Sum(m) == m[k] + Sum(m - {k})
    decreases |m|
  {
    var j :| j in m && Sum(m) == m[j] + Sum(m - {j});
    if j != k {
      var both := m - {j} - {k};
      assert (m - {j}) - {k} == both;
      assert (m - {k}) - {j} == both;
      SumRemove(m - {j}, k);
      SumRemove(m - {k}, j);
    }
  }

  /** The load of a store with positive entries is not negative. */
  lemma {:induction false} SumNonNegative(m: Storage)
    requires AllPositive(m)
    ensures Sum(m) >= 0
    decreases |m|
  {
    if m != map[] {
      var k :| k in m;
      SumRemove(m, k);
      SumNonNegative(m - {k});
    }
  }

  /** Setting one entry changes the load by the difference of the amounts. */
  lemma SumUpdate(m: Storage, k: string, v: int)
    ensures Sum(m[k := v]) == Sum(m) - AmountOf(m, k) + v
  {
    var u := m[k := v];
    SumRemove(u, k);
    if k in m {
      assert u - {k} == m - {k};
      SumRemove(m, k);
    } else {
      assert u - {k} == m;
    }
  }

  /** Deleting one entry lowers the load by its amount. */
  lemma SumDelete(m: Storage, k: string)
    ensures Sum(m - {k}) == Sum(m) - AmountOf(m, k)
  {
    if k in m {
      SumRemove(m, k);
    } else {
      assert m - {k} == m;
    }
  }

  /** A deposit raises the amount of `id` by exactly `amount`, leaves every other amount alone,
      raises the load by `amount`, and keeps the entries positive when `amount` is. */
  lemma DepositEffect(m: Storage, id: string, amount: int)
    ensures AmountOf(Deposit(m, id, amount), id) == AmountOf(m, id) + amount
    ensures forall k :: k != id ==> AmountOf(Deposit(m, id, amount), k) == AmountOf(m, k)
    ensures Sum(Deposit(m, id, amount)) == Sum(m) + amount
    ensures AllPositive(m) && amount > 0 ==> AllPositive(Deposit(m, id, amount))
  {
    SumUpdate(m, id, AmountOf(m, id) + amount);
  }

  /** An accepted withdrawal lowers the amount of `id` by exactly `amount`, leaves every other
      amount alone, lowers the load by `amount`, keeps an entry for `id` only while stock
      remains, and keeps every entry positive. */
  lemma WithdrawEffect(m: Storage, id: string, amount: int)
    requires AllPositive(m) && CanRemove(m, id, amount)
    ensures AmountOf(Withdraw(m, id, amount), id) == AmountOf(m, id) - amount
    ensures forall k :: k != id ==> AmountOf(Withdraw(m, id, amount), k) == AmountOf(m, k)
    ensures Sum(Withdraw(m, id, amount)) == Sum(m) - amount
    ensures id in Withdraw(m, id, amount) <==> AmountOf(m, id) > amount
    ensures AllPositive(Withdraw(m, id, amount))
  {
    var left := AmountOf(m, id) - amount;
    if left == 0 {
      SumDelete(m, id);
    } else {
      SumUpdate(m, id, left);
    }
  }

  /** An accepted add keeps the store valid. */
  lemma DepositKeepsValid(m: Storage, capacity: int, id: string, amount: int)
    requires StoreValid(m, capacity) && CanAdd(m, capacity, amount)
    ensures StoreValid(Deposit(m, id, amount), capacity)
  {
    DepositEffect(m, id, amount);
  }

  /** An accepted removal keeps the store valid. */
  lemma WithdrawKeepsValid(m: Storage, capacity: int, id: string, amount: int)
    requires StoreValid(m, capacity) && CanRemove(m, id, amount)
    ensures StoreValid(Withdraw(m, id, amount), capacity)
  {
    WithdrawEffect(m, id, amount);
  }

  /** Adding n units of a chemical and then removing n units of it restores the store exactly,
      and hence every amount and the load; the removal is never refused. */
  lemma AddRemoveRoundTrip(m: Storage, id: string, amount: int)
    requires AllPositive(m) && amount > 0
    ensures CanRemove(Deposit(m, id, amount), id, amount)
    ensures Withdraw(Deposit(m, id, amount), id, amount) == m
  {
  }

  /** The mutable store: one map of stored amounts and one capacity shared by all chemicals. */
  class Inventory {
    var storage: Storage
    var maxCapacity: int

    /** The object invariant: zero entries pruned, load <= capacity. */
    ghost predicate Valid()
      reads this
    {
      StoreValid(storage, maxCapacity)
    }

    /** The current load. */
    ghost function Load(): int
      reads this
    {
      Sum(storage)
    }

    /** An empty store; a negative capacity is clamped to 0. */
    constructor (maxCapacity: int)
      ensures Valid()
      ensures this.maxCapacity == if maxCapacity < 0 then 0 else maxCapacity
      ensures storage == map[] && Load() == 0
    {
      this.maxCapacity := if maxCapacity < 0 then 0 else maxCapacity;
      storage := map[];
    }

    /** Sums the stored amounts one entry at a time. */
    method GetCurrentLoad() returns (currentLoad: int)
      ensures currentLoad == Load()
    {
      currentLoad := 0;
      var rest := storage;
      while rest != map[]
        invariant currentLoad + Sum(rest) == Sum(storage)
        decreases |rest|
      {
        var k :| k in rest;
        SumRemove(rest, k);
        currentLoad := currentLoad + rest[k];
        rest := rest - {k};
      }
    }

    /** Whether `amountToAdd` more units would go past the capacity. */
    method WouldExceedCapacity(amountToAdd: int) returns (exceeds: bool)
      ensures exceeds <==> Load() + amountToAdd > maxCapacity
    {
      var load := GetCurrentLoad();
      exceeds := load + amountToAdd > maxCapacity;
    }

    /** Adds `amount` units of a chemical, all or nothing. Refused (false, nothing changes) for a
        non-positive amount or when the load would go past the capacity. */
    method AddChemical(chemicalId: string, amount: int) returns (added: bool)
      requires Valid()
      modifies this
      ensures Valid()
      ensures added <==> CanAdd(old(storage), old(maxCapacity), amount)
      ensures storage == if added then Deposit(old(storage), chemicalId, amount) else old(storage)
      ensures maxCapacity == old(maxCapacity)
      ensures added ==> forall k :: GetAmount(k) == old(GetAmount(k)) + (if k == chemicalId then amount else 0)
      ensures Load() == old(Load()) + (if added then amount else 0)
    {
      if amount <= 0 {
        return false;
      }
      var exceeds := WouldExceedCapacity(amount);
      if exceeds {
        return false;
      }
      var currentAmount := GetAmount(chemicalId);
      DepositEffect(storage, chemicalId, amount);
      DepositKeepsValid(storage, maxCapacity, chemicalId, amount);
      storage := storage[chemicalId := currentAmount + amount];
      return true;
    }

    /** Removes `amount` units of a chemical. Refused (false, nothing changes) for a non-positive
        amount or when less than `amount` is stored; an entry that reaches 0 is deleted. */
    method RemoveChemical(chemicalId: string, amount: int) returns (removed: bool)
      requires Valid()
      modifies this
      ensures Valid()
      ensures removed <==> CanRemove(old(storage), chemicalId, amount)
      ensures storage == if removed then Withdraw(old(storage), chemicalId, amount) else old(storage)
      ensures maxCapacity == old(maxCapacity)
      ensures removed ==> forall k :: GetAmount(k) == old(GetAmount(k)) - (if k == chemicalId then amount else 0)
      ensures removed ==> (chemicalId in storage <==> old(GetAmount(chemicalId)) > amount)
      ensures Load() == old(Load()) - (if removed then amount else 0)
    {
      if amount <= 0 {
        return false;
      }
      var currentAmount := GetAmount(chemicalId);
      if currentAmount < amount {
        return false;
      }
      WithdrawEffect(storage, chemicalId, amount);
      WithdrawKeepsValid(storage, maxCapacity, chemicalId, amount);
      var newAmount := currentAmount - amount;
      if newAmount == 0 {
        storage := storage - {chemicalId};
      } else {
        storage := storage[chemicalId := newAmount];
      }
      return true;
    }

    /** The stored amount of a chemical: positive exactly when it has an entry, 0 otherwise. */
    function GetAmount(chemicalId: string): (amount: int)
      reads this
      ensures chemicalId !in storage ==> amount == 0
      ensures Valid() ==> (amount > 0 <==> chemicalId in storage) && amount >= 0
    {
      AmountOf(storage, chemicalId)
    }

    /** Whether at least `amount` units of a chemical are stored. */
    function HasEnough(chemicalId: string, amount: int): (enough: bool)
      reads this
      ensures Valid() ==> (enough <==> amount <= 0 || (chemicalId in storage && storage[chemicalId] >= amount))
    {
      GetAmount(chemicalId) >= amount
    }

    /** Whether the load has reached the capacity; under the invariant, exactly when they are equal. */
    method IsFull() returns (full: bool)
      ensures full <==> Load() >= maxCapacity
      ensures Valid() ==> (full <==> Load() == maxCapacity)
    {
      var load := GetCurrentLoad();
      full := load >= maxCapacity;
    }

    /** The capacity, which bounds the load and is never negative. */
    function GetCapacity(): (capacity: int)
      reads this
      ensures Valid() ==> 0 <= capacity && Load() <= capacity
    {
      maxCapacity
    }

    /** The load, which lies between 0 and the capacity. */
    method GetLoad() returns (load: int)
      ensures load == Load()
      ensures Valid() ==> 0 <= load <= maxCapacity
    {
      load := GetCurrentLoad();
      if Valid() {
        SumNonNegative(storage);
      }
    }

    /** A copy of the stored entries: exactly the chemicals with a positive amount, with their amounts. */
    function GetStoredChemicals(): (stored: Storage)
      reads this
      ensures forall k :: k in stored ==> stored[k] == GetAmount(k)
      ensures Valid() ==> forall k :: k in stored <==> GetAmount(k) > 0
    {
      storage
    }

    /** Raises the capacity by `additionalCapacity`; refused (false, nothing changes) when it is not positive. */
    method IncreaseCapacity(additionalCapacity: int) returns (increased: bool)
      requires Valid()
      modifies this
      ensures Valid()
      ensures increased <==> additionalCapacity > 0
      ensures maxCapacity == old(maxCapacity) + (if increased then additionalCapacity else 0)
      ensures storage == old(storage)
    {
      if additionalCapacity <= 0 {
        return false;
      }
      maxCapacity := maxCapacity + additionalCapacity;
      return true;
    }
  }
}
