/** The native PHP session storage (`PhpStorage`). It keeps every variable
    twice: in its own cache (the `_variables` property) and in the persisted
    store (the `$_SESSION` superglobal). Reads go to the cache only. */
module PhpStorage {
  import opened Values
  import IStorage

  /** `cache` is `_variables`; `store` is `$_SESSION` as this storage sees it. */
  datatype Storage = Storage(cache: Vars, store: Vars)

  /** The double-write invariant: the cache mirrors the persisted store. */
  predicate Consistent(s: Storage)
  {
    s.cache == s.store
  }

  /** PHP's `isset($m[$name])`: the key is present and its value is not null. */
  predicate IsSet(m: Vars, name: string)
  {
    name in m && m[name] != Null
  }

  /** Construction copies the whole persisted session into the cache. */
  function Construct(session: Vars): (s: Storage)
    ensures Consistent(s)
    ensures GetAllVariables(s) == session
  {
    Storage(session, session)
  }

  /** `getAllVariables`: the cache, as one array. While the invariant holds
      this is exactly the persisted session. */
  function GetAllVariables(s: Storage): (r: Vars)
    ensures Consistent(s) ==> r == s.store
  {
    s.cache
  }

  /** `getVariable` with a single name: the cached value, or the sentinel
      `false` when the name is not set. */
  function GetVariable(s: Storage, name: string): (r: Value)
    ensures IStorage.ReturnsValue(GetAllVariables(s), name, r)
    ensures r == False <==> !IsSet(s.cache, name) || s.cache[name] == False
  {
    if IsSet(s.cache, name) then s.cache[name] else False
  }

  /** `getVariable` with an array of names: one entry per requested name,
      each holding what `getVariable` returns for that name alone. */
  function GetVariables(s: Storage, names: seq<string>): (r: Vars)
    ensures r.Keys == set n | n in names
    ensures forall n :: n in r ==> r[n] == GetVariable(s, n)
    decreases |names|
  {
    if |names| == 0 then map[]
    else
      var last := names[|names| - 1];
      GetVariables(s, names[..|names| - 1])[last := GetVariable(s, last)]
  }

  /** `setVariable`: writes the variable to both the cache and the store. */
  function SetVariable(s: Storage, name: string, value: Value): (r: Storage)
    ensures IStorage.HoldsVariable(GetAllVariables(r), name, value)
    ensures IStorage.HoldsVariable(r.store, name, value)
    ensures r.cache - {name} == s.cache - {name}
    ensures r.store - {name} == s.store - {name}
    ensures Consistent(s) ==> Consistent(r)
  {
    Storage(s.cache[name := value], s.store[name := value])
  }

  /** `setVariables`: every pair of `vars` is written to both maps; names
      outside `vars` keep their entries. */
  function SetVariables(s: Storage, vars: Vars): (r: Storage)
    ensures IStorage.HoldsVariables(GetAllVariables(r), vars)
    ensures IStorage.HoldsVariables(r.store, vars)
    ensures r.cache - vars.Keys == s.cache - vars.Keys
    ensures r.store - vars.Keys == s.store - vars.Keys
    ensures Consistent(s) ==> Consistent(r)
  {
    Storage(s.cache + vars, s.store + vars)
  }

  /** The `foreach` of `setVariables`: one `setVariable` call per pair, in
      whatever order the array is walked, ends in `SetVariables`. */
  method SetEach(s: Storage, vars: Vars) returns (r: Storage)
    ensures r == SetVariables(s, vars)
  {
    r := s;
    var todo := vars.Keys;
    while todo != {}
      invariant todo <= vars.Keys
      invariant r.cache == s.cache + (vars - todo)
      invariant r.store == s.store + (vars - todo)
      decreases todo
    {
      var name :| name in todo;
      r := SetVariable(r, name, vars[name]);
      todo := todo - {name};
    }
    assert vars - {} == vars;
  }

  /** `removeVariable`: unsets the variable in both maps. */
  function RemoveVariable(s: Storage, name: string): (r: Storage)
    ensures IStorage.LacksVariable(GetAllVariables(r), name)
    ensures name !in r.store
    ensures r.cache - {name} == s.cache - {name}
    ensures r.store - {name} == s.store - {name}
    ensures Consistent(s) ==> Consistent(r)
  {
    Storage(s.cache - {name}, s.store - {name})
  }

  /** `removeAllVariables`: empties the cache and the store. */
  function RemoveAllVariables(s: Storage): (r: Storage)
    ensures IStorage.NoVariables(GetAllVariables(r))
    ensures IStorage.NoVariables(r.store)
    ensures Consistent(r)
  {
    Storage(map[], map[])
  }

  /** `destroySession`: empties the cache only. `session_destroy` ends the
      session but leaves the superglobal as it is. */
  function DestroySession(s: Storage): (r: Storage)
    ensures IStorage.NoVariables(GetAllVariables(r))
    ensures r.store == s.store
  {
    Storage(map[], s.store)
  }

  /** `refillSession`: writes the cache back over the store. */
  function RefillSession(s: Storage): (r: Storage)
    ensures Consistent(r)
    ensures GetAllVariables(r) == GetAllVariables(s)
  {
    Storage(s.cache, s.cache)
  }

  /** One mutating call on the storage. */
  datatype Op =
    | SetOne(name: string, value: Value)
    | SetMany(vars: Vars)
    | Remove(name: string)
    | RemoveAll
    | Destroy
    | Refill

  /** The storage after one call. */
  function Step(s: Storage, op: Op): (r: Storage)
  {
    match op
    case SetOne(name, value) => SetVariable(s, name, value)
    case SetMany(vars) => SetVariables(s, vars)
    case Remove(name) => RemoveVariable(s, name)
    case RemoveAll => RemoveAllVariables(s)
    case Destroy => DestroySession(s)
    case Refill => RefillSession(s)
  }

  /** The storage after a run of calls, first to last. */
  function Run(s: Storage, ops: seq<Op>): (r: Storage)
    decreases |ops|
  {
    if |ops| == 0 then s else Run(Step(s, ops[0]), ops[1..])
  }

  /** Every call except `destroySession` keeps the cache equal to the store,
      so a run without one keeps the invariant throughout. */
  lemma {:induction false} RunKeepsConsistent(s: Storage, ops: seq<Op>)
    requires Consistent(s)
    requires forall i :: 0 <= i < |ops| ==> !ops[i].Destroy?
    ensures Consistent(Run(s, ops))
    decreases |ops|
  {
    if |ops| > 0 {
      assert !ops[0].Destroy?;
      RunKeepsConsistent(Step(s, ops[0]), ops[1..]);
    }
  }

  /** Whatever ran before, a run that ends with `refillSession` or
      `removeAllVariables` leaves the cache equal to the store. */
  lemma {:induction false} RunEndingInRefill(s: Storage, ops: seq<Op>)
    requires |ops| > 0 && (ops[|ops| - 1].Refill? || ops[|ops| - 1].RemoveAll?)
    ensures Consistent(Run(s, ops))
    decreases |ops|
  {
    if |ops| > 1 {
      RunEndingInRefill(Step(s, ops[0]), ops[1..]);
    }
  }

  /** The native storage keeps every promise of the storage interface. */
  lemma MeetsInterface(s: Storage, name: string, value: Value, vars: Vars)
    ensures IStorage.ReturnsValue(GetAllVariables(s), name, GetVariable(s, name))
    ensures IStorage.HoldsVariable(GetAllVariables(SetVariable(s, name, value)), name, value)
    ensures IStorage.HoldsVariables(GetAllVariables(SetVariables(s, vars)), vars)
    ensures IStorage.LacksVariable(GetAllVariables(RemoveVariable(s, name)), name)
    ensures IStorage.NoVariables(GetAllVariables(RemoveAllVariables(s)))
    ensures IStorage.NoVariables(GetAllVariables(DestroySession(s)))
  {
  }

  /** A stored `false`, a stored `null` and a missing variable all read back
      as the same `false`. */
  lemma SentinelCollision(s: Storage, name: string)
    ensures GetVariable(SetVariable(s, name, False), name) == False
    ensures GetVariable(SetVariable(s, name, Null), name) == False
    ensures GetVariable(RemoveVariable(s, name), name) == False
  {
  }

  /** A value other than `null` reads back as written, and no other name's
      reading changes. */
  lemma GetAfterSet(s: Storage, name: string, value: Value, other: string)
    requires value != Null
    requires other != name
    ensures GetVariable(SetVariable(s, name, value), name) == value
    ensures GetVariable(SetVariable(s, name, value), other) == GetVariable(s, other)
  {
  }

  /** Removing a variable twice is the same as removing it once. */
  lemma RemoveIdempotent(s: Storage, name: string)
    ensures RemoveVariable(RemoveVariable(s, name), name) == RemoveVariable(s, name)
  {
  }

  /** Destroying a non-empty consistent storage breaks the invariant; a refill
      restores it with both maps empty. */
  lemma DestroyThenRefill(s: Storage)
    requires Consistent(s)
    requires s.store != map[]
    ensures !Consistent(DestroySession(s))
    ensures Consistent(RefillSession(DestroySession(s)))
    ensures RefillSession(DestroySession(s)).store == map[]
  {
  }
}
