/** The contract every session storage promises (the `iStorage` interface).
    Each predicate states one documented promise in terms of what
    `getAllVariables` shows before and after an operation. */
module IStorage {
  import opened Values

  /** `getVariable(name)` returns the value of the named session variable
      when that variable is set and not `null` (set in `isset`'s sense). */
  predicate ReturnsValue(all: Vars, name: string, r: Value)
  {
    name in all && all[name] != Null ==> r == all[name]
  }

  /** After `setVariable(name, value)` the variable holds `value`. */
  predicate HoldsVariable(all: Vars, name: string, value: Value)
  {
    name in all && all[name] == value
  }

  /** After `setVariables(vars)` every pair of `vars` is set. */
  predicate HoldsVariables(all: Vars, vars: Vars)
  {
    forall name :: name in vars ==> HoldsVariable(all, name, vars[name])
  }

  /** After `removeVariable(name)` the variable is gone. */
  predicate LacksVariable(all: Vars, name: string)
  {
    name !in all
  }

  /** After `removeAllVariables` or `destroySession` no variable is left. */
  predicate NoVariables(all: Vars)
  {
    all == map[]
  }
}
