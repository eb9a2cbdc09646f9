/** The session manager (`Session`): picks a storage by selector, delegates
    reads and writes to it, and on construction checks the stored user agent
    against the current request's one before finalising the session id. */
module Session {
  import opened Wrappers
  import opened Values
  import IStorage
  import PhpStorage

  /** The storage selectors. */
  const SESSION_STORAGE_PHP: int := 1
  const SESSION_STORAGE_DB: int := 2
  const SESSION_STORAGE_MEMCACHED: int := 3

  /** The session variable that records the client's user agent. */
  const USER_AGENT: string := "UserAgent"

  /** Which storage class backs the manager. The memcached storage only
      changes where PHP persists the session and inherits every operation
      of the native one. */
  datatype Kind = Native | Memcached

  datatype Backend = Backend(kind: Kind, php: PhpStorage.Storage)

  /** `_storage` (`None` is PHP `null`) and `_sessionId`. */
  datatype Manager = Manager(storage: Option<Backend>, sessionId: string)

  /** The fatal errors PHP raises on the paths the code leaves unguarded. */
  datatype Error =
    | NullStorage         // a method called on a `null` storage
    | BackendUnavailable  // the database storage class, which is not part of this model
    | NotAnArray          // `setVariables(null)` violates its `array` parameter type

  /** The argument of `getSession`: `true`, one name, or an array of names. */
  datatype Query = All | Name(name: string) | Names(names: seq<string>)

  /** What `getSession` returns: one value, or an array of variables. */
  datatype Answer = One(value: Value) | Many(vars: Vars)

  /** The arguments of `setSession`: a name with a value, or an array of pairs. */
  datatype Assignment = Pair(name: string, value: Value) | Batch(vars: Vars)

  /** The outcome of the storage `switch`. */
  datatype Choice = Chosen(backend: Backend) | Unavailable | NoMatch

  /** The manager before its constructor runs. */
  const Fresh: Manager := Manager(None, "")

  /** The variables the manager's storage shows. */
  predicate HasVariables(m: Manager, all: Vars)
  {
    m.storage.Some? && m.storage.value.php.cache == all
  }

  /** The manager's storage, if any, has its cache mirroring the persisted store. */
  predicate StorageConsistent(m: Manager)
  {
    m.storage.Some? ==> PhpStorage.Consistent(m.storage.value.php)
  }

  /** The `switch` over the selector; a new storage starts from the
      persisted `session`. */
  function Choose(selector: int, session: Vars): (c: Choice)
    ensures c.Chosen? <==> selector == SESSION_STORAGE_PHP || selector == SESSION_STORAGE_MEMCACHED
    ensures c.Unavailable? <==> selector == SESSION_STORAGE_DB
    ensures c.Chosen? ==> c.backend.php.cache == session && PhpStorage.Consistent(c.backend.php)
    ensures c.Chosen? ==> (c.backend.kind == Native <==> selector == SESSION_STORAGE_PHP)
  {
    if selector == SESSION_STORAGE_PHP then Chosen(Backend(Native, PhpStorage.Construct(session)))
    else if selector == SESSION_STORAGE_DB then Unavailable
    else if selector == SESSION_STORAGE_MEMCACHED then Chosen(Backend(Memcached, PhpStorage.Construct(session)))
    else NoMatch
  }

  /** `setStorage(selector, copy)`, where `session` is what `$_SESSION`
      holds at the call: the current storage's store when there is one. An
      unknown selector keeps the current storage (possibly `null`); with
      `copy` the old variables are written into whatever storage the slot
      then holds. */
  function SetStorage(m: Manager, selector: int, copy: bool, session: Vars): (r: Result<Manager, Error>)
    requires m.storage.Some? ==> session == m.storage.value.php.store
    ensures selector == SESSION_STORAGE_DB ==> r == Failure(BackendUnavailable)
    ensures r.Success? ==> r.value.sessionId == m.sessionId
    ensures r.Success? && Choose(selector, session).Chosen? ==>
              r.value.storage.Some? && r.value.storage.value.kind == Choose(selector, session).backend.kind
    ensures Choose(selector, session).NoMatch? && (!copy || m.storage.None?) ==> r == Success(m)
    ensures !copy && Choose(selector, session).Chosen? ==>
              r.Success? && HasVariables(r.value, session) && StorageConsistent(r.value)
    ensures copy && m.storage.None? && Choose(selector, session).Chosen? ==> r == Failure(NotAnArray)
    ensures copy && m.storage.Some? && selector != SESSION_STORAGE_DB ==>
              r.Success? && r.value.storage.Some? &&
              IStorage.HoldsVariables(PhpStorage.GetAllVariables(r.value.storage.value.php),
                                      PhpStorage.GetAllVariables(m.storage.value.php))
    // copying into a new storage: the persisted session overlaid with the old variables, in both maps
    ensures copy && m.storage.Some? && Choose(selector, session).Chosen? ==>
              StorageConsistent(r.value) &&
              r.value.storage.value.php.cache == session + m.storage.value.php.cache
    // copying with no match: the old storage keeps its variables and writes them back to the store
    ensures copy && m.storage.Some? && Choose(selector, session).NoMatch? ==>
              r.value.storage.value.kind == m.storage.value.kind &&
              r.value.storage.value.php.cache == m.storage.value.php.cache &&
              IStorage.HoldsVariables(r.value.storage.value.php.store, m.storage.value.php.cache) &&
              r.value.storage.value.php.store - m.storage.value.php.cache.Keys
                == m.storage.value.php.store - m.storage.value.php.cache.Keys
  {
    var oldValues := if copy && m.storage.Some? then Some(PhpStorage.GetAllVariables(m.storage.value.php)) else None;
    match Choose(selector, session)
    case Unavailable => Failure(BackendUnavailable)
    case choice =>
      var storage := if choice.Chosen? then Some(choice.backend) else m.storage;
      if copy && storage.Some? then
        if oldValues.None? then Failure(NotAnArray)
        else
          var b := storage.value;
          Success(Manager(Some(b.(php := PhpStorage.SetVariables(b.php, oldValues.value))), m.sessionId))
      else Success(m.(storage := storage))
  }

  /** `getSession(name)`: `true` returns every variable, anything else goes
      to the storage's `getVariable`. */
  function GetSession(m: Manager, q: Query): (r: Result<Answer, Error>)
    ensures m.storage.None? <==> r == Failure(NullStorage)
    ensures m.storage.Some? && q.All? ==> r == Success(Many(PhpStorage.GetAllVariables(m.storage.value.php)))
    ensures m.storage.Some? && q.Name? ==>
              r == Success(One(PhpStorage.GetVariable(m.storage.value.php, q.name))) &&
              IStorage.ReturnsValue(PhpStorage.GetAllVariables(m.storage.value.php), q.name, r.value.value)
    ensures m.storage.Some? && q.Names? ==>
              r == Success(Many(PhpStorage.GetVariables(m.storage.value.php, q.names))) &&
              r.value.vars.Keys == set n | n in q.names
  {
    if m.storage.None? then Failure(NullStorage)
    else
      var php := m.storage.value.php;
      match q
      case All => Success(Many(PhpStorage.GetAllVariables(php)))
      case Name(name) => Success(One(PhpStorage.GetVariable(php, name)))
      case Names(names) => Success(Many(PhpStorage.GetVariables(php, names)))
  }

  /** `getAllSession`, the alias of `getSession(true)`. */
  function GetAllSession(m: Manager): (r: Result<Vars, Error>)
    ensures m.storage.None? <==> r == Failure(NullStorage)
    ensures m.storage.Some? <==> r.Success?
    ensures r.Success? ==> HasVariables(m, r.value)
  {
    if m.storage.None? then Failure(NullStorage)
    else Success(PhpStorage.GetAllVariables(m.storage.value.php))
  }

  /** `setSession`: an array goes to `setVariables`, a name to `setVariable`. */
  function SetSession(m: Manager, a: Assignment): (r: Result<Manager, Error>)
    ensures m.storage.None? <==> r == Failure(NullStorage)
    ensures m.storage.Some? <==> r.Success?
    ensures r.Success? ==> r.value.storage.Some? && r.value.sessionId == m.sessionId
    ensures r.Success? ==> r.value.storage.value.kind == m.storage.value.kind
    ensures r.Success? && a.Pair? ==>
              IStorage.HoldsVariable(r.value.storage.value.php.cache, a.name, a.value) &&
              IStorage.HoldsVariable(r.value.storage.value.php.store, a.name, a.value) &&
              r.value.storage.value.php.cache - {a.name} == m.storage.value.php.cache - {a.name} &&
              r.value.storage.value.php.store - {a.name} == m.storage.value.php.store - {a.name}
    ensures r.Success? && a.Batch? ==>
              IStorage.HoldsVariables(r.value.storage.value.php.cache, a.vars) &&
              IStorage.HoldsVariables(r.value.storage.value.php.store, a.vars) &&
              r.value.storage.value.php.cache - a.vars.Keys == m.storage.value.php.cache - a.vars.Keys &&
              r.value.storage.value.php.store - a.vars.Keys == m.storage.value.php.store - a.vars.Keys
    ensures StorageConsistent(m) && r.Success? ==> StorageConsistent(r.value)
  {
    if m.storage.None? then Failure(NullStorage)
    else
      var b := m.storage.value;
      var php := match a
        case Batch(vars) => PhpStorage.SetVariables(b.php, vars)
        case Pair(name, value) => PhpStorage.SetVariable(b.php, name, value);
      Success(m.(storage := Some(b.(php := php))))
  }

  /** `_setSessionId(regenerate)`, where `id` is what `session_id()` returns
      once the id has (optionally) been regenerated. Both storage classes
      have `refillSession`, so a regeneration always refills the store. */
  function SetSessionId(m: Manager, regenerate: bool, id: string): (r: Manager)
    ensures r.sessionId == id
    ensures r.storage.Some? <==> m.storage.Some?
    ensures r.storage.Some? ==> r.storage.value.kind == m.storage.value.kind
    ensures r.storage.Some? ==> r.storage.value.php.cache == m.storage.value.php.cache
    ensures regenerate ==> StorageConsistent(r)
    ensures !regenerate ==> r.storage == m.storage
  {
    var storage :=
      if regenerate && m.storage.Some?
      then Some(m.storage.value.(php := PhpStorage.RefillSession(m.storage.value.php)))
      else m.storage;
    Manager(storage, id)
  }

  /** `_checkSession` against the current request's user agent. */
  function CheckSession(m: Manager, agent: string): (r: Result<Manager, Error>)
    ensures m.storage.None? <==> r == Failure(NullStorage)
    ensures m.storage.Some? <==> r.Success?
    ensures r.Success? ==> r.value.sessionId == m.sessionId && r.value.storage.Some?
    ensures r.Success? ==> r.value.storage.value.kind == m.storage.value.kind
    // no user agent recorded: record the current one, nothing else changes
    ensures r.Success? && PhpStorage.GetVariable(m.storage.value.php, USER_AGENT) == False ==>
              IStorage.HoldsVariable(r.value.storage.value.php.cache, USER_AGENT, Str(agent)) &&
              IStorage.HoldsVariable(r.value.storage.value.php.store, USER_AGENT, Str(agent)) &&
              r.value.storage.value.php.cache - {USER_AGENT} == m.storage.value.php.cache - {USER_AGENT} &&
              r.value.storage.value.php.store - {USER_AGENT} == m.storage.value.php.store - {USER_AGENT} &&
              (StorageConsistent(m) ==> StorageConsistent(r.value))
    // the recorded user agent matches: the session is kept as it is
    ensures r.Success? && PhpStorage.GetVariable(m.storage.value.php, USER_AGENT) == Str(agent) ==>
              r == Success(m)
    // a different user agent is recorded: the session is destroyed
    ensures r.Success? && PhpStorage.GetVariable(m.storage.value.php, USER_AGENT) !in {False, Str(agent)} ==>
              IStorage.NoVariables(r.value.storage.value.php.cache) &&
              r.value.storage.value.php.store == m.storage.value.php.store
  {
    if m.storage.None? then Failure(NullStorage)
    else
      var b := m.storage.value;
      var userAgent := PhpStorage.GetVariable(b.php, USER_AGENT);
      if userAgent != False then
        if userAgent == Str(agent) then Success(m)
        else Success(m.(storage := Some(b.(php := PhpStorage.DestroySession(b.php)))))
      else Success(m.(storage := Some(b.(php := PhpStorage.SetVariable(b.php, USER_AGENT, Str(agent))))))
  }

  /** The constructor: set the storage without copying, check the session,
      then regenerate the id and refill the store. `session` is `$_SESSION`
      as the request brings it, `agent` the request's user agent and `id`
      the regenerated session id. */
  function New(selector: int, session: Vars, agent: string, id: string): (r: Result<Manager, Error>)
    ensures r.Success? <==> selector == SESSION_STORAGE_PHP || selector == SESSION_STORAGE_MEMCACHED
    ensures selector == SESSION_STORAGE_DB ==> r == Failure(BackendUnavailable)
    ensures r.Success? ==> r.value.sessionId == id && r.value.storage.Some? && StorageConsistent(r.value)
  {
    var m1 :- SetStorage(Fresh, selector, false, session);
    var m2 :- CheckSession(m1, agent);
    Success(SetSessionId(m2, true, id))
  }

  /** `getSession(true)`, `getAllSession()` and the storage's
      `getAllVariables()` return the same array. */
  lemma AllViewsAgree(m: Manager)
    requires m.storage.Some?
    ensures GetSession(m, All) == Success(Many(PhpStorage.GetAllVariables(m.storage.value.php)))
    ensures GetAllSession(m) == Success(PhpStorage.GetAllVariables(m.storage.value.php))
  {
  }

  /** After the check the session either carries the current user agent or
      holds no variables at all. */
  lemma CheckSessionOutcome(m: Manager, agent: string)
    requires m.storage.Some?
    ensures CheckSession(m, agent).Success?
    ensures var all := CheckSession(m, agent).value.storage.value.php.cache;
            IStorage.HoldsVariable(all, USER_AGENT, Str(agent)) || IStorage.NoVariables(all)
  {
  }

  /** The constructor succeeds exactly for the native and memcached
      selectors, and leaves a consistent storage that either carries the
      current user agent or is empty, under the regenerated id. */
  lemma NewOutcome(selector: int, session: Vars, agent: string, id: string)
    ensures New(selector, session, agent, id).Success? <==>
              selector == SESSION_STORAGE_PHP || selector == SESSION_STORAGE_MEMCACHED
    ensures selector == SESSION_STORAGE_DB ==> New(selector, session, agent, id) == Failure(BackendUnavailable)
    ensures New(selector, session, agent, id).Success? ==>
              var m := New(selector, session, agent, id).value;
              m.sessionId == id && m.storage.Some? && StorageConsistent(m) &&
              (IStorage.HoldsVariable(m.storage.value.php.cache, USER_AGENT, Str(agent)) ||
               IStorage.NoVariables(m.storage.value.php.cache))
  {
  }

  /** A first visit (no user agent in the persisted session) keeps every
      variable and adds the current user agent. */
  lemma NewFirstVisit(selector: int, session: Vars, agent: string, id: string)
    requires selector == SESSION_STORAGE_PHP || selector == SESSION_STORAGE_MEMCACHED
    requires !PhpStorage.IsSet(session, USER_AGENT)
    ensures New(selector, session, agent, id).Success?
    ensures var php := New(selector, session, agent, id).value.storage.value.php;
            php.cache == php.store &&
            IStorage.HoldsVariable(php.cache, USER_AGENT, Str(agent)) &&
            php.cache - {USER_AGENT} == session - {USER_AGENT}
  {
  }

  /** Switching away from a consistent storage, with or without `copy`,
      keeps the visible variables: the new storage reads back the store the
      old one kept in step with its cache. */
  lemma SwitchKeepsVariables(m: Manager, selector: int, copy: bool)
    requires m.storage.Some? && StorageConsistent(m)
    requires selector == SESSION_STORAGE_PHP || selector == SESSION_STORAGE_MEMCACHED
    ensures SetStorage(m, selector, copy, m.storage.value.php.store).Success?
    ensures var m' := SetStorage(m, selector, copy, m.storage.value.php.store).value;
            HasVariables(m', m.storage.value.php.cache) && StorageConsistent(m')
  {
  }

  /** Switching storage with `copy` keeps every old variable readable from
      the new storage, whatever the new storage starts out with. */
  lemma SwitchCopies(m: Manager, selector: int, session: Vars, name: string)
    requires m.storage.Some? && session == m.storage.value.php.store
    requires selector == SESSION_STORAGE_PHP || selector == SESSION_STORAGE_MEMCACHED
    requires name in m.storage.value.php.cache
    ensures SetStorage(m, selector, true, session).Success?
    ensures var m' := SetStorage(m, selector, true, session).value;
            GetSession(m', Name(name)) == GetSession(m, Name(name))
  {
  }
}
