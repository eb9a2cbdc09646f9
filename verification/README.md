# SlaxWeb Session — a Dafny model

This project models the core of the SlaxWeb Session component, a small PHP
session manager. It has two parts.

- The native session storage (`PhpStorage`) implements the storage
  interface (`iStorage`). It keeps every session variable twice: in its own
  cache (the `_variables` property) and in the persisted store (the
  `$_SESSION` superglobal). Reads go to the cache. Writes go to both maps.
- The manager (`Session`) chooses a storage by a numeric selector, with an
  optional copy of the old variables. It passes `getSession`/`setSession`
  calls on to the storage. On construction it runs a hijack check: a
  recorded user agent that differs from the current request's agent
  destroys the session. Then it asks for a new session id and refills the
  store from the cache.

Modules:

- `Wrappers`: `Option` (the `null`-able storage slot) and `Result` (the
  fatal errors PHP raises on unguarded paths).
- `Values`: PHP values, PHP `false` as the sentinel for a missing variable,
  and `Vars`, the array of session variables.
- `IStorage`: the interface's promises as predicates over what
  `getAllVariables` returns. Dafny traits are not used, so the interface is
  a set of predicates that the native storage's operations carry as
  postconditions (`PhpStorage.MeetsInterface` collects them).
- `PhpStorage`: the storage as a pair of maps `(cache, store)`, with the
  invariant `cache == store` (`Consistent`).
- `Session`: the manager as an immutable record `(storage, sessionId)`.

Ambient inputs are explicit parameters: the contents of `$_SESSION`
(`session`), the request's user agent (`agent`) and the id that
`session_id()` returns after regeneration (`id`). The id is opaque. While a
storage is installed, `$_SESSION` is that storage's store, so `setStorage`
is only called with `session` equal to it. This link holds while the PHP
session is active; the gap after a destroy is listed under "Left out".

Notes on what the code does:

- The code has no inactivity timeout and no `LastActiveTime` variable;
  `Session.php:164` only lists the timeout as a TODO.
- The manager has no public remove, destroy or regenerate operation.
- `destroySession` empties the cache and calls `session_destroy()`, which
  deletes the persisted session data but leaves the superglobal
  `$_SESSION` as it is. The model's store is that superglobal, so after a
  destroy the cache is empty while the store still holds the old
  variables. The constructor's refill then writes the empty cache back
  over the superglobal.
- `getVariable` tests with `isset`, so a stored `null` reads back as
  `false`, exactly like a stored `false` and like a missing name.

## Model

| member | source | states |
|---|---|---|
| PhpStorage.Construct | Storage/PhpStorage/PhpStorage.php:184-187 | a new storage's cache is the persisted session, so cache and store agree |
| PhpStorage.GetAllVariables | Storage/PhpStorage/PhpStorage.php:56-59 | returns all session variables; while cache = store holds, that is exactly the persisted session |
| PhpStorage.GetVariable | Storage/PhpStorage/PhpStorage.php:48 | a set, non-null variable is returned as stored; the result is `false` exactly when the name is unset, holds `null`, or holds `false` |
| PhpStorage.GetVariables | Storage/PhpStorage/PhpStorage.php:41-47 | the result's keys are exactly the requested names, each holding what a single-name lookup returns |
| PhpStorage.SetVariable | Storage/PhpStorage/PhpStorage.php:70-76 | the name holds the value in both cache and store, every other entry is unchanged, and cache = store is preserved |
| PhpStorage.SetVariables | Storage/PhpStorage/PhpStorage.php:84-89 | every given pair is set in both maps, names outside the array keep their entries, and cache = store is preserved |
| PhpStorage.SetEach | Storage/PhpStorage/PhpStorage.php:84-89 | calling `setVariable` once per pair, in any order, gives the same storage as `SetVariables` |
| PhpStorage.RemoveVariable | Storage/PhpStorage/PhpStorage.php:96-102 | the name is absent from both maps, every other entry is unchanged, and cache = store is preserved |
| PhpStorage.RemoveAllVariables | Storage/PhpStorage/PhpStorage.php:107-113 | cache and store are both empty |
| PhpStorage.DestroySession | Storage/PhpStorage/PhpStorage.php:118-123 | the cache is empty and the superglobal `$_SESSION` is left as it was |
| PhpStorage.RefillSession | Storage/PhpStorage/PhpStorage.php:130-133 | the store becomes the cache, restoring cache = store, and the visible variables do not change |
| PhpStorage.RunKeepsConsistent | Storage/PhpStorage/PhpStorage.php:70-133 | every run of storage calls without `destroySession` keeps the cache equal to the persisted store |
| PhpStorage.RunEndingInRefill | Storage/PhpStorage/PhpStorage.php:107-133 | any run of storage calls that ends with `refillSession` or `removeAllVariables` leaves the cache equal to the store |
| PhpStorage.MeetsInterface | Storage/iStorage.php:27-72 | the native storage keeps each promise of the interface: get returns the stored value of a set, non-null variable (set in `isset`'s sense), set and set-many make the pairs readable, remove drops the name, remove-all and destroy leave no variables |
| PhpStorage.SentinelCollision | Storage/PhpStorage/PhpStorage.php:48 | a stored `false`, a stored `null` and a removed variable all read back as `false` |
| PhpStorage.GetAfterSet | Storage/iStorage.php:42-48 | after setting a non-null value, getting the name yields that value and every other name reads as before |
| PhpStorage.RemoveIdempotent | Storage/PhpStorage/PhpStorage.php:96-102 | removing a name twice equals removing it once |
| PhpStorage.DestroyThenRefill | Storage/PhpStorage/PhpStorage.php:118-133 | destroying a non-empty consistent storage breaks cache = store; a refill restores it with an empty store |
| Session.Choose | Session.php:74-85 | selectors 1 and 3 build a native or memcached storage from the persisted session, selector 2 names the database storage, and any other selector matches no case |
| Session.SetStorage | Session.php:65-91 | an unknown selector leaves the storage slot unchanged, and with copy the old storage keeps its variables and writes them back to the store; a known one installs a fresh consistent storage holding the persisted session, and with copy from a prior storage that session overlaid with every old pair, still consistent; with copy and no prior storage the `array` parameter of `setVariables` rejects `null` |
| Session.GetSession | Session.php:100-107 | `true` returns all variables; one name returns exactly what the storage's `getVariable` returns for it; a name list returns exactly what the storage's `getVariable` returns for that list, whose keys are the listed names; a null storage is an error |
| Session.GetAllSession | Session.php:116-119 | succeeds exactly when a storage is present and then returns its variables; a null storage is an error |
| Session.SetSession | Session.php:127-134 | succeeds exactly when a storage is present; an array sets every pair and a name sets that one variable, in both cache and store; other entries of both maps, the storage kind and the id are unchanged, and cache = store is preserved |
| Session.SetSessionId | Session.php:143-155 | the id becomes the one `session_id()` returns; a regeneration refills the store from the cache, so cache = store holds afterwards, and the variables do not change |
| Session.CheckSession | Session.php:166-182 | succeeds exactly when a storage is present; no recorded agent: the current agent is recorded and nothing else changes; a matching agent keeps the session unchanged; a different agent destroys the session, leaving no variables |
| Session.AllViewsAgree | Session.php:100-119 | `getSession(true)`, `getAllSession()` and the storage's `getAllVariables()` return the same array |
| Session.CheckSessionOutcome | Session.php:166-182 | after the check the session either records the current agent or holds no variables |
| Session.New | Session.php:47-55 | construction (set storage without copy, check, regenerate and refill) succeeds exactly for selectors 1 and 3, fails with the unavailable database storage for selector 2, and on success leaves a consistent storage under the new id; `NewOutcome` and `NewFirstVisit` state what it holds |
| Session.NewOutcome | Session.php:47-55 | construction (set storage, check, regenerate and refill) succeeds exactly for selectors 1 and 3; it leaves a consistent storage that records the current agent or is empty, under the new id |
| Session.NewFirstVisit | Session.php:47-55 | on a first visit construction keeps every persisted variable and adds the current agent |
| Session.SwitchKeepsVariables | Session.php:65-91 | switching away from a consistent storage, with or without copy, leaves a consistent storage showing the same variables, because the new storage reads the store the old one kept in step |
| Session.SwitchCopies | Session.php:68-90 | switching storage with copy keeps every old variable readable, with the same value |

## Left out

- Storage initialisation (`_init`, Storage/PhpStorage/PhpStorage.php:140-179) is left out. It consists of `ini_set` calls, entropy-file and hash-algorithm lookups, and `session_start`, which are runtime configuration and foreign calls. The `$config` argument only feeds `_init`.
- The constructors of both storage classes are called without the `$config` argument. PHP 5 treats that as a warning and continues, and the model follows PHP 5. Later PHP versions abort with an argument-count error, which is not modelled.
- `session_start`, `session_regenerate_id`, `session_id` and `session_destroy` are treated as external. The id is an opaque parameter. The effect of `session_destroy` and `session_regenerate_id` on the persisted files is abstracted away.
- The database storage class is not part of this model. Selecting it yields the error `BackendUnavailable`.
- The memcached storage (Storage/Memcached/Memcached.php) is left out apart from its kind tag. It only sets ini options and inherits every operation of the native storage.
- The configuration file (config/session.php) is left out. It holds a single literal and no logic.
- PHP array keys are modelled as strings. PHP's conversion of numeric-string keys to integers is not modelled.
- The order of PHP arrays is not modelled. Variables are a map, and `SetEach` shows that the order of `setVariables` does not matter.
- The user agent is modelled as a string. A request without a user-agent header (a `null` agent) is not modelled.
- PHP's loose `==` in the selector `switch` is modelled as integer equality.
- Inactivity timeouts and IP checks are not implemented in the code, so they are not modelled.
- PhpStorage.DestroySession: the store is the superglobal `$_SESSION` only. The deletion of the persisted session data by `session_destroy()`, and the fact that the superglobal is no longer written back after it, are not modelled.
- Session.New: after a destroy on the hijack path there is no active session, so `session_regenerate_id` cannot regenerate the id. The model does not track whether a session is active; it still refills the superglobal and takes `id` as the new id.
- PhpStorage.MeetsInterface: the interface promises that get returns the variable's value, but the native storage returns `false` for a stored `null`. The promise is therefore stated for set, non-null variables only; `SentinelCollision` states the `null` case.
- Session.SetStorage: after a destroy there is no active session, so building a new storage runs `session_start` again (inside `_init`) and reloads `$_SESSION` from the deleted session before the cache is copied. The model does not track whether a session is active; it builds the new storage from the superglobal as it stood, so a variable set after the destroy stays visible in the model although PHP would lose it.
- PhpStorage.GetAfterSet: requires a non-null value, because `isset` makes a stored `null` read back as `false`. `SentinelCollision` states that case.
