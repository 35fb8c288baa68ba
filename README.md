# CAccountManager: the account-advisor cache and its store calls

This project models `CAccountManager` from trade-frame's `LibTrading/AccountManager.cpp`.
The manager keeps an in-memory map from advisor id to advisor handle
(`m_mapAccountAdvisor`) beside an SQLite store. It offers get, add, update and
delete of account advisors. It also holds four prepared-statement pointers and
creates the seven entity tables at startup.

The model is one Dafny module, `LibTrading` (`account_manager.dfy`):

- `AccountManager` is a class with the source's fields: the advisor map, the
  connection, the four statement handles, and a ghost `Trace`. `Trace` records
  every store-helper call, every cache insert and erase that Add and Delete
  make, and every finalize, in order.
  Its methods change exactly the fields the C++ methods change. The object
  invariant `Valid()` says every cache insert or erase that Add and Delete make
  comes after a returned insert or delete statement for that key. What
  `LoadObject` does to the cache is not recorded in the history.
- The store helpers `LoadObject`, `SqlOpOnObject` and `DeleteObject` live in
  `ManagerBase`, which is not part of this model. Each call to one of them is an
  input to the method that makes it: whether it returned or threw, and what it
  left in the statement handle it got by address. For `LoadObject`, the input
  also holds the advisor map and the result pointer, because both are passed to
  it by reference.
- `AddStep`, `UpdateStep` and `DeleteStep` are pure functions that give the
  outcome, the new cache and the effects of each operation. Their contracts
  state the properties. Each class method's `ensures` ties it to its function.
- `AddAccountAdvisor` keeps the source's shadowed flag as written. Line 118
  declares `bExists = false`. Line 122 declares a second `bExists` inside the
  `try` block. So the test at line 128 always reads `false`, and "record already
  exists" is never raised.

Two consequences of the code are worth knowing. First, a second add of an
id that is already cached is not refused, because of the shadowed flag at lines
118-130. Second, `std::map::insert` at line 142 keeps the existing entry, so
the cache keeps the first advisor while the caller gets the new one. See
`SecondAddNotRefused` and `AddOverCachedIdKeepsEarlier`.

`CreateDbTables` wraps all seven table creations in one `try` block (lines
64-86). A `runtime_error` from one table, for example a "table already exists"
on a second run, therefore skips every table after it without a trace. See
`AttemptsEndAtFirstThrow`.

## Model

| member | source | states |
|---|---|---|
| `LibTrading.AddStep` | LibTrading/AccountManager.cpp:133-144 | Add after its probe, on the cache the probe left. It succeeds exactly when the insert statement returned, and it then returns the newly built advisor. If the insert threw, the cache is unchanged. Existing entries are never overwritten, including one under the same id. The id is a key afterwards exactly when the insert returned or the id was already cached. The only store call is the one insert call, which comes first. When it returned, the only other effect is the cache insert (a no-op for a cached id), which comes after it. Keying by id is preserved. |
| `LibTrading.UpdateStep` | LibTrading/AccountManager.cpp:147-164 | Update never adds or removes cache entries. For an id not in the cache it fails with "not in local storage" and runs no store call. Otherwise it runs exactly one update call. It succeeds exactly when the id is cached and that call returned, and it then returns the advisor cached under the id. For a cached id whose update call threw, that store failure is what escapes. |
| `LibTrading.DeleteStep` | LibTrading/AccountManager.cpp:166-179 | For an id not in the cache, delete fails before any store call. It succeeds exactly when the id is cached and the delete call returned. On success exactly that key is removed and every other entry is kept unchanged. If the delete call threw for a cached id, that store failure escapes, the cache is unchanged and the entry is still there. A cached id gets exactly one delete call, and the cache erase comes only after it returned. |
| `LibTrading.FinalizeCalls` | LibTrading/AccountManager.cpp:51-60 | The destructor finalizes exactly the non-NULL load and add handles, each once, the load handle first. NULL handles are skipped. |
| `LibTrading.TablesAttempted` | LibTrading/AccountManager.cpp:62-88 | The tables attempted are a prefix of the fixed order, and this prefix is non-empty. Every table before the last attempted one was created. The attempts stop early only at a table whose creation threw. |
| `LibTrading.AllCreatedAllAttempted` | LibTrading/AccountManager.cpp:76-82 | When every table's creation returns, all seven are attempted in order. |
| `LibTrading.AttemptsEndAtFirstThrow` | LibTrading/AccountManager.cpp:64-86 | The attempts end exactly at the first table whose creation throws. |
| `LibTrading.CacheChangesFollowStoreAppend` | LibTrading/AccountManager.cpp:135-179 | The ordering "every recorded cache insert or erase comes after a returned store call of the same kind and key earlier in the history" is preserved when one operation's effects are appended to the history. This is what keeps `Valid()` across calls. |
| `LibTrading.UpdateFindsAddedAdvisor` | LibTrading/AccountManager.cpp:142-163 | After a successful add under a new id, update returns the advisor that add built. |
| `LibTrading.AddOverCachedIdKeepsEarlier` | LibTrading/AccountManager.cpp:133-144 | Assuming the probe leaves the cache as it was: adding under an id that is already cached returns the new advisor but leaves the cache unchanged. A later update then returns the earlier advisor, which is not the one add returned. |
| `LibTrading.SecondAddNotRefused` | LibTrading/AccountManager.cpp:118-142 | Assuming the second add's probe leaves the cache as it was: two adds under one id whose inserts return both succeed, and the cache keeps the first advisor. That the second add is not refused whatever its probe does is `AddAccountAdvisor`'s contract. |
| `LibTrading.DeleteUndoesAdd` | LibTrading/AccountManager.cpp:142-179 | A successful add under a new id followed by a successful delete restores the original cache. |
| `LibTrading.DeletedIdIsUnknown` | LibTrading/AccountManager.cpp:151-171 | After a successful delete, update and delete of that id both fail with "not in local storage", leave the cache as it is and make no store call. |
| `LibTrading.AccountAdvisor.constructor` | LibTrading/AccountManager.cpp:133 | The advisor is built from the given id and name. |
| `LibTrading.AccountManager.Detached` | LibTrading/AccountManager.cpp:36-41 | The default constructor has no connection, an empty cache, NULL load and add handles and an empty history. |
| `LibTrading.AccountManager.constructor` | LibTrading/AccountManager.cpp:43-49 | The same as the default constructor, but holding the given connection, which must not be NULL. |
| `LibTrading.AccountManager.Destroy` | LibTrading/AccountManager.cpp:51-60 | Afterwards both the load and the add handle are NULL. The history gains exactly the finalize calls of `FinalizeCalls`. The update and delete handles and the cache are untouched. |
| `LibTrading.AccountManager.CreateDbTables` | LibTrading/AccountManager.cpp:62-88 | The tables attempted are `TablesAttempted` of the fixed seven-table order. An exception escapes exactly when the last table attempted threw something other than `runtime_error`, so a `runtime_error` is never propagated. |
| `LibTrading.AccountManager.GetAccountAdvisor` | LibTrading/AccountManager.cpp:98-112 | This is one `LoadObject` call. The cache and the load handle become what that call left. The result is the call's pointer if it returned, and a store failure if it threw. |
| `LibTrading.AccountManager.AddAccountAdvisor` | LibTrading/AccountManager.cpp:114-145 | It runs the probe, then builds a fresh advisor from the id and name, then follows `AddStep` on the cache the probe left. It never fails with "record already exists", whatever the probe found. |
| `LibTrading.AccountManager.UpdateAccountAdvisor` | LibTrading/AccountManager.cpp:147-164 | It follows `UpdateStep` with the cache untouched. The update handle changes only when the id was cached. |
| `LibTrading.AccountManager.DeleteAccountAdvisor` | LibTrading/AccountManager.cpp:166-179 | It follows `DeleteStep`. The delete handle changes only when the id was cached. |

## Left out

- The SQLite API and the code of `ManagerBase`'s `LoadObject`, `SqlOpOnObject` and `DeleteObject` are not part of this model. Each call is an input saying whether it returned or threw and what it left in its statement handle. No store contents are modelled, so reloading an evicted advisor is not modelled either.
- `LibTrading.AccountManager.GetAccountAdvisor`: whether a store hit fills the cache is decided inside `LoadObject`, which is not part of this model. So the cache after the call is an input, and nothing is claimed about it.
- The SQL text (`GetSqlSelect`, `GetSqlInsert`, `GetSqlUpdate`, `GetSqlDelete`) and each entity's `CreateDbTable` DDL are external. Each table creation is an input that says whether it returned, threw `runtime_error`, or threw something else.
- The fields of `CAccountAdvisor` beyond the id and name are not modelled. The row that `UpdateAccountAdvisor` writes from the in-memory fields is not modelled either.
- The `boost::phoenix` factory (line 108) and `shared_ptr` reference counting are not modelled. Advisor handles are object references, so identity is reference identity.
- `sqlite3_finalize`'s return code is ignored by the destructor and is not modelled.
- The constructors at lines 36-49 do not initialise `pStmtUpdateAccountAdvisor` or `pStmtDeleteAccountAdvisor`, and the destructor does not finalize them. Dafny needs a value, so the model starts them as NULL, but the constructors' contracts do not promise it. `Destroy` leaves both untouched.
- The `assert( NULL != pDb )` in the connecting constructor becomes that constructor's precondition.
- `KeyedById` (every cached advisor is filed under its own id) is preserved by `AddStep` and `DeleteStep` and used by `UpdateStep`, but it is not part of the class invariant. `GetAccountAdvisor` takes its cache from `LoadObject`, which is not part of this model, so nothing keeps it across that call.
- Concurrency is not modelled: the source assumes single-threaded use.
