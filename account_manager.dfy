/** A model of CAccountManager (LibTrading/AccountManager.cpp): an in-memory
    cache of account advisors kept beside an SQL store.

    The store is reached through ManagerBase helpers (LoadObject, SqlOpOnObject,
    DeleteObject) whose code is not part of this model. Each call to one of them
    is therefore an input: whether it returned normally or threw, and what it
    left in the statement handle whose address it was given. */
module LibTrading {

  /** The four fixed statements of an advisor: GetSqlSelect, GetSqlInsert,
      GetSqlUpdate and GetSqlDelete. */
  datatype StoreOp = Select | Insert | Update | Delete

  /** A compiled statement pointer (sqlite3_stmt*); NoStatement is NULL. */
  datatype Statement = NoStatement | Compiled(id: nat)

  /** The exceptions an operation lets escape. */
  datatype Failure =
    | NotInLocalStorage(op: StoreOp)  // "could not find advisor in local storage"
    | RecordAlreadyExists             // "record already exists"
    | StoreFailed(op: StoreOp)        // whatever the ManagerBase helper threw

  datatype Outcome<T> = Ok(value: T) | Err(failure: Failure)

  datatype Option<T> = None | Some(value: T)

  /** What an operation does to the world outside its return value, in order. */
  datatype Effect =
    | StoreCall(op: StoreOp, key: string, returned: bool)
    | CacheInsert(key: string)
    | CacheErase(key: string)
    | Finalize(statement: Statement)

  /** How a call of SqlOpOnObject or DeleteObject ended, and what it left in
      the statement handle passed to it by address. */
  datatype HelperCall = HelperCall(returned: bool, statement: Statement)

  /** How a call of LoadObject ended. Besides the handle it is given the
      advisor map and the result pointer by reference, so what it leaves in
      both is part of its outcome. */
  datatype LoadCall = LoadCall(
    returned: bool,
    loaded: Option<AccountAdvisor>,
    statement: Statement,
    cache: map<string, AccountAdvisor>)

  /** CAccountAdvisor, as far as this file sees it: built from an id and a name. */
  class AccountAdvisor {
    const advisorId: string
    const name: string

    constructor (advisorId: string, name: string)
      ensures this.advisorId == advisorId && this.name == name
    {
      this.advisorId := advisorId;
      this.name := name;
    }
  }

  /** Every cached advisor is filed under its own id. */
  predicate KeyedById(cache: map<string, AccountAdvisor>) {
    forall k | k in cache :: cache[k].advisorId == k
  }

  /** Some call of `op` on `key` returned normally before position `i`. */
  predicate StoreReturnedBefore(effects: seq<Effect>, i: int, op: StoreOp, key: string) {
    exists j | 0 <= j < i && j < |effects| :: effects[j] == StoreCall(op, key, true)
  }

  /** Every recorded cache insert comes after an insert statement for the
      same key that returned, and every recorded erase after such a delete
      statement. */
  predicate CacheChangesFollowStore(effects: seq<Effect>) {
    forall i | 0 <= i < |effects| ::
      && (effects[i].CacheInsert? ==> StoreReturnedBefore(effects, i, Insert, effects[i].key))
      && (effects[i].CacheErase? ==> StoreReturnedBefore(effects, i, Delete, effects[i].key))
  }

  /** Appending one well-ordered run of effects to another keeps the order. */
  lemma CacheChangesFollowStoreAppend(a: seq<Effect>, b: seq<Effect>)
    requires CacheChangesFollowStore(a) && CacheChangesFollowStore(b)
    ensures CacheChangesFollowStore(a + b)
  {
    var ab := a + b;
    forall i | 0 <= i < |ab|
      ensures ab[i].CacheInsert? ==> StoreReturnedBefore(ab, i, Insert, ab[i].key)
      ensures ab[i].CacheErase? ==> StoreReturnedBefore(ab, i, Delete, ab[i].key)
    {
      if i < |a| {
        assert ab[i] == a[i];
        if a[i].CacheInsert? || a[i].CacheErase? {
          var op := if a[i].CacheInsert? then Insert else Delete;
          var j :| 0 <= j < i && j < |a| && a[j] == StoreCall(op, a[i].key, true);
          assert ab[j] == a[j];
        }
      } else {
        var k := i - |a|;
        assert ab[i] == b[k];
        if b[k].CacheInsert? || b[k].CacheErase? {
          var op := if b[k].CacheInsert? then Insert else Delete;
          var j :| 0 <= j < k && j < |b| && b[j] == StoreCall(op, b[k].key, true);
          assert ab[|a| + j] == b[j];
        }
      }
    }
  }

  /** The result of one operation on the cache: what it returns, the cache it
      leaves and the effects it has, in order. */
  datatype Step<T> = Step(outcome: Outcome<T>, cache: map<string, AccountAdvisor>, effects: seq<Effect>)

  /** AddAccountAdvisor after its existence probe: `made` is the advisor built
      at line 133 and `inserted` says whether the insert statement returned. */
  function AddStep(cache: map<string, AccountAdvisor>, id: string, made: AccountAdvisor, inserted: bool)
    : (r: Step<AccountAdvisor>)
    // the probe never blocks the add: "record already exists" is never raised
    ensures r.outcome != Err(RecordAlreadyExists)
    ensures r.outcome.Ok? <==> inserted
    // the handle returned is the newly built advisor
    ensures r.outcome.Ok? ==> r.outcome.value == made
    ensures !inserted ==> r.outcome == Err(StoreFailed(Insert)) && r.cache == cache
    // std::map::insert never overwrites: earlier entries, this id's included, stay
    ensures forall k | k in cache :: k in r.cache && r.cache[k] == cache[k]
    ensures r.cache.Keys == if inserted then cache.Keys + {id} else cache.Keys
    ensures inserted && id !in cache ==> r.cache[id] == made
    ensures r.cache != cache ==> CacheInsert(id) in r.effects
    ensures CacheChangesFollowStore(r.effects)
    ensures |r.effects| > 0 && r.effects[0] == StoreCall(Insert, id, inserted)
    ensures |r.effects| == if inserted then 2 else 1
    // after a returned insert the only other effect is the cache insert, a no-op when the id is cached
    ensures inserted ==> r.effects[1] == CacheInsert(id)
    ensures KeyedById(cache) && made.advisorId == id ==> KeyedById(r.cache)
  {
    if !inserted then
      Step(Err(StoreFailed(Insert)), cache, [StoreCall(Insert, id, false)])
    else
      var effects := [StoreCall(Insert, id, true), CacheInsert(id)];
      assert effects[0] == StoreCall(Insert, id, true);
      Step(Ok(made), if id in cache then cache else cache[id := made], effects)
  }

  /** UpdateAccountAdvisor: `updated` says whether the update statement returned. */
  function UpdateStep(cache: map<string, AccountAdvisor>, id: string, updated: bool)
    : (r: Step<AccountAdvisor>)
    // the cache gains and loses nothing, whatever happens
    ensures r.cache == cache
    // an id the cache does not hold is refused before the store is reached
    ensures id !in cache ==> r.outcome == Err(NotInLocalStorage(Update)) && r.effects == []
    ensures id in cache ==> r.effects == [StoreCall(Update, id, updated)]
    ensures r.outcome.Ok? <==> id in cache && updated
    // the handle returned is exactly the one cached under the id
    ensures r.outcome.Ok? ==> r.outcome.value == cache[id]
    ensures r.outcome.Ok? && KeyedById(cache) ==> r.outcome.value.advisorId == id
    // a cached id fails only when the update statement threw, and then with that failure
    ensures id in cache && !updated ==> r.outcome == Err(StoreFailed(Update))
  {
    if id !in cache then
      Step(Err(NotInLocalStorage(Update)), cache, [])
    else
      var p := cache[id];
      Step(if updated then Ok(p) else Err(StoreFailed(Update)), cache, [StoreCall(Update, id, updated)])
  }

  /** DeleteAccountAdvisor: `deleted` says whether the delete statement returned. */
  function DeleteStep(cache: map<string, AccountAdvisor>, id: string, deleted: bool): (r: Step<()>)
    ensures id !in cache ==> r.outcome == Err(NotInLocalStorage(Delete)) && r.effects == []
    ensures r.outcome.Ok? <==> id in cache && deleted
    // on success that one key goes and every other entry stays as it was
    ensures r.outcome.Ok? ==> r.cache.Keys == cache.Keys - {id}
    ensures forall k | k in r.cache :: k in cache && r.cache[k] == cache[k]
    ensures forall k | k in cache && k != id :: k in r.cache
    // if the store delete threw, that failure escapes and the entry is still there
    ensures r.outcome.Err? ==> r.cache == cache
    ensures id in cache && !deleted ==> r.outcome == Err(StoreFailed(Delete))
    ensures id in cache ==> |r.effects| == if deleted then 2 else 1
    ensures id in cache ==> |r.effects| > 0 && r.effects[0] == StoreCall(Delete, id, deleted)
    ensures r.cache != cache ==> CacheErase(id) in r.effects
    ensures CacheChangesFollowStore(r.effects)
    ensures KeyedById(cache) ==> KeyedById(r.cache)
  {
    if id !in cache then
      Step(Err(NotInLocalStorage(Delete)), cache, [])
    else if !deleted then
      Step(Err(StoreFailed(Delete)), cache, [StoreCall(Delete, id, false)])
    else
      var effects := [StoreCall(Delete, id, true), CacheErase(id)];
      assert effects[0] == StoreCall(Delete, id, true);
      Step(Ok(()), cache - {id}, effects)
  }

  /** An advisor added under a new id is the one a later update finds. */
  lemma UpdateFindsAddedAdvisor(cache: map<string, AccountAdvisor>, id: string, made: AccountAdvisor, updated: bool)
    requires id !in cache
    ensures var added := AddStep(cache, id, made, true);
            UpdateStep(added.cache, id, updated).outcome == if updated then Ok(made) else Err(StoreFailed(Update))
  {
  }

  /** Adding under an id the cache already holds returns the new advisor,
      while a later update still finds the earlier one: the two handles
      part ways. */
  lemma AddOverCachedIdKeepsEarlier(cache: map<string, AccountAdvisor>, id: string, made: AccountAdvisor)
    requires id in cache && cache[id] != made
    ensures var added := AddStep(cache, id, made, true);
            && added.outcome == Ok(made)
            && added.cache == cache
            && UpdateStep(added.cache, id, true).outcome == Ok(cache[id])
            && UpdateStep(added.cache, id, true).outcome != added.outcome
  {
  }

  /** A second add under the same id is not refused; the cache keeps the first advisor. */
  lemma SecondAddNotRefused(cache: map<string, AccountAdvisor>, id: string, first: AccountAdvisor, second: AccountAdvisor)
    requires id !in cache
    ensures var one := AddStep(cache, id, first, true);
            var two := AddStep(one.cache, id, second, true);
            && two.outcome == Ok(second)
            && two.cache[id] == first
  {
  }

  /** Deleting what was just added under a new id gives back the cache it started from. */
  lemma DeleteUndoesAdd(cache: map<string, AccountAdvisor>, id: string, made: AccountAdvisor)
    requires id !in cache
    ensures var added := AddStep(cache, id, made, true);
            var removed := DeleteStep(added.cache, id, true);
            removed.outcome == Ok(()) && removed.cache == cache
  {
  }

  /** Once deleted, an id is unknown: update and delete are both refused
      before the store is reached, even if the store still held a row. */
  lemma DeletedIdIsUnknown(cache: map<string, AccountAdvisor>, id: string, updated: bool, deleted: bool)
    requires id in cache
    ensures var removed := DeleteStep(cache, id, true);
            && UpdateStep(removed.cache, id, updated) == Step(Err(NotInLocalStorage(Update)), removed.cache, [])
            && DeleteStep(removed.cache, id, deleted) == Step(Err(NotInLocalStorage(Delete)), removed.cache, [])
  {
  }

  /** The statements the destructor hands to sqlite3_finalize, in order. */
  function FinalizeCalls(load: Statement, add: Statement): (r: seq<Statement>)
    // NULL handles are skipped; every non-NULL one is finalized
    ensures NoStatement !in r
    ensures forall s :: s in r <==> s != NoStatement && (s == load || s == add)
    // the load handle goes first
    ensures load != NoStatement ==> |r| > 0 && r[0] == load
    ensures add != NoStatement ==> |r| > 0 && r[|r| - 1] == add
    // each non-NULL handle is finalized once
    ensures |r| == (if load != NoStatement then 1 else 0) + (if add != NoStatement then 1 else 0)
  {
    (if load != NoStatement then [load] else []) + (if add != NoStatement then [add] else [])
  }

  /** One sqlite3_finalize call per statement, in the same order. */
  function FinalizeEffects(statements: seq<Statement>): seq<Effect> {
    seq(|statements|, i requires 0 <= i < |statements| => Finalize(statements[i]))
  }

  /** The entity tables, in the order CreateDbTables creates them. */
  datatype Table =
    | AccountAdvisorTable | AccountOwnerTable | AccountTable
    | PortfolioTable | PositionTable | OrderTable | ExecutionTable

  const TableOrder: seq<Table> :=
    [AccountAdvisorTable, AccountOwnerTable, AccountTable,
     PortfolioTable, PositionTable, OrderTable, ExecutionTable]

  /** How one entity's CreateDbTable call ended. */
  datatype DdlResult = Created | ThrewRuntimeError | ThrewOther

  /** The tables attempted when each is tried in `order` and the first throw
      ends the try block. */
  function TablesAttempted(order: seq<Table>, ddl: Table -> DdlResult): (r: seq<Table>)
    // a prefix of the order, non-empty when the order is
    ensures |r| <= |order| && r == order[..|r|]
    ensures order != [] ==> r != []
    // every table but the last attempted was created
    ensures forall i | 0 <= i < |r| - 1 :: ddl(r[i]) == Created
    // the attempts stop early only at a table that threw
    ensures 0 < |r| < |order| ==> ddl(r[|r| - 1]) != Created
  {
    if order == [] then []
    else if ddl(order[0]) != Created then [order[0]]
    else [order[0]] + TablesAttempted(order[1..], ddl)
  }

  /** When every table is created, all of them are attempted. */
  lemma {:induction false} AllCreatedAllAttempted(order: seq<Table>, ddl: Table -> DdlResult)
    requires forall t | t in order :: ddl(t) == Created
    ensures TablesAttempted(order, ddl) == order
  {
    if order != [] {
      AllCreatedAllAttempted(order[1..], ddl);
    }
  }

  /** The attempts end exactly at the first table that throws. */
  lemma {:induction false} AttemptsEndAtFirstThrow(order: seq<Table>, ddl: Table -> DdlResult, i: nat)
    requires i < |order| && ddl(order[i]) != Created
    requires forall j | 0 <= j < i :: ddl(order[j]) == Created
    ensures TablesAttempted(order, ddl) == order[..i + 1]
  {
    if i > 0 {
      AttemptsEndAtFirstThrow(order[1..], ddl, i - 1);
      assert order[..i + 1] == [order[0]] + order[1..][..i];
    }
  }

  /** CAccountManager. */
  class AccountManager {
    const db: Option<nat>                       // m_pDb; None is NULL
    var advisors: map<string, AccountAdvisor>   // m_mapAccountAdvisor
    var loadStatement: Statement                // pStmtLoadAccountAdvisor
    var addStatement: Statement                 // pStmtAddAccountAdvisor
    var updateStatement: Statement              // pStmtUpdateAccountAdvisor
    var deleteStatement: Statement              // pStmtDeleteAccountAdvisor
    ghost var Trace: seq<Effect>                // everything done so far, in order

    /** Every cache insert or erase that Add and Delete have made came after
        a returned insert or delete statement for that key. What LoadObject
        does to the cache is not recorded in the history. */
    ghost predicate Valid()
      reads this
    {
      CacheChangesFollowStore(Trace)
    }

    /** The default constructor: no database connection. */
    constructor Detached()
      ensures Valid() && db == None && advisors == map[] && Trace == []
      ensures loadStatement == NoStatement && addStatement == NoStatement
    {
      db := None;
      advisors := map[];
      loadStatement, addStatement := NoStatement, NoStatement;
      updateStatement, deleteStatement := NoStatement, NoStatement;
      Trace := [];
    }

    /** The constructor taking a connection, which must not be NULL. */
    constructor (connection: Option<nat>)
      requires connection != None
      ensures Valid() && db == connection && advisors == map[] && Trace == []
      ensures loadStatement == NoStatement && addStatement == NoStatement
    {
      db := connection;
      advisors := map[];
      loadStatement, addStatement := NoStatement, NoStatement;
      updateStatement, deleteStatement := NoStatement, NoStatement;
      Trace := [];
    }

    /** The destructor: finalize each non-NULL load or add handle, then NULL it. */
    method Destroy()
      requires Valid()
      modifies this`loadStatement, this`addStatement, this`Trace
      ensures Valid()
      ensures loadStatement == NoStatement && addStatement == NoStatement
      ensures Trace == old(Trace) + FinalizeEffects(FinalizeCalls(old(loadStatement), old(addStatement)))
    {
      ghost var before, finalized := Trace, FinalizeEffects(FinalizeCalls(loadStatement, addStatement));
      CacheChangesFollowStoreAppend(before, finalized);
      if loadStatement != NoStatement {
        Trace := Trace + [Finalize(loadStatement)];
        loadStatement := NoStatement;
      }
      if addStatement != NoStatement {
        Trace := Trace + [Finalize(addStatement)];
        addStatement := NoStatement;
      }
      assert Trace == before + finalized;
    }

    /** CreateDbTables: each table in turn inside one try block; a
        runtime_error ends the block and is swallowed, any other exception
        escapes. Returns the tables attempted and whether an exception escaped. */
    method CreateDbTables(ddl: Table -> DdlResult) returns (attempted: seq<Table>, escaped: bool)
      ensures attempted == TablesAttempted(TableOrder, ddl)
      // a runtime_error never escapes; anything else thrown does
      ensures escaped <==> ddl(attempted[|attempted| - 1]) == ThrewOther
    {
      escaped := false;
      attempted := [AccountAdvisorTable];
      if ddl(AccountAdvisorTable) != Created {
        escaped := ddl(AccountAdvisorTable) == ThrewOther;
        return;
      }
      attempted := attempted + [AccountOwnerTable];
      if ddl(AccountOwnerTable) != Created {
        escaped := ddl(AccountOwnerTable) == ThrewOther;
        return;
      }
      attempted := attempted + [AccountTable];
      if ddl(AccountTable) != Created {
        escaped := ddl(AccountTable) == ThrewOther;
        return;
      }
      attempted := attempted + [PortfolioTable];
      if ddl(PortfolioTable) != Created {
        escaped := ddl(PortfolioTable) == ThrewOther;
        return;
      }
      attempted := attempted + [PositionTable];
      if ddl(PositionTable) != Created {
        escaped := ddl(PositionTable) == ThrewOther;
        return;
      }
      attempted := attempted + [OrderTable];
      if ddl(OrderTable) != Created {
        escaped := ddl(OrderTable) == ThrewOther;
        return;
      }
      attempted := attempted + [ExecutionTable];
      escaped := ddl(ExecutionTable) == ThrewOther;
    }

    /** GetAccountAdvisor: one LoadObject call, whose outcome is `load`. */
    method GetAccountAdvisor(id: string, load: LoadCall) returns (r: Outcome<Option<AccountAdvisor>>)
      requires Valid()
      modifies this`advisors, this`loadStatement, this`Trace
      ensures Valid()
      ensures advisors == load.cache && loadStatement == load.statement
      ensures Trace == old(Trace) + [StoreCall(Select, id, load.returned)]
      ensures r.Ok? <==> load.returned
      ensures r.Ok? ==> r.value == load.loaded
      ensures r.Err? ==> r.failure == StoreFailed(Select)
    {
      CacheChangesFollowStoreAppend(Trace, [StoreCall(Select, id, load.returned)]);
      advisors := load.cache;
      loadStatement := load.statement;
      Trace := Trace + [StoreCall(Select, id, load.returned)];
      if !load.returned {
        return Err(StoreFailed(Select));
      }
      r := Ok(load.loaded);
    }

    /** AddAccountAdvisor. `probe` is the outcome of the existence probe,
        `insert` that of the insert statement; `made` is the advisor built. */
    method AddAccountAdvisor(id: string, name: string, probe: LoadCall, insert: HelperCall)
      returns (r: Outcome<AccountAdvisor>, ghost made: AccountAdvisor)
      requires Valid()
      modifies this`advisors, this`loadStatement, this`addStatement, this`Trace
      ensures Valid()
      ensures fresh(made) && made.advisorId == id && made.name == name
      ensures loadStatement == probe.statement && addStatement == insert.statement
      ensures var step := AddStep(probe.cache, id, made, insert.returned);
              && r == step.outcome
              && advisors == step.cache
              && Trace == old(Trace) + [StoreCall(Select, id, probe.returned)] + step.effects
      // whatever the probe found, the add is never refused as a duplicate
      ensures r != Err(RecordAlreadyExists)
    {
      var recordExists := false;
      var found := GetAccountAdvisor(id, probe);
      if found.Ok? {
        // a second flag, local to this block: the one tested below stays false
        var recordExists := true;
      }
      if recordExists {
        r := Err(RecordAlreadyExists);
      } else {
        var p := new AccountAdvisor(id, name);
        made := p;
        ghost var before, step := Trace, AddStep(advisors, id, p, insert.returned);
        CacheChangesFollowStoreAppend(before, step.effects);
        addStatement := insert.statement;
        Trace := Trace + [StoreCall(Insert, id, insert.returned)];
        if !insert.returned {
          r := Err(StoreFailed(Insert));
        } else {
          Trace := Trace + [CacheInsert(id)];
          if id !in advisors {
            advisors := advisors[id := p];
          }
          r := Ok(p);
        }
        assert Trace == before + step.effects;
      }
    }

    /** UpdateAccountAdvisor; `update` is the outcome of the update statement. */
    method UpdateAccountAdvisor(id: string, update: HelperCall) returns (r: Outcome<AccountAdvisor>)
      requires Valid()
      modifies this`updateStatement, this`Trace
      ensures Valid()
      ensures var step := UpdateStep(advisors, id, update.returned);
              r == step.outcome && Trace == old(Trace) + step.effects
      ensures updateStatement == if id in advisors then update.statement else old(updateStatement)
    {
      CacheChangesFollowStoreAppend(Trace, UpdateStep(advisors, id, update.returned).effects);
      if id !in advisors {
        return Err(NotInLocalStorage(Update));
      }
      var p := advisors[id];
      updateStatement := update.statement;
      Trace := Trace + [StoreCall(Update, id, update.returned)];
      if !update.returned {
        return Err(StoreFailed(Update));
      }
      r := Ok(p);
    }

    /** DeleteAccountAdvisor; `delete` is the outcome of the delete statement. */
    method DeleteAccountAdvisor(id: string, delete: HelperCall) returns (r: Outcome<()>)
      requires Valid()
      modifies this`advisors, this`deleteStatement, this`Trace
      ensures Valid()
      ensures var step := DeleteStep(old(advisors), id, delete.returned);
              r == step.outcome && advisors == step.cache && Trace == old(Trace) + step.effects
      ensures deleteStatement == if id in old(advisors) then delete.statement else old(deleteStatement)
    {
      ghost var before, step := Trace, DeleteStep(advisors, id, delete.returned);
      CacheChangesFollowStoreAppend(before, step.effects);
      if id !in advisors {
        return Err(NotInLocalStorage(Delete));
      }
      deleteStatement := delete.statement;
      Trace := Trace + [StoreCall(Delete, id, delete.returned)];
      if !delete.returned {
        return Err(StoreFailed(Delete));
      }
      advisors := advisors - {id};
      Trace := Trace + [CacheErase(id)];
      r := Ok(());
      assert Trace == before + step.effects;
    }
  }
  /** A caller's view: add "A1", add "A1" again, update, delete, update again. */
  method AdvisorLifecycle()
  {
    var m := new AccountManager(Some(1));
    var missing := LoadCall(false, None, Compiled(1), map[]);
    var r1, _ := m.AddAccountAdvisor("A1", "Jane Doe", missing, HelperCall(true, Compiled(2)));
    assert r1.Ok?;
    var jane := r1.value;
    assert jane.name == "Jane Doe" && m.advisors == map["A1" := jane];
    // the probe finds the first advisor, yet the second add goes ahead
    var hit := LoadCall(true, Some(jane), Compiled(1), m.advisors);
    var r2, _ := m.AddAccountAdvisor("A1", "Other", hit, HelperCall(true, Compiled(2)));
    assert r2.Ok? && r2.value != jane && r2.value.name == "Other" && m.advisors["A1"] == jane;
    var r3 := m.UpdateAccountAdvisor("A1", HelperCall(true, Compiled(3)));
    assert r3 == Ok(jane);
    var r4 := m.DeleteAccountAdvisor("A1", HelperCall(true, Compiled(4)));
    assert r4 == Ok(()) && m.advisors == map[];
    var r5 := m.UpdateAccountAdvisor("A1", HelperCall(true, Compiled(3)));
    assert r5 == Err(NotInLocalStorage(Update));
    m.Destroy();
    assert m.loadStatement == NoStatement && m.addStatement == NoStatement;
  }
}
