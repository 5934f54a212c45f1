/** `mongomoron/connection.py`: the database connection that runs builders
    against the driver, manages collections and binds a session to a unit of
    work. The builders of `mongomoron/expression.py` are not part of this
    model: a builder here is the plain data the connection reads from it. */
module Connection {
  import opened Driver
  import opened Lifecycle
  import opened Transaction

  /** A named handle on a collection. */
  datatype Collection = Collection(name: string)

  /** The `Union[Collection, str]` accepted by the lifecycle operations. */
  datatype CollectionRef = Handle(handle: Collection) | Name(name: string) {
    function CollectionName(): (n: string)
      ensures Handle? ==> n == handle.name
      ensures Name? ==> n == name
    {
      if Handle? then handle.name else name
    }
  }

  /** What `execute` reads from each builder class. `OtherBuilder` stands for
      an object of any other class. */
  datatype Builder =
    | QueryBuilder(collection: Collection, one: bool, queryFilterDocument: Doc, sortList: seq<Key>)
    | InsertBuilder(collection: Collection, one: bool, documents: seq<Doc>)
    | UpdateBuilder(collection: Collection, one: bool, filterExpression: Doc, updateOperators: Doc, upsert: bool)
    | DeleteBuilder(collection: Collection, filterExpression: Doc)
    | AggregationPipelineBuilder(collection: Collection, pipeline: seq<Doc>)
    | OtherBuilder(typeName: string)

  /** What `create_index` reads from an index builder. */
  datatype IndexBuilder = IndexBuilder(collection: Collection, keys: seq<Key>, isUnique: bool)

  /** The exceptions `execute` raises itself: `NotImplementedError` for an
      unknown builder class, and Python's `IndexError` from `documents[0]`
      on an empty document list. */
  datatype ExecError = NotImplementedError(typeName: string) | IndexError

  /** The driver's reply (document, cursor or result object) to the call at
      position `logIndex` of the connection's log. */
  datatype Reply = Reply(logIndex: nat)

  /** The dispatch table: the collection method each builder kind and `one`
      flag selects, or None for a builder kind `execute` does not know. */
  function Route(b: Builder): Option<string> {
    match b
    case QueryBuilder(_, one, _, _) => Some(if one then "find_one" else "find")
    case InsertBuilder(_, one, _) => Some(if one then "insert_one" else "insert_many")
    case UpdateBuilder(_, one, _, _, _) => Some(if one then "update_one" else "update_many")
    case DeleteBuilder(_, _) => Some("delete_many")
    case AggregationPipelineBuilder(_, _) => Some("aggregate")
    case OtherBuilder(_) => None
  }

  /** Whether `op` carries the builder's own arguments unchanged: its filter,
      its documents (only the first for a single insert), its update
      operators and upsert flag, or its pipeline. */
  predicate Forwards(b: Builder, op: DbOp) {
    match b
    case QueryBuilder(c, _, filter, _) => (op.FindOne? || op.Find?) && op.filter == filter
    case InsertBuilder(c, one, docs) =>
      if one then op.InsertOne? && docs != [] && op.document == docs[0]
      else op.InsertMany? && op.documents == docs
    case UpdateBuilder(c, _, filter, update, upsert) =>
      (op.UpdateOne? || op.UpdateMany?) && op.filter == filter && op.update == update && op.upsert == upsert
    case DeleteBuilder(c, filter) => op.DeleteMany? && op.filter == filter
    case AggregationPipelineBuilder(c, pipeline) => op.Aggregate? && op.pipeline == pipeline
    case OtherBuilder(_) => false
  }

  /** The calls `execute(b)` issues while the session slot holds `session`,
      or the exception it raises before issuing any. */
  function Dispatch(b: Builder, session: Option<Session>): (r: Result<seq<DbOp>, ExecError>)
    // the case split is closed: an unknown kind fails, and so does a single insert of nothing
    ensures r.Err? <==> Route(b) == None || (b.InsertBuilder? && b.one && b.documents == [])
    ensures Route(b) == None ==> r == Err(NotImplementedError(b.typeName))
    ensures b.InsertBuilder? && b.one && b.documents == [] ==> r == Err(IndexError)
    // exactly one database call, of the kind the table selects, on the builder's collection
    ensures r.Ok? ==> |r.value| >= 1 && r.value[0].MethodName() == Route(b).value
    ensures r.Ok? ==> r.value[0].collection == b.collection.name && Forwards(b, r.value[0])
    // followed by a cursor sort only for a many-query with a non-empty sort list
    ensures r.Ok? ==> |r.value| == (if b.QueryBuilder? && !b.one && b.sortList != [] then 2 else 1)
    ensures r.Ok? && |r.value| == 2 ==> r.value[1] == CursorSort(b.sortList)
    // the first call carries the current session unless it is a query; the cursor sort never does
    ensures r.Ok? ==> (r.value[0].TakesSession() <==> !b.QueryBuilder?)
    ensures r.Ok? && r.value[0].TakesSession() ==> r.value[0].session == session
  {
    match b
    case QueryBuilder(c, one, filter, sortList) =>
      if one then Ok([FindOne(c.name, filter)])
      else Ok([Find(c.name, filter)] + if sortList != [] then [CursorSort(sortList)] else [])
    case InsertBuilder(c, one, docs) =>
      if one then
        if docs == [] then Err(IndexError) else Ok([InsertOne(c.name, docs[0], session)])
      else Ok([InsertMany(c.name, docs, session)])
    case UpdateBuilder(c, one, filter, update, upsert) =>
      if one then Ok([UpdateOne(c.name, filter, update, upsert, session)])
      else Ok([UpdateMany(c.name, filter, update, upsert, session)])
    case DeleteBuilder(c, filter) => Ok([DeleteMany(c.name, filter, session)])
    case AggregationPipelineBuilder(c, pipeline) => Ok([Aggregate(c.name, pipeline, session)])
    case OtherBuilder(typeName) => Err(NotImplementedError(typeName))
  }

  /** The debug-log argument for `insert_many`: more than one document is
      shown as the first one followed by an ellipsis marker. */
  function InsertManyLogArgument(documents: seq<Doc>): (shown: seq<Doc>)
    ensures |shown| == if |documents| > 1 then 2 else |documents|
    ensures |documents| <= 1 ==> shown == documents
    ensures |documents| > 1 ==> shown[0] == documents[0] && shown[1] == Str("...")
  {
    if |documents| > 1 then [documents[0], Str("...")] else documents
  }

  /** Which calls are issued, and in what order, does not depend on the
      session slot: with two different sessions the same builder fails alike
      or issues the same methods, and a call without a `session=` argument
      is identical in both. */
  lemma DispatchIgnoresSessionForChoice(b: Builder, s1: Option<Session>, s2: Option<Session>)
    ensures Dispatch(b, s1).Ok? == Dispatch(b, s2).Ok?
    ensures Dispatch(b, s1).Ok? ==>
      |Dispatch(b, s1).value| == |Dispatch(b, s2).value| &&
      forall i :: 0 <= i < |Dispatch(b, s1).value| ==>
        Dispatch(b, s1).value[i].MethodName() == Dispatch(b, s2).value[i].MethodName() &&
        (!Dispatch(b, s1).value[i].TakesSession() ==> Dispatch(b, s1).value[i] == Dispatch(b, s2).value[i])
  {
  }

  /** The connection: the session slot (`threadlocal.session`) and the log of
      the calls issued to the database. `trace` records the calls the
      transaction scope makes on sessions. */
  class DatabaseConnection {
    var slot: Option<Session>
    var log: seq<DbOp>
    ghost var trace: seq<TxEvent>

    constructor ()
      ensures slot == None && log == [] && trace == []
    {
      slot := None;
      log := [];
      trace := [];
    }

    /** The session of the transaction in progress, if any. */
    function CurrentSession(): (s: Option<Session>)
      reads this
      ensures s.Some? <==> slot.Some?
      ensures s.Some? ==> s.value == slot.value
    {
      slot
    }

    /** `_collection_exists`: one round trip listing the collection names. */
    method CollectionExists(name: string, listed: set<string>) returns (exists_: bool)
      modifies this`log
      ensures exists_ <==> name in listed
      ensures log == old(log) + [ListCollectionNames]
    {
      log := log + [ListCollectionNames];
      exists_ := name in listed;
    }

    /** `create_collection`; `listed` is what `list_collection_names()` reports.
        `override` defaults to true, so an existing collection is dropped unless
        the caller says otherwise. */
    method CreateCollection(collection: CollectionRef, listed: set<string>, override: bool := true) returns (c: Collection)
      modifies this`log
      ensures c == Collection(collection.CollectionName())
      ensures log == old(log) + CreateCollectionOps(c.name, override, listed, slot)
    {
      var name := collection.CollectionName();
      if override {
        var found := CollectionExists(name, listed);
        if found {
          log := log + [Drop(name, slot)];
        }
      }
      log := log + [DbOp.CreateCollection(name, slot)];
      c := Collection(name);
    }

    method CreateIndex(builder: IndexBuilder)
      modifies this`log
      ensures log == old(log) + [DbOp.CreateIndex(builder.collection.name, builder.keys, builder.isUnique, slot)]
    {
      log := log + [DbOp.CreateIndex(builder.collection.name, builder.keys, builder.isUnique, slot)];
    }

    method DropCollection(collection: CollectionRef)
      modifies this`log
      ensures log == old(log) + [Drop(collection.CollectionName(), slot)]
    {
      log := log + [Drop(collection.CollectionName(), slot)];
    }

    /** `execute`: issue the calls the builder selects; the reply is the one
      to the first of them (a `find` cursor is returned even after `sort`). */
    method Execute(b: Builder) returns (r: Result<Reply, ExecError>)
      modifies this`log
      ensures Dispatch(b, slot).Err? ==> r == Err(Dispatch(b, slot).error) && log == old(log)
      ensures Dispatch(b, slot).Ok? ==>
        r == Ok(Reply(|old(log)|)) && log == old(log) + Dispatch(b, slot).value
    {
      var calls := Dispatch(b, slot);
      if calls.Err? {
        r := Err(calls.error);
      } else {
        r := Ok(Reply(|log|));
        log := log + calls.value;
      }
    }

    /** The function `transactional(foo)` returns, applied once. `start`,
      `begin`, `commit` and `abort` are how the driver's `start_session`,
      `start_transaction`, `commit_transaction` and `abort_transaction`
      end; `work` is how `foo` ends. */
    method Transactional<R>(start: Outcome<Session>, begin: Outcome<()>, work: Outcome<R>,
                            commit: Outcome<()>, abort: Outcome<()>) returns (r: Outcome<R>)
      modifies this`slot, this`trace
      ensures var run := TxAsWritten(old(slot), start, begin, work, commit, abort);
        slot == run.slotAfter && trace == old(trace) + run.events && r == run.outcome
    {
      trace := trace + [StartSession];
      if start.Raised? {
        r := Raised(start.error);
        return;
      }
      var s := start.value;
      slot := Some(s);
      trace := trace + [StartTransaction(s)];
      if begin.Raised? {
        r := Raised(begin.error);
        return;
      }
      r := TryBlockScope(s, work, commit, abort);
    }

    /** The `try`/`except`/`finally` of `transactional`, entered with session
      `s` in the slot. */
    method TryBlockScope<R>(s: Session, work: Outcome<R>, commit: Outcome<()>, abort: Outcome<()>) returns (r: Outcome<R>)
      requires slot == Some(s)
      modifies this`slot, this`trace
      ensures var run := TryBlock(s, work, commit, abort);
        slot == run.slotAfter && trace == old(trace) + run.events && r == run.outcome
    {
      // try
      trace := trace + [CallWork(slot)];
      var failure: Option<Exception>;
      if work.Raised? {
        failure := Some(work.error);
      } else {
        trace := trace + [CommitTransaction(s)];
        failure := if commit.Raised? then Some(commit.error) else None;
      }
      if failure.None? {
        r := Returned(work.value);
      } else {
        // except Exception as e
        trace := trace + [AbortTransaction(s)];
        r := Raised(if abort.Raised? then abort.error else failure.value);
      }
      // finally
      slot := None;
    }
  }
}
