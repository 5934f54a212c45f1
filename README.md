# mongomoron: execution dispatcher, collection lifecycle and transaction scope

This project models the core of mongomoron, a Python layer over the MongoDB
driver pymongo. The model covers two source files:

- `mongomoron/connection.py`. This is the `DatabaseConnection` class. It
  dispatches a builder to the one collection method it selects (`execute`).
  It creates, drops and indexes collections. It binds a session to a unit of
  work (`transactional`).
- `mongomoron/mongomoron.py`. This is the earlier API. It has its own
  connection class, tables whose attributes are fields, an index builder
  that appends keys in place, and field-path expressions (`"$" + name`).

The database is not modelled as storage. Each connection object keeps
`log`, the sequence of driver calls (`Driver.DbOp`) it has issued, in order.
Anything the code learns from the driver is a parameter:

- `listed` is the set of names `list_collection_names()` reports.
- In `transactional`, four parameters say how `start_session`,
  `start_transaction`, `commit_transaction` and `abort_transaction` end.
  Each is an `Outcome`: it returns or it raises.
- The wrapped function is modelled only by how it ends.

The session slot is a field `slot: Option<Session>`. The calls the
transaction scope makes on sessions are recorded in a ghost `trace`.

Modules:

- `Driver` (driver.dfy): documents, keys, sessions, the driver calls, and
  `Count`.
- `Lifecycle` (lifecycle.dfy): the drop-then-create rule that both
  connection classes follow.
- `Transaction` (transaction.dfy): the transaction scope as pure functions,
  once as written and once corrected.
- `Connection` (connection.dfy): models `connection.py`.
- `Mongomoron` (mongomoron.dfy): models `mongomoron.py`.

Behaviour of the code worth noting:

- `find_one`, `find`, the cursor `sort` and `list_collection_names()` are
  issued without a session; every other call forwards the current one. So
  inside a transaction, the existence check of `create_collection` reads
  outside it.
- A single insert with no documents fails with Python's `IndexError` from `documents[0]`, before
  any call is issued. A many-insert forwards whatever list it has.
- A sort list on a single-document query is not rejected. It is ignored.
- If `abort_transaction()` raises, its exception propagates instead of the
  original one. Python chains the original exception, but it is not the
  one raised.
- A failed `commit_transaction()` is caught by the same `except` clause.
  The transaction is then aborted and the commit's exception is re-raised.
- `drop_collection` always issues one drop, whether or not the collection
  exists. The connection does not check.
- `create_collection` overrides by default (`override` defaults to true in
  both connection classes), so a plain `create_collection(name)` drops an
  existing collection first. The model keeps that default.

## Model

| member | source | states |
|---|---|---|
| `Lifecycle.CreateCollectionOps` | mongomoron/connection.py:42-50 | Creating a collection issues a drop iff `override` is set and the name is listed, and then on that name. It always issues exactly one create, last. The listing is requested iff `override` is set, and then first. Nothing else is issued. |
| `Connection.CollectionRef.CollectionName` | mongomoron/connection.py:44-46 | A collection handle gives its own name; a plain string is the name itself. |
| `Connection.Dispatch` | mongomoron/connection.py:63-121 | `execute` fails iff the builder kind is unknown (NotImplementedError, naming the class) or it is a single insert with no documents (IndexError). Otherwise it issues exactly one call, of the kind the `Route` table picks for the builder kind and `one` flag, on the builder's collection. The builder's filter, documents, update operators, upsert flag or pipeline are forwarded unchanged. A cursor sort follows iff it is a many-query with a non-empty sort list. The first call carries the current session unless it is a query (`find_one` or `find`), which carries none; the cursor sort carries none either. |
| `Connection.InsertManyLogArgument` | mongomoron/connection.py:86-88 | The logged insert_many argument is the list itself when it has at most one document. Otherwise it is exactly the first document followed by an ellipsis marker. |
| `Connection.DispatchIgnoresSessionForChoice` | mongomoron/connection.py:63-121 | Which calls are issued, and in what order, does not depend on the session slot; calls without a `session=` argument are identical whatever the slot holds. |
| `Connection.DatabaseConnection.constructor` | mongomoron/connection.py:22-26 | A new connection has an empty session slot and has issued nothing. |
| `Connection.DatabaseConnection.CurrentSession` | mongomoron/connection.py:39-40 | `session()` is the slot's session when it holds one, and None when the slot is empty. |
| `Connection.DatabaseConnection.CollectionExists` | mongomoron/connection.py:147-148 | The answer is whether the name is listed. Asking costs exactly one listing call. |
| `Connection.DatabaseConnection.CreateCollection` | mongomoron/connection.py:42-50 | The log grows by exactly the calls `CreateCollectionOps` gives for the current session, with `override` true unless given. The handle returned names the collection asked for, whether it was given by handle or by name. |
| `Connection.DatabaseConnection.CreateIndex` | mongomoron/connection.py:52-55 | Issues exactly one create_index on the builder's collection, with its keys, its uniqueness flag and the current session. |
| `Connection.DatabaseConnection.DropCollection` | mongomoron/connection.py:57-61 | Issues exactly one drop, on the named collection, with the current session. |
| `Connection.DatabaseConnection.Execute` | mongomoron/connection.py:63-121 | When `Dispatch` fails, the same error is returned and nothing is issued. Otherwise the calls are appended to the log in order, and the reply returned is the one to the first of them. |
| `Connection.DatabaseConnection.Transactional` | mongomoron/connection.py:123-145 | Slot, session calls and outcome are exactly those `TxAsWritten` gives for the slot's previous content. |
| `Connection.DatabaseConnection.TryBlockScope` | mongomoron/connection.py:134-142 | The `try`/`except`/`finally` of `transactional`, run with the session in the slot: slot, session calls in order and outcome are exactly those `TryBlock` gives. |
| `Transaction.TryBlock` | mongomoron/connection.py:134-142 | Once inside the `try`, the slot is empty on every exit path and the work runs once with the session in the slot. Success means commit once, no abort, and the work's value returned. A raising work means abort once, no commit, and the same exception re-raised (or abort's own). A raising commit means it is aborted once and the commit's exception is re-raised. The order is fixed: the work first, then the commit if the work returned, then the abort if anything raised, and nothing else. |
| `Transaction.TxAsWritten` | mongomoron/connection.py:131-142 | The whole scope. If start_session raises, the slot is untouched and nothing else is called. Otherwise start_transaction is called once, on the new session, right after it; every later call is the work, a commit or an abort on that same session. Once the transaction has begun, the slot is empty on exit, the work runs once, and every call after start_transaction, in order, and the outcome are exactly those of `TryBlock`. The scope returns iff every step returned, and then with the work's value. |
| `Transaction.StartTransactionFailureLeavesSession` | mongomoron/connection.py:132-134 | When start_transaction raises, the scope raises that exception, never runs the work, and leaves the new session in the slot. |
| `Transaction.TxCorrected` | mongomoron/connection.py:131-142 | With the `finally` also covering start_transaction, the slot is empty on every exit once a session was stored. A failed start_transaction propagates its own exception with no commit and no abort. |
| `Transaction.CorrectedAgreesOnceBegun` | mongomoron/connection.py:134-142 | Once the transaction has begun, the corrected scope behaves exactly like the code. |
| `Transaction.NestedEntryDropsOuterSession` | mongomoron/connection.py:132 | Entering the scope while another session is in the slot overwrites it. On exit the slot is empty and the outer session was neither committed nor aborted. |
| `Mongomoron.ToObj` | mongomoron/mongomoron.py:71-84 | A field compiles to a path one character longer than its name: a `$` followed by the name. The base expression raises NotImplementedError. |
| `Mongomoron.FieldOfPath` | mongomoron/mongomoron.py:83-84 | A string is a compiled field path iff it starts with `$`. The field it names is one character shorter. |
| `Mongomoron.FieldPathRoundTrip` | mongomoron/mongomoron.py:83-84 | Reading back a compiled field gives the same field. |
| `Mongomoron.PathFieldRoundTrip` | mongomoron/mongomoron.py:83-84 | Every `$`-string is the compiled form of the field it names. |
| `Mongomoron.Table.FieldNamed` | mongomoron/mongomoron.py:38-39 | The field factory yields a field called `item`, which compiles to `"$" + item`. |
| `Mongomoron.Table.GetAttr` | mongomoron/mongomoron.py:35-39 | Attribute `name` is the table's name. Every other attribute is the field of that name. |
| `Mongomoron.NameAttributeIsNotAField` | mongomoron/mongomoron.py:28-39 | `t.name` is the table's name string, not the field `name`. |
| `Mongomoron.GetAttrIsFieldElsewhere` | mongomoron/mongomoron.py:38-39 | For every other attribute name `x`, `t.x` is the field `x`, compiled to `"$x"`. |
| `Mongomoron.KeyOf` | mongomoron/mongomoron.py:51-57 | An `asc(f)` call appends `f` with pymongo.ASCENDING (1), a `desc(f)` call `f` with pymongo.DESCENDING (-1). |
| `Mongomoron.KeysAfter` | mongomoron/mongomoron.py:51-57 | After any sequence of asc/desc calls, the key list has one entry per call, in call order, with that call's field and direction. |
| `Mongomoron.IndexBuilder.constructor` | mongomoron/mongomoron.py:47-49 | A new builder keeps its table and has no keys. |
| `Mongomoron.IndexBuilder.Asc` | mongomoron/mongomoron.py:51-53 | Appends exactly `(field, ASCENDING)` after the existing keys and returns the same builder. |
| `Mongomoron.IndexBuilder.Desc` | mongomoron/mongomoron.py:55-57 | Appends exactly `(field, DESCENDING)` after the existing keys and returns the same builder. |
| `Mongomoron.Index` | mongomoron/mongomoron.py:60-61 | `index(table)` is a new builder on that table with no keys. |
| `Mongomoron.DatabaseConnection.constructor` | mongomoron/mongomoron.py:11-12 | A new connection has issued nothing. |
| `Mongomoron.DatabaseConnection.CollectionExists` | mongomoron/mongomoron.py:24-25 | The answer is whether the name is listed, at the cost of one listing call. |
| `Mongomoron.DatabaseConnection.CreateCollection` | mongomoron/mongomoron.py:14-19 | Follows `CreateCollectionOps` without a session, with `override` true unless given, and returns a table with the requested name. |
| `Mongomoron.DatabaseConnection.CreateIndex` | mongomoron/mongomoron.py:21-22 | Issues exactly one create_index on the builder's table with its key list, using the driver's defaults (not unique, no session). |

## Findings

| source | as written | input that shows it | evidently intended | confidence | as-written member | corrected member |
|---|---|---|---|---|---|---|
| mongomoron/connection.py:132-134 | `start_transaction()` is called after the session is stored in the slot, but before the `try` whose `finally` clears it | a session whose `start_transaction()` raises | the slot is empty whenever the scope exits | not executed; medium | `Transaction.StartTransactionFailureLeavesSession` | `Transaction.TxCorrected` |
| mongomoron/mongomoron.py:28-39 | `__getattr__` is consulted only when ordinary attribute lookup fails | `Table("users").name` gives `"users"` and not a field | the class comment says any attribute of a table is a field, yet a field called `name` cannot be reached by attribute access; the code itself relies on `t.name` being the table's name (mongomoron.py:22), so the intended fix is an explicit field factory rather than changing `t.name` | not executed; high | `Mongomoron.NameAttributeIsNotAField` | `Mongomoron.Table.FieldNamed` |

## Left out

- The pymongo client, database, collections, cursors and result objects. Replies are known only by the log position of the call they answer (`Reply`).
- `mongo_client()` and `db()` (connection.py:28-37) only return those handles, which the model does not hold.
- Failures of the driver calls that `execute` and the lifecycle operations make. There they always return; only the transaction scope models raising driver calls. A driver exception would propagate unchanged, because the code catches nothing there.
- Per-thread isolation of `threading.local`. There is one session slot per connection, and no concurrency.
- Cursor laziness and the server's sort order. Only the request to sort is recorded.
- Log output other than the insert_many argument, and the copying of `__name__` onto the wrapper (connection.py:144).
- The builders and expressions of `mongomoron/expression.py`. That file is not part of this model, so the fields `execute` reads are given as plain values.
- The positional and keyword arguments that the wrapper passes on to the wrapped function.
- Connection.DatabaseConnection.Transactional: every exception is assumed to be an `Exception` subclass. A `BaseException` such as `KeyboardInterrupt` would skip the abort and still clear the slot.
- Connection.DatabaseConnection.Transactional: the wrapped function is assumed to leave the slot alone. A nested `transactional` call inside it would clear the slot, and the outer commit would then fail on `None`.
- Mongomoron.DatabaseConnection.CreateCollection: the extra `self` argument passed to `create_collection` (mongomoron.py:18) is not modelled. The call is recorded as a create of `collection_name`.
- Mongomoron.Table.GetAttr: Python's special attributes (`__class__`, `__dict__` and the like) are also found by ordinary lookup. Only `name` is modelled.
