/** The collection lifecycle rule shared by both connection classes:
    create a collection, dropping it first when asked to override one that
    already exists. */
module Lifecycle {
  import opened Driver

  predicate IsDrop(op: DbOp) { op.Drop? }
  predicate IsCreate(op: DbOp) { op.CreateCollection? }

  /** The calls `create_collection(name, override)` issues, given the names
      `list_collection_names()` reports. The listing is only asked for when
      `override` is set (the `and` short-circuits). */
  function CreateCollectionOps(name: string, override: bool, listed: set<string>, session: Option<Session>): (ops: seq<DbOp>)
    // a drop is issued iff override is set and the collection exists, and then on that collection
    ensures Count(ops, IsDrop) == (if override && name in listed then 1 else 0)
    ensures forall op :: op in ops && op.Drop? ==> op == Drop(name, session)
    // exactly one create, always, and it comes last, after any drop
    ensures Count(ops, IsCreate) == 1
    // and nothing else: one listing (when overriding), the drop (when issued) and the create
    ensures |ops| == (if override then 1 else 0) + (if override && name in listed then 1 else 0) + 1
    ensures |ops| > 0 && ops[|ops| - 1] == CreateCollection(name, session)
    // the existence check is a round trip made only when overriding
    ensures ListCollectionNames in ops <==> override
    ensures override ==> ops[0] == ListCollectionNames
  {
    var check := if override then [ListCollectionNames] else [];
    var drop := if override && name in listed then [Drop(name, session)] else [];
    var create := [CreateCollection(name, session)];
    CountConcat(check + drop, create, IsDrop);
    CountConcat(check, drop, IsDrop);
    CountConcat(check + drop, create, IsCreate);
    CountConcat(check, drop, IsCreate);
    CountSingle(ListCollectionNames, IsDrop);
    CountSingle(ListCollectionNames, IsCreate);
    CountSingle(Drop(name, session), IsDrop);
    CountSingle(Drop(name, session), IsCreate);
    CountSingle(CreateCollection(name, session), IsDrop);
    CountSingle(CreateCollection(name, session), IsCreate);
    check + drop + create
  }
}
