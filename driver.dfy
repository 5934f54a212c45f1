/** The part of the MongoDB driver (pymongo) that the connection code talks to,
    seen from the outside: the values it is handed and the calls it receives.
    The database itself is not modelled; a connection keeps the log of the
    calls it has issued, in order. */
module Driver {

  datatype Option<+T> = None | Some(value: T)

  datatype Result<+T, +E> = Ok(value: T) | Err(error: E)

  /** A BSON document or value. The core forwards documents without looking inside. */
  datatype Doc =
    | Null
    | Bool(b: bool)
    | Int(i: int)
    | Str(s: string)
    | Array(items: seq<Doc>)
    | Object(fields: seq<(string, Doc)>)

  /** pymongo.ASCENDING and pymongo.DESCENDING. */
  datatype Direction = Ascending | Descending {
    /** The integer pymongo sends for the direction. */
    function Code(): int {
      if Ascending? then 1 else -1
    }
  }

  /** One entry of an index or sort specification: a field and a direction. */
  type Key = (string, Direction)

  /** A client session handle returned by start_session(). */
  datatype Session = Session(id: nat)

  /** A call issued to the driver. Collection methods name their collection;
      `session` is the value passed as the `session=` keyword argument. */
  datatype DbOp =
    | FindOne(collection: string, filter: Doc)
    | Find(collection: string, filter: Doc)
    | CursorSort(keys: seq<Key>)
    | InsertOne(collection: string, document: Doc, session: Option<Session>)
    | InsertMany(collection: string, documents: seq<Doc>, session: Option<Session>)
    | UpdateOne(collection: string, filter: Doc, update: Doc, upsert: bool, session: Option<Session>)
    | UpdateMany(collection: string, filter: Doc, update: Doc, upsert: bool, session: Option<Session>)
    | DeleteMany(collection: string, filter: Doc, session: Option<Session>)
    | Aggregate(collection: string, pipeline: seq<Doc>, session: Option<Session>)
    | ListCollectionNames
    | Drop(collection: string, session: Option<Session>)
    | CreateCollection(collection: string, session: Option<Session>)
    | CreateIndex(collection: string, keys: seq<Key>, unique: bool, session: Option<Session>)
  {
    /** The pymongo method the call invokes. */
    function MethodName(): string {
      match this
      case FindOne(_, _) => "find_one"
      case Find(_, _) => "find"
      case CursorSort(_) => "sort"
      case InsertOne(_, _, _) => "insert_one"
      case InsertMany(_, _, _) => "insert_many"
      case UpdateOne(_, _, _, _, _) => "update_one"
      case UpdateMany(_, _, _, _, _) => "update_many"
      case DeleteMany(_, _, _) => "delete_many"
      case Aggregate(_, _, _) => "aggregate"
      case ListCollectionNames => "list_collection_names"
      case Drop(_, _) => "drop"
      case CreateCollection(_, _) => "create_collection"
      case CreateIndex(_, _, _, _) => "create_index"
    }

    /** Whether the call has a `session=` argument at all. */
    predicate TakesSession() {
      !(FindOne? || Find? || CursorSort? || ListCollectionNames?)
    }
  }

  /** The number of elements of `s` that satisfy `p`. */
  function Count<T>(s: seq<T>, p: T -> bool): (c: nat)
    ensures c <= |s|
  {
    if s == [] then 0 else (if p(s[0]) then 1 else 0) + Count(s[1..], p)
  }

  lemma {:induction false} CountConcat<T>(a: seq<T>, b: seq<T>, p: T -> bool)
    ensures Count(a + b, p) == Count(a, p) + Count(b, p)
  {
    if a == [] {
      assert a + b == b;
    } else {
      assert (a + b)[1..] == a[1..] + b;
      CountConcat(a[1..], b, p);
    }
  }

  lemma CountSingle<T>(x: T, p: T -> bool)
    ensures Count([x], p) == if p(x) then 1 else 0
  {
  }
}
