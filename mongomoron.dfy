/** `mongomoron/mongomoron.py`: the earlier API, with its own connection
    class, tables whose attributes are fields, an index builder and
    field-path expressions. */
module Mongomoron {
  import opened Driver
  import opened Lifecycle

  /** An aggregation expression: the base class itself, or a field path. */
  datatype Expression = BaseExpression | Field(name: string)

  /** The exception `to_obj` raises when a subclass does not override it. */
  datatype ExprError = NotImplementedError

  /** `to_obj`: a field path compiles to its name behind a `$`, the MongoDB
      convention for referring to a field inside an aggregation expression. */
  function ToObj(e: Expression): (r: Result<string, ExprError>)
    ensures r.Err? <==> e.BaseExpression?
    ensures e.Field? ==>
      |r.value| == |e.name| + 1 && r.value[0] == '$' && r.value[1..] == e.name
  {
    match e
    case BaseExpression => Err(NotImplementedError)
    case Field(name) => Ok("$" + name)
  }

  /** The field a compiled field path refers to, if the string is one. */
  function FieldOfPath(path: string): (f: Option<Expression>)
    ensures f.Some? <==> |path| > 0 && path[0] == '$'
    ensures f.Some? ==> f.value.Field? && |f.value.name| == |path| - 1
  {
    if |path| > 0 && path[0] == '$' then Some(Field(path[1..])) else None
  }

  /** Compiling a field and reading the path back gives the same field. */
  lemma FieldPathRoundTrip(name: string)
    ensures ToObj(Field(name)).Ok? && FieldOfPath(ToObj(Field(name)).value) == Some(Field(name))
  {
  }

  /** Every string that starts with `$` is the compiled form of exactly one field. */
  lemma PathFieldRoundTrip(path: string)
    requires |path| > 0 && path[0] == '$'
    ensures FieldOfPath(path).Some? && ToObj(FieldOfPath(path).value) == Ok(path)
  {
    assert "$" + path[1..] == path;
  }

  /** What reading an attribute of a `Table` gives. */
  datatype AttrValue = NameAttr(s: string) | FieldAttr(field: Expression)

  datatype Table = Table(name: string) {
    /** An explicit field factory: the field of this table called `item`. */
    function FieldNamed(item: string): (f: Expression)
      ensures f.Field? && f.name == item
      ensures ToObj(f) == Ok("$" + item)
    {
      Field(item)
    }

    /** Attribute access `t.item` as Python performs it: `__getattr__` is only
        consulted when ordinary lookup fails, so the instance attribute `name`
        is found first and every other name becomes a field. */
    function GetAttr(item: string): (v: AttrValue)
      ensures item == "name" ==> v == NameAttr(name)
      ensures item != "name" ==> v.FieldAttr? && v.field == FieldNamed(item)
    {
      if item == "name" then NameAttr(name) else FieldAttr(FieldNamed(item))
    }
  }

  /** A field called `name` cannot be reached by attribute access: `t.name`
      is the table's own name, a string, not the field. */
  lemma NameAttributeIsNotAField(t: Table)
    ensures t.GetAttr("name") != FieldAttr(t.FieldNamed("name"))
    ensures t.GetAttr("name") == NameAttr(t.name)
  {
  }

  /** Attribute access agrees with the factory for every other name. */
  lemma GetAttrIsFieldElsewhere(t: Table, item: string)
    requires item != "name"
    ensures t.GetAttr(item) == FieldAttr(t.FieldNamed(item))
    ensures ToObj(t.GetAttr(item).field) == Ok("$" + item)
  {
  }

  /** A call made on an index builder. */
  datatype KeyCall = AscCall(field: string) | DescCall(field: string)

  /** The key a call appends: its field, with pymongo.ASCENDING (1) for
      `asc` and pymongo.DESCENDING (-1) for `desc`. */
  function KeyOf(c: KeyCall): (k: Key)
    ensures k.0 == c.field
    ensures k.1.Code() == (if c.AscCall? then 1 else -1)
  {
    match c
    case AscCall(f) => (f, Ascending)
    case DescCall(f) => (f, Descending)
  }

  /** The key list after a sequence of calls on a fresh builder: one entry
      per call, in call order. */
  function KeysAfter(calls: seq<KeyCall>): (keys: seq<Key>)
    ensures |keys| == |calls|
    ensures forall i :: 0 <= i < |calls| ==> keys[i] == KeyOf(calls[i])
  {
    if calls == [] then [] else KeysAfter(calls[..|calls| - 1]) + [KeyOf(calls[|calls| - 1])]
  }

  /** Builds the key list of an index, one call at a time. `calls` records
      the calls made so far. */
  class IndexBuilder {
    const table: Table
    var keys: seq<Key>
    ghost var calls: seq<KeyCall>

    ghost predicate Valid()
      reads this
    {
      keys == KeysAfter(calls)
    }

    constructor (table: Table)
      ensures Valid() && this.table == table && keys == [] && calls == []
    {
      this.table := table;
      keys := [];
      calls := [];
    }

    method Asc(field: string) returns (self: IndexBuilder)
      requires Valid()
      modifies this
      ensures Valid() && self == this
      ensures calls == old(calls) + [AscCall(field)]
      ensures keys == old(keys) + [(field, Ascending)]
    {
      keys := keys + [(field, Ascending)];
      calls := calls + [AscCall(field)];
      assert calls[..|calls| - 1] == old(calls);
      self := this;
    }

    method Desc(field: string) returns (self: IndexBuilder)
      requires Valid()
      modifies this
      ensures Valid() && self == this
      ensures calls == old(calls) + [DescCall(field)]
      ensures keys == old(keys) + [(field, Descending)]
    {
      keys := keys + [(field, Descending)];
      calls := calls + [DescCall(field)];
      assert calls[..|calls| - 1] == old(calls);
      self := this;
    }
  }

  /** `index(table)`: a new builder on the table, with no keys yet. */
  method Index(table: Table) returns (b: IndexBuilder)
    ensures fresh(b) && b.Valid()
    ensures b.table == table && b.keys == [] && b.calls == []
  {
    b := new IndexBuilder(table);
  }

  /** The earlier connection: it issues calls without a session. */
  class DatabaseConnection {
    var log: seq<DbOp>

    constructor ()
      ensures log == []
    {
      log := [];
    }

    /** `_collection_exists`: one round trip listing the collection names. */
    method CollectionExists(name: string, listed: set<string>) returns (found: bool)
      modifies this
      ensures found <==> name in listed
      ensures log == old(log) + [ListCollectionNames]
    {
      log := log + [ListCollectionNames];
      found := name in listed;
    }

    /** `create_collection`; `listed` is what `list_collection_names()` reports.
        `override` defaults to true, so an existing collection is dropped unless
        the caller says otherwise. */
    method CreateCollection(name: string, listed: set<string>, override: bool := true) returns (t: Table)
      modifies this
      ensures t == Table(name)
      ensures log == old(log) + CreateCollectionOps(name, override, listed, None)
    {
      if override {
        var found := CollectionExists(name, listed);
        if found {
          log := log + [Drop(name, None)];
        }
      }
      log := log + [DbOp.CreateCollection(name, None)];
      t := Table(name);
    }

    /** `create_index`: the builder's keys on the builder's table, with the
        driver's defaults (not unique, no session). */
    method CreateIndex(index: IndexBuilder)
      modifies this
      ensures log == old(log) + [DbOp.CreateIndex(index.table.name, index.keys, false, None)]
    {
      log := log + [DbOp.CreateIndex(index.table.name, index.keys, false, None)];
    }
  }
}
