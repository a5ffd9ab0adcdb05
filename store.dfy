/**
 * The MongoDB deployment the provider talks to, as an abstract store:
 * databases holding named collections, each with its creation options and
 * its indexes. Every command the provider issues is a transition on that
 * store; each takes the outcome of the network round trip as a parameter
 * (`fail`), so a command may fail for reasons the store does not decide.
 * The refusals the server itself makes (an existing collection on create,
 * a missing namespace or index on a targeted command) are part of the model.
 */
module Store {
  import opened Wrappers
  import opened Bson
  import opened Specification

  /** A collection: the options it was created with (empty when it has none) and its indexes. */
  datatype CollectionInfo = CollectionInfo(options: Document, indexes: seq<IndexSpec>)

  /**
   * `mongo.CollectionSpecification`: a collection's name and options.
   * The driver leaves `Options` nil when the reply has no options field.
   */
  datatype CollectionSpecification = CollectionSpecification(name: string, options: Option<Document>)

  /** `mongo.IndexModel` with its `options.IndexOptions`: what `CreateOne` sends. */
  datatype IndexRequest = IndexRequest(
    keys: Document,
    unique: Option<bool>,
    sparse: Option<bool>,
    expireAfterSeconds: Option<int>,
    name: Option<string>,
    background: Option<bool>,
    partialFilterExpression: Option<Document>)

  type Databases = map<string, map<string, CollectionInfo>>

  /** MongoDB has no empty databases: every database in the map holds a collection. */
  predicate Consistent(dbs: Databases) {
    forall db :: db in dbs ==> dbs[db] != map[]
  }

  /** Nothing changed outside database `db`. */
  ghost predicate SameElsewhere(a: Databases, b: Databases, db: string) {
    forall d :: d != db ==> (d in a <==> d in b) && (d in a ==> a[d] == b[d])
  }

  /** The names of the collections of a database; none for a database that does not exist. */
  function CollectionNames(dbs: Databases, db: string): set<string> {
    if db in dbs then dbs[db].Keys else {}
  }

  predicate HasCollection(dbs: Databases, db: string, coll: string) {
    db in dbs && coll in dbs[db]
  }

  /** A database exists exactly when it holds at least one collection. */
  lemma DatabasePresence(dbs: Databases, db: string)
    requires Consistent(dbs)
    ensures db in dbs <==> CollectionNames(dbs, db) != {}
  {
    if db in dbs {
      var m := dbs[db];
      assert m != map[];
      var c :| c in m;
      assert c in CollectionNames(dbs, db);
    }
  }

  function IndexesOf(dbs: Databases, db: string, coll: string): seq<IndexSpec> {
    if HasCollection(dbs, db, coll) then dbs[db][coll].indexes else []
  }

  function OptionsOf(dbs: Databases, db: string, coll: string): Document {
    if HasCollection(dbs, db, coll) then dbs[db][coll].options else []
  }

  /** The store with collection `coll` of `db` set to `info`, creating the database when needed. */
  function WithCollection(dbs: Databases, db: string, coll: string, info: CollectionInfo): (r: Databases)
    requires Consistent(dbs)
    ensures Consistent(r) && SameElsewhere(dbs, r, db)
    ensures HasCollection(r, db, coll) && r[db][coll] == info
    ensures CollectionNames(r, db) == CollectionNames(dbs, db) + {coll}
    ensures forall c :: c != coll && HasCollection(dbs, db, c) ==> r[db][c] == dbs[db][c]
  {
    var colls := if db in dbs then dbs[db] else map[];
    var m := colls[coll := info];
    assert coll in m;
    dbs[db := m]
  }

  /** The store without collection `coll` of `db`; a database left empty disappears. */
  function WithoutCollection(dbs: Databases, db: string, coll: string): (r: Databases)
    requires Consistent(dbs)
    ensures Consistent(r) && SameElsewhere(dbs, r, db)
    ensures !HasCollection(r, db, coll)
    ensures CollectionNames(r, db) == CollectionNames(dbs, db) - {coll}
    ensures forall c :: c != coll && HasCollection(dbs, db, c) ==> HasCollection(r, db, c) && r[db][c] == dbs[db][c]
  {
    if !HasCollection(dbs, db, coll) then dbs
    else
      var colls := dbs[db] - {coll};
      assert forall c :: c in dbs[db] && c != coll ==> c in colls;
      if colls == map[] then dbs - {db} else dbs[db := colls]
  }

  /** The store without database `db` and all its collections. */
  function WithoutDatabase(dbs: Databases, db: string): (r: Databases)
    requires Consistent(dbs)
    ensures Consistent(r) && SameElsewhere(dbs, r, db)
    ensures db !in r && CollectionNames(r, db) == {}
  {
    dbs - {db}
  }

  /** The server's messages for the refusals it makes itself. */
  const NamespaceExists: string := "Collection already exists"
  const NamespaceNotFound: string := "ns not found"
  const IndexNotFound: string := "index not found with name"
  const CommandNotFound: string := "no such command"

  /**
   * The options document with every field of `fields` set (`collMod`).
   * A key `fields` names takes the value of its first element there; every
   * other key keeps its value.
   */
  function ApplyFields(opts: Document, fields: Document): (r: Document)
    ensures forall k :: Lookup(r, k) == if Lookup(fields, k).Some? then Lookup(fields, k) else Lookup(opts, k)
    decreases |fields|
  {
    if fields == [] then opts
    else SetField(ApplyFields(opts, fields[1..]), fields[0].key, fields[0].value)
  }

  /**
   * `db.RunCommand(cmd)` for the commands the provider sends: `create`,
   * `drop`, `collStats` and `collMod`, each naming a collection of `db` in
   * its first element. A failed command changes nothing.
   */
  function CommandStep(dbs: Databases, db: string, cmd: Document, fail: Option<string>): (r: (Databases, Option<string>))
    requires Consistent(dbs)
    ensures Consistent(r.0)
    ensures r.1.Some? ==> r.0 == dbs
    ensures fail.Some? ==> r == (dbs, fail)
    ensures SameElsewhere(dbs, r.0, db)
  {
    if fail.Some? then (dbs, fail)
    else if cmd == [] || !cmd[0].value.BString? then (dbs, Some(CommandNotFound))
    else
      var name, coll := cmd[0].key, cmd[0].value.s;
      if name == "create" then
        CreateCollectionStep(dbs, db, coll, cmd[1..], None)
      else if name == "drop" then
        if HasCollection(dbs, db, coll) then (WithoutCollection(dbs, db, coll), None) else (dbs, Some(NamespaceNotFound))
      else if name == "collStats" then
        (dbs, if HasCollection(dbs, db, coll) then None else Some(NamespaceNotFound))
      else if name == "collMod" then
        if HasCollection(dbs, db, coll) then
          var info := dbs[db][coll];
          (WithCollection(dbs, db, coll, info.(options := ApplyFields(info.options, cmd[1..]))), None)
        else (dbs, Some(NamespaceNotFound))
      else (dbs, Some(CommandNotFound))
  }

  /** `collMod` on an existing collection sets the fields it carries in the collection's options. */
  lemma CollModStep(dbs: Databases, db: string, coll: string, cmd: Document)
    requires Consistent(dbs) && HasCollection(dbs, db, coll)
    requires |cmd| >= 1 && cmd[0] == Element("collMod", BString(coll))
    ensures CommandStep(dbs, db, cmd, None) ==
            (WithCollection(dbs, db, coll, dbs[db][coll].(options := ApplyFields(dbs[db][coll].options, cmd[1..]))), None)
    ensures OptionsOf(CommandStep(dbs, db, cmd, None).0, db, coll) == ApplyFields(OptionsOf(dbs, db, coll), cmd[1..])
  {
  }

  /** `collStats` succeeds exactly on an existing collection, and changes nothing. */
  lemma CollStatsStep(dbs: Databases, db: string, coll: string)
    requires Consistent(dbs)
    ensures CommandStep(dbs, db, [Element("collStats", BString(coll))], None) ==
            (dbs, if HasCollection(dbs, db, coll) then None else Some(NamespaceNotFound))
  {
  }

  /** `Database.CreateCollection(coll, opts)`: refused when the collection already exists. */
  function CreateCollectionStep(dbs: Databases, db: string, coll: string, options: Document, fail: Option<string>): (r: (Databases, Option<string>))
    requires Consistent(dbs)
    ensures Consistent(r.0) && SameElsewhere(dbs, r.0, db)
    ensures r.1.None? <==> fail.None? && !HasCollection(dbs, db, coll)
    ensures r.1.Some? ==> r.0 == dbs
    ensures r.1.None? ==> r.0 == WithCollection(dbs, db, coll, CollectionInfo(options, []))
  {
    if fail.Some? then (dbs, fail)
    else if HasCollection(dbs, db, coll) then (dbs, Some(NamespaceExists))
    else (WithCollection(dbs, db, coll, CollectionInfo(options, [])), None)
  }

  /** `Collection.Drop()`: dropping a missing collection is not an error. */
  function DropCollectionStep(dbs: Databases, db: string, coll: string, fail: Option<string>): (r: (Databases, Option<string>))
    requires Consistent(dbs)
    ensures Consistent(r.0) && SameElsewhere(dbs, r.0, db)
    ensures r.1 == fail
    ensures r.1.None? ==> !HasCollection(r.0, db, coll) && CollectionNames(r.0, db) == CollectionNames(dbs, db) - {coll}
    ensures r.1.Some? ==> r.0 == dbs
  {
    if fail.Some? then (dbs, fail) else (WithoutCollection(dbs, db, coll), None)
  }

  /** `Database.Drop()`: dropping a missing database is not an error. */
  function DropDatabaseStep(dbs: Databases, db: string, fail: Option<string>): (r: (Databases, Option<string>))
    requires Consistent(dbs)
    ensures Consistent(r.0) && SameElsewhere(dbs, r.0, db)
    ensures r.1 == fail
    ensures r.1.None? ==> db !in r.0
    ensures r.1.Some? ==> r.0 == dbs
  {
    if fail.Some? then (dbs, fail) else (WithoutDatabase(dbs, db), None)
  }

  /** `Client.ListDatabaseNames` filtered on one name: that name when the database exists. */
  function DatabaseNamesListing(dbs: Databases, name: string, fail: Option<string>): (r: Result<seq<string>, string>)
    ensures r.Failure? <==> fail.Some?
    ensures r.Success? ==> (r.value != [] <==> name in dbs)
    ensures r.Success? ==> forall i :: 0 <= i < |r.value| ==> r.value[i] == name
  {
    if fail.Some? then Failure(fail.value) else Success(if name in dbs then [name] else [])
  }

  /** `Database.ListCollectionNames` without a filter. */
  function CollectionNamesListing(dbs: Databases, db: string, fail: Option<string>): (r: Result<set<string>, string>)
    ensures r.Failure? <==> fail.Some?
    ensures r.Success? ==> forall c :: c in r.value <==> HasCollection(dbs, db, c)
  {
    if fail.Some? then Failure(fail.value) else Success(CollectionNames(dbs, db))
  }

  /** `Database.ListCollectionSpecifications` filtered on one name: at most that collection. */
  function CollectionSpecsListing(dbs: Databases, db: string, name: string, fail: Option<string>): (r: Result<seq<CollectionSpecification>, string>)
    ensures r.Failure? <==> fail.Some?
    ensures r.Success? ==> |r.value| <= 1 && (|r.value| == 1 <==> HasCollection(dbs, db, name))
    ensures r.Success? && |r.value| == 1 ==> r.value[0] == CollectionSpecification(name, Some(OptionsOf(dbs, db, name)))
  {
    if fail.Some? then Failure(fail.value)
    else if HasCollection(dbs, db, name) then Success([CollectionSpecification(name, Some(OptionsOf(dbs, db, name)))])
    else Success([])
  }

  /** `IndexView.ListSpecifications`: a missing collection lists no indexes (the driver hides `NamespaceNotFound`). */
  function IndexListing(dbs: Databases, db: string, coll: string, fail: Option<string>): (r: Result<seq<IndexSpec>, string>)
    ensures r.Failure? <==> fail.Some?
    ensures r.Success? ==> r.value == IndexesOf(dbs, db, coll)
    ensures r.Success? && !HasCollection(dbs, db, coll) ==> r.value == []
  {
    if fail.Some? then Failure(fail.value) else Success(IndexesOf(dbs, db, coll))
  }

  /** The listing without the indexes named `name`, the rest in order. */
  function WithoutIndex(specs: seq<IndexSpec>, name: string): (r: seq<IndexSpec>)
    ensures !HasIndexNamed(r, name)
    ensures forall s :: s in r <==> s in specs && s.name != name
  {
    if specs == [] then []
    else if specs[0].name == name then WithoutIndex(specs[1..], name)
    else [specs[0]] + WithoutIndex(specs[1..], name)
  }

  /** What the listing reports of an index built from a request, under the name the server chose. */
  function SpecOf(req: IndexRequest, name: string): (s: IndexSpec)
    ensures s.name == name && s.keysDocument == Wellformed(req.keys)
    ensures s.unique == req.unique && s.sparse == req.sparse
    ensures s.expireAfterSeconds == req.expireAfterSeconds
    ensures s.partialFilterExpression == req.partialFilterExpression
  {
    IndexSpec(name, Wellformed(req.keys), req.expireAfterSeconds, req.sparse, req.unique, req.partialFilterExpression)
  }

  /** The store with index `spec` on `db.coll`, replacing one of the same name; the collection is created when missing. */
  function PutIndex(dbs: Databases, db: string, coll: string, spec: IndexSpec): (r: Databases)
    requires Consistent(dbs)
    ensures Consistent(r) && SameElsewhere(dbs, r, db) && HasCollection(r, db, coll)
    ensures FirstMatch(Lift(IndexesOf(r, db, coll)), spec.name) == Some(spec)
    ensures forall s :: s in IndexesOf(r, db, coll) <==> s == spec || (s in IndexesOf(dbs, db, coll) && s.name != spec.name)
  {
    var info := if HasCollection(dbs, db, coll) then dbs[db][coll] else CollectionInfo([], []);
    var rest := WithoutIndex(info.indexes, spec.name);
    var specs := rest + [spec];
    var eis := Lift(specs);
    assert forall k :: 0 <= k < |rest| ==> !Matches(eis[k], spec.name) by {
      forall k | 0 <= k < |rest| ensures !Matches(eis[k], spec.name) {
        assert rest[k] in rest;
      }
    }
    assert Matches(eis[|rest|], spec.name);
    WithCollection(dbs, db, coll, info.(indexes := specs))
  }

  /**
   * `IndexView.CreateOne`: the server's reply decides; on success the index
   * is listed under the name the server returned.
   */
  function CreateIndexStep(dbs: Databases, db: string, coll: string, req: IndexRequest, reply: Result<string, string>): (r: (Databases, Result<string, string>))
    requires Consistent(dbs)
    ensures Consistent(r.0) && SameElsewhere(dbs, r.0, db)
    ensures r.1 == reply
    ensures reply.Failure? ==> r.0 == dbs
    ensures reply.Success? ==> r.0 == PutIndex(dbs, db, coll, SpecOf(req, reply.value))
  {
    match reply
    case Failure(_) => (dbs, reply)
    case Success(name) => (PutIndex(dbs, db, coll, SpecOf(req, name)), reply)
  }

  /** `IndexView.DropOne(name)`: refused when the collection or the index is missing. */
  function DropIndexStep(dbs: Databases, db: string, coll: string, name: string, fail: Option<string>): (r: (Databases, Option<string>))
    requires Consistent(dbs)
    ensures Consistent(r.0) && SameElsewhere(dbs, r.0, db)
    ensures r.1.None? <==> fail.None? && HasIndexNamed(IndexesOf(dbs, db, coll), name)
    ensures r.1.Some? ==> r.0 == dbs
    ensures r.1.None? ==> !HasIndexNamed(IndexesOf(r.0, db, coll), name)
  {
    if fail.Some? then (dbs, fail)
    else if !HasCollection(dbs, db, coll) then (dbs, Some(NamespaceNotFound))
    else if !HasIndexNamed(dbs[db][coll].indexes, name) then (dbs, Some(IndexNotFound))
    else
      var info := dbs[db][coll];
      (WithCollection(dbs, db, coll, info.(indexes := WithoutIndex(info.indexes, name))), None)
  }

  /** `*mongo.Client`: the one handle the provider shares, over the store it reaches. */
  class Client {
    var dbs: Databases

    predicate Valid()
      reads this
    {
      Consistent(dbs)
    }

    constructor (initial: Databases)
      requires Consistent(initial)
      ensures Valid() && dbs == initial
    {
      dbs := initial;
    }

    method RunCommand(db: string, cmd: Document, fail: Option<string>) returns (err: Option<string>)
      requires Valid()
      modifies this
      ensures Valid()
      ensures (dbs, err) == CommandStep(old(dbs), db, cmd, fail)
    {
      dbs, err := CommandStep(dbs, db, cmd, fail).0, CommandStep(dbs, db, cmd, fail).1;
    }

    method CreateCollection(db: string, coll: string, options: Document, fail: Option<string>) returns (err: Option<string>)
      requires Valid()
      modifies this
      ensures Valid()
      ensures (dbs, err) == CreateCollectionStep(old(dbs), db, coll, options, fail)
    {
      var r := CreateCollectionStep(dbs, db, coll, options, fail);
      dbs, err := r.0, r.1;
    }

    method DropCollection(db: string, coll: string, fail: Option<string>) returns (err: Option<string>)
      requires Valid()
      modifies this
      ensures Valid()
      ensures (dbs, err) == DropCollectionStep(old(dbs), db, coll, fail)
    {
      var r := DropCollectionStep(dbs, db, coll, fail);
      dbs, err := r.0, r.1;
    }

    method DropDatabase(db: string, fail: Option<string>) returns (err: Option<string>)
      requires Valid()
      modifies this
      ensures Valid()
      ensures (dbs, err) == DropDatabaseStep(old(dbs), db, fail)
    {
      var r := DropDatabaseStep(dbs, db, fail);
      dbs, err := r.0, r.1;
    }

    method CreateIndex(db: string, coll: string, req: IndexRequest, reply: Result<string, string>) returns (r: Result<string, string>)
      requires Valid()
      modifies this
      ensures Valid()
      ensures (dbs, r) == CreateIndexStep(old(dbs), db, coll, req, reply)
    {
      var step := CreateIndexStep(dbs, db, coll, req, reply);
      dbs, r := step.0, step.1;
    }

    method DropIndex(db: string, coll: string, name: string, fail: Option<string>) returns (err: Option<string>)
      requires Valid()
      modifies this
      ensures Valid()
      ensures (dbs, err) == DropIndexStep(old(dbs), db, coll, name, fail)
    {
      var r := DropIndexStep(dbs, db, coll, name, fail);
      dbs, err := r.0, r.1;
    }

    method ListDatabaseNames(name: string, fail: Option<string>) returns (r: Result<seq<string>, string>)
      ensures r == DatabaseNamesListing(dbs, name, fail)
    {
      r := DatabaseNamesListing(dbs, name, fail);
    }

    method ListCollectionNames(db: string, fail: Option<string>) returns (r: Result<set<string>, string>)
      ensures r == CollectionNamesListing(dbs, db, fail)
    {
      r := CollectionNamesListing(dbs, db, fail);
    }

    method ListCollectionSpecifications(db: string, name: string, fail: Option<string>) returns (r: Result<seq<CollectionSpecification>, string>)
      ensures r == CollectionSpecsListing(dbs, db, name, fail)
    {
      r := CollectionSpecsListing(dbs, db, name, fail);
    }

    method ListSpecifications(db: string, coll: string, fail: Option<string>) returns (r: Result<seq<IndexSpec>, string>)
      ensures r == IndexListing(dbs, db, coll, fail)
    {
      r := IndexListing(dbs, db, coll, fail);
    }
  }
}
