/**
 * The `mongodb_database` resource. A MongoDB database exists only while it
 * holds a collection, so the resource keeps a placeholder collection in it
 * unless `keep_placeholder` is false; Read takes a database without
 * collections to be gone.
 */
module DatabaseResource {
  import opened Wrappers
  import opened Bson
  import opened Framework
  import opened Text
  import opened Store

  /** `ResourceModel` of the database resource. */
  datatype DatabaseModel = DatabaseModel(id: TfString, name: TfString, keepPlaceholder: TfBool)

  function NameOf(m: DatabaseModel): string { ValueString(m.name) }

  /** The name of the placeholder collection. */
  const Placeholder: string := "__tf_placeholder"

  // ---------------------------------------------------------------------------
  // Schema

  /** The plan of a configuration: `keep_placeholder` is true when not set. */
  function Planned(config: DatabaseModel): (plan: DatabaseModel)
    ensures plan.keepPlaceholder == WithDefault(config.keepPlaceholder, true)
    ensures plan.(keepPlaceholder := config.keepPlaceholder) == config
  {
    config.(keepPlaceholder := WithDefault(config.keepPlaceholder, true))
  }

  /** A configuration that does not mention `keep_placeholder` keeps the placeholder. */
  lemma KeepByDefault(config: DatabaseModel)
    requires config.keepPlaceholder.Null?
    ensures ValueBool(Planned(config).keepPlaceholder)
  {
  }

  /** No attribute has a `RequiresReplace` plan modifier: a new name goes to Update too. */
  function Classify(state: DatabaseModel, plan: DatabaseModel): (v: Verdict)
    ensures v != Replace
    ensures v == Unchanged <==> plan == state
  {
    if plan == state then Unchanged else UpdateInPlace
  }

  /** The command that creates the placeholder collection. */
  function CreatePlaceholder(): (cmd: Document)
    ensures |cmd| == 1 && cmd[0].key == "create" && cmd[0].value == BString(Placeholder)
  {
    [Element("create", BString(Placeholder))]
  }

  /** The command that drops the placeholder collection. */
  function DropPlaceholder(): (cmd: Document)
    ensures |cmd| == 1 && cmd[0].key == "drop" && cmd[0].value == BString(Placeholder)
  {
    [Element("drop", BString(Placeholder))]
  }

  /** Creating the placeholder leaves it in the database, whether or not it was there; nothing else changes. */
  lemma CreatePlaceholderStep(dbs: Databases, db: string)
    requires Consistent(dbs)
    ensures var r := CommandStep(dbs, db, CreatePlaceholder(), None);
            HasCollection(r.0, db, Placeholder) && db in r.0 &&
            (r.1.Some? <==> HasCollection(dbs, db, Placeholder)) &&
            CollectionNames(r.0, db) == CollectionNames(dbs, db) + {Placeholder}
  {
    var r := CommandStep(dbs, db, CreatePlaceholder(), None);
    assert CreatePlaceholder()[1..] == [];
    if !HasCollection(dbs, db, Placeholder) {
      assert r.0 == WithCollection(dbs, db, Placeholder, CollectionInfo([], []));
    }
  }

  /** Dropping the placeholder removes it alone; it is an error only when it was not there. */
  lemma DropPlaceholderStep(dbs: Databases, db: string)
    requires Consistent(dbs)
    ensures var r := CommandStep(dbs, db, DropPlaceholder(), None);
            !HasCollection(r.0, db, Placeholder) &&
            (r.1.Some? <==> !HasCollection(dbs, db, Placeholder)) &&
            CollectionNames(r.0, db) == CollectionNames(dbs, db) - {Placeholder}
  {
  }

  // ---------------------------------------------------------------------------
  // Operations

  /**
   * `Create`: refuse a database that already exists; otherwise create the
   * placeholder when it is to be kept (ignoring any error) and record the
   * name as the identity.
   */
  method Create(client: Client, plan: DatabaseModel, listFail: Option<string>, createFail: Option<string>)
    returns (state: StateOutcome<DatabaseModel>, diags: seq<Diagnostic>)
    requires client.Valid()
    modifies client
    ensures client.Valid()
    ensures state.Stored? <==> diags == []
    ensures !state.Stored? ==> state == Untouched && client.dbs == old(client.dbs)
    ensures listFail.Some? ==> diags == [Error("List databases failed", Text(listFail.value))]
    ensures listFail.None? && NameOf(plan) in old(client.dbs) ==>
              diags == [Error("Database already exists", Text("A database named " + NameOf(plan) + " already exists."))]
    ensures listFail.None? && NameOf(plan) !in old(client.dbs) ==>
              state == Stored(plan.(id := Known(NameOf(plan)))) &&
              client.dbs == if ValueBool(plan.keepPlaceholder)
                            then CommandStep(old(client.dbs), NameOf(plan), CreatePlaceholder(), createFail).0
                            else old(client.dbs)
  {
    var dbs := client.ListDatabaseNames(NameOf(plan), listFail);
    if dbs.Failure? {
      return Untouched, [Error("List databases failed", Text(dbs.error))];
    }
    if |dbs.value| > 0 {
      return Untouched, [Error("Database already exists", Text("A database named " + NameOf(plan) + " already exists."))];
    }
    if ValueBool(plan.keepPlaceholder) {
      var _ := client.RunCommand(NameOf(plan), CreatePlaceholder(), createFail);
    }
    state := Stored(plan.(id := Known(NameOf(plan))));
    diags := [];
  }

  /**
   * `Read`: a database without collections is gone and the resource is
   * removed; otherwise the name is the identity and `keep_placeholder`
   * says whether the placeholder is there.
   */
  method Read(client: Client, prior: DatabaseModel, fail: Option<string>)
    returns (state: StateOutcome<DatabaseModel>, diags: seq<Diagnostic>)
    requires client.Valid()
    ensures fail.Some? ==> state == Untouched && diags == [Error("list collections failed", Text(fail.value))]
    ensures fail.None? ==> diags == []
    ensures fail.None? && NameOf(prior) !in client.dbs ==> state == Removed
    ensures fail.None? && NameOf(prior) in client.dbs ==>
              state == Stored(prior.(id := Known(NameOf(prior)), keepPlaceholder := Known(HasCollection(client.dbs, NameOf(prior), Placeholder))))
  {
    var names := client.ListCollectionNames(NameOf(prior), fail);
    if names.Failure? {
      return Untouched, [Error("list collections failed", Text(names.error))];
    }
    DatabasePresence(client.dbs, NameOf(prior));
    if names.value == {} {
      return Removed, [];
    }
    state := Stored(prior.(id := Known(NameOf(prior)), keepPlaceholder := Known(Placeholder in names.value)));
    diags := [];
  }

  /** `Update`: create or drop the placeholder as planned, ignoring any error, and store the plan. */
  method Update(client: Client, plan: DatabaseModel, fail: Option<string>)
    returns (state: StateOutcome<DatabaseModel>, diags: seq<Diagnostic>)
    requires client.Valid()
    modifies client
    ensures client.Valid()
    ensures state == Stored(plan) && diags == []
    ensures client.dbs == CommandStep(old(client.dbs), NameOf(plan),
                                      if ValueBool(plan.keepPlaceholder) then CreatePlaceholder() else DropPlaceholder(), fail).0
  {
    if ValueBool(plan.keepPlaceholder) {
      var _ := client.RunCommand(NameOf(plan), CreatePlaceholder(), fail);
    } else {
      var _ := client.RunCommand(NameOf(plan), DropPlaceholder(), fail);
    }
    return Stored(plan), [];
  }

  /** `Delete`: drop the database with all its collections. */
  method Delete(client: Client, prior: DatabaseModel, fail: Option<string>) returns (diags: seq<Diagnostic>)
    requires client.Valid()
    modifies client
    ensures client.Valid()
    ensures client.dbs == DropDatabaseStep(old(client.dbs), NameOf(prior), fail).0
    ensures fail.None? ==> diags == [] && NameOf(prior) !in client.dbs
    ensures fail.Some? ==> diags == [Error("failed to drop database", Text(fail.value))]
  {
    var err := client.DropDatabase(NameOf(prior), fail);
    if err.Some? {
      return [Error("failed to drop database", Text(err.value))];
    }
    return [];
  }

  /** `ImportState`: the trimmed ID is both identity and name; `keep_placeholder` is left null. */
  function ImportState(rawId: string): (r: (StateOutcome<DatabaseModel>, seq<Diagnostic>))
    ensures r.0.Stored? <==> r.1 == []
    ensures r.0.Stored? <==> TrimSpace(rawId) != ""
    ensures !r.0.Stored? ==> r == (Untouched, [Error("Empty import ID", Text("Expected database name"))])
    ensures r.0.Stored? ==> r.0.model.id == r.0.model.name == Known(TrimSpace(rawId)) && r.0.model.keepPlaceholder.Null?
  {
    var id := TrimSpace(rawId);
    if id == "" then (Untouched, [Error("Empty import ID", Text("Expected database name"))])
    else (Stored(DatabaseModel(Known(id), Known(id), Null)), [])
  }

  /** The identity Create records imports back to the same database. */
  lemma RecordedIdImports(m: DatabaseModel)
    requires NameOf(m) != "" && NoEdgeSpace(NameOf(m))
    ensures ImportState(NameOf(m)) == (Stored(DatabaseModel(Known(NameOf(m)), Known(NameOf(m)), Null)), [])
  {
    TrimSpaceNoEdge(NameOf(m));
  }

  // ---------------------------------------------------------------------------
  // Lifecycles

  /**
   * A database created with its placeholder exists: Read finds it and
   * reports the placeholder kept. After Delete it is gone.
   */
  method KeptLifecycle(client: Client, plan: DatabaseModel)
    returns (created: StateOutcome<DatabaseModel>, read: StateOutcome<DatabaseModel>, gone: StateOutcome<DatabaseModel>)
    requires client.Valid() && NameOf(plan) !in client.dbs
    requires plan.keepPlaceholder == Known(true)
    modifies client
    ensures client.Valid()
    ensures created == Stored(plan.(id := Known(NameOf(plan))))
    ensures read == created
    ensures gone == Removed
  {
    var d1, d2, d3, d4;
    created, d1 := Create(client, plan, None, None);
    CreatePlaceholderStep(old(client.dbs), NameOf(plan));
    read, d2 := Read(client, created.model, None);
    d3 := Delete(client, created.model, None);
    gone, d4 := Read(client, created.model, None);
  }

  /**
   * A database created without its placeholder has no collection, so it
   * does not exist: the Read right after Create removes the resource.
   */
  method UnkeptLifecycle(client: Client, plan: DatabaseModel)
    returns (created: StateOutcome<DatabaseModel>, read: StateOutcome<DatabaseModel>)
    requires client.Valid() && NameOf(plan) !in client.dbs
    requires plan.keepPlaceholder == Known(false)
    modifies client
    ensures client.Valid() && client.dbs == old(client.dbs)
    ensures created == Stored(plan.(id := Known(NameOf(plan))))
    ensures read == Removed
  {
    var d1, d2;
    created, d1 := Create(client, plan, None, None);
    read, d2 := Read(client, created.model, None);
  }

  /**
   * Releasing the placeholder of a database that holds nothing else drops
   * the database: the next Read removes the resource.
   */
  method ReleaseLastPlaceholder(client: Client, plan: DatabaseModel)
    returns (updated: StateOutcome<DatabaseModel>, read: StateOutcome<DatabaseModel>)
    requires client.Valid() && CollectionNames(client.dbs, NameOf(plan)) == {Placeholder}
    requires plan.keepPlaceholder == Known(false)
    modifies client
    ensures client.Valid() && NameOf(plan) !in client.dbs
    ensures updated == Stored(plan)
    ensures read == Removed
  {
    var d1, d2;
    DropPlaceholderStep(client.dbs, NameOf(plan));
    updated, d1 := Update(client, plan, None);
    DatabasePresence(client.dbs, NameOf(plan));
    read, d2 := Read(client, plan, None);
  }
}
