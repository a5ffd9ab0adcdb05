/**
 * The `mongodb_index` resource: its schema's replace flags and key-count
 * validator, and Create, Read, Update, Delete and ImportState as
 * transitions on the store.
 */
module IndexResource {
  import opened Wrappers
  import opened Bson
  import opened Framework
  import opened Text
  import opened Identity
  import opened Specification
  import opened IndexKeys
  import opened Store

  /** `ResourceModel` of the index resource. */
  datatype IndexModel = IndexModel(
    id: TfString,
    database: TfString,
    collection: TfString,
    name: TfString,
    unique: TfBool,
    sparse: TfBool,
    ttl: TfInt,
    partial: TfString,
    background: TfBool,
    keys: seq<KeyModel>)

  function DatabaseOf(m: IndexModel): string { ValueString(m.database) }
  function CollectionOf(m: IndexModel): string { ValueString(m.collection) }
  function NameOf(m: IndexModel): string { ValueString(m.name) }

  /** The zero `ResourceModel`: every attribute null, no key blocks. */
  const EmptyModel: IndexModel := IndexModel(Null, Null, Null, Null, Null, Null, Null, Null, Null, [])

  // ---------------------------------------------------------------------------
  // Schema

  /** The attributes and the `keys` block of the schema. */
  datatype Attribute = Id | Database | Collection | Name | Unique | Sparse | Ttl | Partial | Background | Keys

  const Attributes: seq<Attribute> := [Id, Database, Collection, Name, Unique, Sparse, Ttl, Partial, Background, Keys]

  /** Whether the schema gives the attribute a `RequiresReplace` plan modifier: all but `id` and `background`. */
  predicate RequiresReplace(a: Attribute) {
    !a.Id? && !a.Background?
  }

  /** Whether the planned value of an attribute differs from the one in state. */
  predicate Differs(state: IndexModel, plan: IndexModel, a: Attribute) {
    match a
    case Id => state.id != plan.id
    case Database => state.database != plan.database
    case Collection => state.collection != plan.collection
    case Name => state.name != plan.name
    case Unique => state.unique != plan.unique
    case Sparse => state.sparse != plan.sparse
    case Ttl => state.ttl != plan.ttl
    case Partial => state.partial != plan.partial
    case Background => state.background != plan.background
    case Keys => state.keys != plan.keys
  }

  /** The attribute list covers the model: a plan that differs in no attribute is the state. */
  lemma AttributesCoverModel(state: IndexModel, plan: IndexModel)
    requires forall i :: 0 <= i < |Attributes| ==> !Differs(state, plan, Attributes[i])
    ensures plan == state
  {
    assert !Differs(state, plan, Attributes[0]) && !Differs(state, plan, Attributes[1]);
    assert !Differs(state, plan, Attributes[2]) && !Differs(state, plan, Attributes[3]);
    assert !Differs(state, plan, Attributes[4]) && !Differs(state, plan, Attributes[5]);
    assert !Differs(state, plan, Attributes[6]) && !Differs(state, plan, Attributes[7]);
    assert !Differs(state, plan, Attributes[8]) && !Differs(state, plan, Attributes[9]);
  }

  /**
   * What Terraform does with a plan for an existing index: nothing when the
   * plan equals the state, a replacement when an attribute with
   * `RequiresReplace` changes, and a call to Update otherwise.
   */
  function Classify(state: IndexModel, plan: IndexModel): (v: Verdict)
    ensures v == Unchanged <==> plan == state
  {
    if plan == state then Unchanged
    else if exists i :: 0 <= i < |Attributes| && RequiresReplace(Attributes[i]) && Differs(state, plan, Attributes[i]) then Replace
    else UpdateInPlace
  }

  /** A plan reaches Update only when it differs from the state in `background` or `id` alone. */
  lemma {:induction false} UpdateOnlyForBackground(state: IndexModel, plan: IndexModel)
    requires Classify(state, plan) == UpdateInPlace
    ensures plan == state.(background := plan.background, id := plan.id)
    ensures plan.background != state.background || plan.id != state.id
  {
    var s := state.(background := plan.background, id := plan.id);
    forall i | 0 <= i < |Attributes|
      ensures !Differs(s, plan, Attributes[i])
    {
      if RequiresReplace(Attributes[i]) {
        assert !Differs(state, plan, Attributes[i]);
      }
    }
    AttributesCoverModel(s, plan);
  }

  /** A change of any replace-flagged attribute forces a replacement. */
  lemma ReplaceWhenFlaggedChanges(state: IndexModel, plan: IndexModel, a: Attribute)
    requires RequiresReplace(a) && Differs(state, plan, a)
    ensures Classify(state, plan) == Replace
  {
    assert a in Attributes;
    var i :| 0 <= i < |Attributes| && Attributes[i] == a;
  }

  /** A change of `background` alone goes to Update. */
  lemma BackgroundChangeUpdatesInPlace(state: IndexModel, b: TfBool)
    requires b != state.background
    ensures Classify(state, state.(background := b)) == UpdateInPlace
  {
    var plan := state.(background := b);
    forall i | 0 <= i < |Attributes| && RequiresReplace(Attributes[i])
      ensures !Differs(state, plan, Attributes[i])
    {
    }
  }

  /** `listvalidator.SizeAtLeast(1)` on the `keys` block: a configuration without keys is refused. */
  function ValidateConfig(config: IndexModel): (diags: seq<Diagnostic>)
    ensures HasError(diags) <==> |config.keys| < 1
    ensures diags == [] <==> |config.keys| >= 1
  {
    if |config.keys| >= 1 then []
    else
      var d := [Error("Invalid Attribute Value", Text("Attribute keys list must contain at least 1 elements, got: 0"))];
      assert d[0].Error?;
      d
  }

  // ---------------------------------------------------------------------------
  // Create

  /**
   * The `mongo.IndexModel` of `Create`: the key document, and `unique`,
   * `sparse`, `ttl`, `name` and `background` as pointers taken from the plan.
   */
  function RequestOf(plan: IndexModel, keys: Document, partial: Option<Document>): (req: IndexRequest)
    ensures req.keys == keys && req.partialFilterExpression == partial
    ensures req.unique == ToPointer(plan.unique, false) && req.sparse == ToPointer(plan.sparse, false)
    ensures req.expireAfterSeconds == ToPointer(plan.ttl, 0) && req.background == ToPointer(plan.background, false)
    ensures req.name == ToPointer(plan.name, "")
  {
    IndexRequest(keys, ToPointer(plan.unique, false), ToPointer(plan.sparse, false), ToPointer(plan.ttl, 0),
                 ToPointer(plan.name, ""), ToPointer(plan.background, false), partial)
  }

  /** The plan of a configuration: `unique` and `sparse` default to false, `background` to true. */
  function Planned(config: IndexModel): (plan: IndexModel)
    ensures plan.unique == WithDefault(config.unique, false) && plan.sparse == WithDefault(config.sparse, false)
    ensures plan.background == WithDefault(config.background, true)
    ensures plan.(unique := config.unique, sparse := config.sparse, background := config.background) == config
  {
    config.(unique := WithDefault(config.unique, false), sparse := WithDefault(config.sparse, false),
            background := WithDefault(config.background, true))
  }

  /**
   * A configuration silent on `unique`, `sparse` and `background` asks the
   * store for a non-unique, non-sparse index built in the background.
   */
  lemma DefaultRequest(config: IndexModel, keys: Document, partial: Option<Document>)
    requires config.unique.Null? && config.sparse.Null? && config.background.Null?
    ensures var req := RequestOf(Planned(config), keys, partial);
            req.unique == Some(false) && req.sparse == Some(false) && req.background == Some(true)
  {
  }

  /** The plan passes the duplicate check: no listed index has its name. */
  predicate NoDuplicate(dbs: Databases, plan: IndexModel) {
    !HasIndexNamed(IndexesOf(dbs, DatabaseOf(plan), CollectionOf(plan)), NameOf(plan))
  }

  /**
   * `Create`: list the indexes, refuse a name already in use, build the
   * keys and options, parse the partial filter, create, and record the
   * identity under the name the server returned. Every refusal leaves the
   * store and the state as they were.
   */
  method Create(client: Client, plan: IndexModel, json: ExtJson, listFail: Option<string>, reply: Result<string, string>)
    returns (state: StateOutcome<IndexModel>, diags: seq<Diagnostic>)
    requires client.Valid()
    modifies client
    ensures client.Valid()
    ensures state.Stored? <==> diags == []
    ensures !state.Stored? ==> state == Untouched && client.dbs == old(client.dbs)
    ensures listFail.Some? ==> diags == [Error("List indexes failed", Text(listFail.value))]
    ensures listFail.None? && !NoDuplicate(old(client.dbs), plan) ==>
              diags == [Error("Index already exists", Text("An index named " + NameOf(plan) + " already exists."))]
    ensures listFail.None? && NoDuplicate(old(client.dbs), plan) && ParseNonEmpty(json, ValueString(plan.partial)).Failure? ==>
              diags == [Error("invalid partial_filter_expression JSON", Text(ParseNonEmpty(json, ValueString(plan.partial)).error))]
    ensures listFail.None? && NoDuplicate(old(client.dbs), plan) && ParseNonEmpty(json, ValueString(plan.partial)).Success? && reply.Failure? ==>
              diags == [Error("create index failed", Text(reply.error))]
    ensures listFail.None? && NoDuplicate(old(client.dbs), plan) && ParseNonEmpty(json, ValueString(plan.partial)).Success? && reply.Success? ==>
              state == Stored(plan.(id := Known(IndexId(DatabaseOf(plan), CollectionOf(plan), reply.value)))) &&
              client.dbs == PutIndex(old(client.dbs), DatabaseOf(plan), CollectionOf(plan),
                                     SpecOf(RequestOf(plan, KeysDocument(plan.keys), ParseNonEmpty(json, ValueString(plan.partial)).value), reply.value))
  {
    var db, coll, name := DatabaseOf(plan), CollectionOf(plan), NameOf(plan);
    var specifications := client.ListSpecifications(db, coll, listFail);
    if specifications.Failure? {
      return Untouched, [Error("List indexes failed", Text(specifications.error))];
    }
    if HasIndexNamed(specifications.value, name) {
      return Untouched, [Error("Index already exists", Text("An index named " + name + " already exists."))];
    }

    var keys := BuildKeys(plan.keys);
    var partial: Option<Document> := None;
    var p := ValueString(plan.partial);
    if p != "" {
      var parsed := json.parse(p);
      if parsed.Failure? {
        return Untouched, [Error("invalid partial_filter_expression JSON", Text(parsed.error))];
      }
      partial := Some(parsed.value);
    }
    var req := RequestOf(plan, keys, partial);

    var created := client.CreateIndex(db, coll, req, reply);
    if created.Failure? {
      return Untouched, [Error("create index failed", Text(created.error))];
    }
    state := Stored(plan.(id := Known(IndexId(db, coll, created.value))));
    diags := [];
  }

  // ---------------------------------------------------------------------------
  // Read

  /** The state `Read` stores from a found index: options and keys from the listing, identity from the state's names. */
  function ReadBack(prior: IndexModel, spec: IndexSpec, keysDoc: Document): (m: IndexModel)
    ensures m.unique == FromPointer(spec.unique) && m.sparse == FromPointer(spec.sparse)
    ensures m.ttl == FromPointer(spec.expireAfterSeconds) && m.keys == Decoded(keysDoc)
    ensures m.id == Known(IndexId(DatabaseOf(prior), CollectionOf(prior), NameOf(prior)))
    ensures m.database == prior.database && m.collection == prior.collection && m.name == prior.name
    ensures m.partial == prior.partial && m.background == prior.background
  {
    prior.(unique := FromPointer(spec.unique), sparse := FromPointer(spec.sparse), ttl := FromPointer(spec.expireAfterSeconds),
           keys := Decoded(keysDoc), id := Known(IndexId(DatabaseOf(prior), CollectionOf(prior), NameOf(prior))))
  }

  /** The index Read finds: the first listed one with the state's name. */
  function Found(dbs: Databases, prior: IndexModel): Option<IndexSpec> {
    FirstMatch(Lift(IndexesOf(dbs, DatabaseOf(prior), CollectionOf(prior))), NameOf(prior))
  }

  /**
   * `Read`: list, remove the resource when no index has the name (and then,
   * with no return in between, fail with "Index not found"), otherwise copy
   * the options and decode the keys of the first match.
   */
  method Read(client: Client, prior: IndexModel, listFail: Option<string>)
    returns (state: StateOutcome<IndexModel>, diags: seq<Diagnostic>)
    ensures listFail.Some? ==> state == Untouched && diags == [Error("Failed to list index", Text(listFail.value))]
    ensures listFail.None? && Found(client.dbs, prior).None? ==>
              state == Removed && diags == [Error("Index not found", Text(""))]
    ensures listFail.None? && Found(client.dbs, prior).Some? && Found(client.dbs, prior).value.keysDocument.Malformed? ==>
              state == Untouched &&
              diags == [Error("Failed to decode index keys", Text(Found(client.dbs, prior).value.keysDocument.reason))]
    ensures listFail.None? && Found(client.dbs, prior).Some? && Found(client.dbs, prior).value.keysDocument.Wellformed? ==>
              var spec := Found(client.dbs, prior).value;
              state == Stored(ReadBack(prior, spec, spec.keysDocument.doc)) && diags == Skipped(spec.keysDocument.doc)
  {
    state, diags := Untouched, [];
    var db, coll, name := DatabaseOf(prior), CollectionOf(prior), NameOf(prior);
    var indexes := client.ListSpecifications(db, coll, listFail);
    if indexes.Failure? {
      return Untouched, [Error("Failed to list index", Text(indexes.error))];
    }

    FindAgreesWithContains(indexes.value, name);
    if !HasIndexNamed(indexes.value, name) {
      state := Removed;
    }

    var index := Find(Lift(indexes.value), name);
    if index.None? {
      diags := diags + [Error("Index not found", Text(""))];
      return;
    }

    var keysDoc := Unmarshal(index.value.keysDocument);
    if keysDoc.Failure? {
      diags := diags + [Error("Failed to decode index keys", Text(keysDoc.error))];
      return;
    }
    var keys, warnings := DecodeKeyOrder(keysDoc.value);
    diags := diags + warnings;
    var m := prior.(unique := FromPointer(index.value.unique), sparse := FromPointer(index.value.sparse),
                    ttl := FromPointer(index.value.expireAfterSeconds), keys := keys);
    m := m.(id := Known(IndexId(db, coll, name)));
    state := Stored(m);
  }

  // ---------------------------------------------------------------------------
  // Update, Delete, ImportState

  /** `Update`: every meaningful change replaces the index, so the plan is stored as it is and no command is sent. */
  function Update(plan: IndexModel): (r: (StateOutcome<IndexModel>, seq<Diagnostic>))
    ensures r == (Stored(plan), [])
  {
    (Stored(plan), [])
  }

  /** A change of `background` alone is stored as planned and touches no index. */
  lemma BackgroundChangeIsStored(state: IndexModel, b: TfBool)
    requires b != state.background
    ensures Classify(state, state.(background := b)) == UpdateInPlace
    ensures Update(state.(background := b)).0 == Stored(state.(background := b))
  {
    BackgroundChangeUpdatesInPlace(state, b);
  }

  /** `Delete`: drop the index by name, surfacing any failure. */
  method Delete(client: Client, state: IndexModel, fail: Option<string>) returns (diags: seq<Diagnostic>)
    requires client.Valid()
    modifies client
    ensures client.Valid()
    ensures var r := DropIndexStep(old(client.dbs), DatabaseOf(state), CollectionOf(state), NameOf(state), fail);
            client.dbs == r.0 && diags == (if r.1.Some? then [Error("drop index failed", Text(r.1.value))] else [])
    ensures diags == [] <==> fail.None? && HasIndexNamed(IndexesOf(old(client.dbs), DatabaseOf(state), CollectionOf(state)), NameOf(state))
    ensures diags == [] ==> !HasIndexNamed(IndexesOf(client.dbs, DatabaseOf(state), CollectionOf(state)), NameOf(state))
  {
    var err := client.DropIndex(DatabaseOf(state), CollectionOf(state), NameOf(state), fail);
    diags := if err.Some? then [Error("drop index failed", Text(err.value))] else [];
  }

  /** The state an accepted import seeds: identity and names, every other attribute unset. */
  function Imported(id: string, ref: IndexRef): IndexModel {
    EmptyModel.(id := Known(id), name := Known(ref.name), collection := Known(ref.collection), database := Known(ref.database))
  }

  /**
   * `ImportState`: trim the identity; refuse it when empty, or when it does
   * not split into exactly three non-empty parts on its first two "/".
   */
  function ImportState(rawId: string): (r: (StateOutcome<IndexModel>, seq<Diagnostic>))
    ensures r.0.Stored? <==> r.1 == []
    ensures !r.0.Stored? ==> r.0 == Untouched && |r.1| == 1 && r.1[0].Error?
    ensures TrimSpace(rawId) == "" ==> r.1 == [Error("Empty import ID", Text("Expected format: 'database/collection/index'"))]
    ensures TrimSpace(rawId) != "" && ParseIndexId(TrimSpace(rawId)).None? ==>
              r.1 == [Error("Invalid import ID", Text("Expected 'database/collection/index', got " + TrimSpace(rawId)))]
    ensures r.0.Stored? ==> exists ref: IndexRef :: ParseIndexId(TrimSpace(rawId)) == Some(ref) && r.0.model == Imported(TrimSpace(rawId), ref)
    ensures TrimSpace(rawId) != "" && ParseIndexId(TrimSpace(rawId)).Some? ==>
              r == (Stored(Imported(TrimSpace(rawId), ParseIndexId(TrimSpace(rawId)).value)), [])
  {
    var id := TrimSpace(rawId);
    if id == "" then
      (Untouched, [Error("Empty import ID", Text("Expected format: 'database/collection/index'"))])
    else
      match ParseIndexId(id)
      case None => (Untouched, [Error("Invalid import ID", Text("Expected 'database/collection/index', got " + id))])
      case Some(ref) => (Stored(Imported(id, ref)), [])
  }

  /**
   * Import accepts exactly the identities made of a database and a
   * collection without "/" and a non-empty name, and seeds exactly those
   * names with the identity, leaving every other attribute unset.
   */
  lemma ImportRoundTrip(d: string, c: string, n: string)
    requires d != "" && c != "" && n != "" && '/' !in d && '/' !in c
    requires NoEdgeSpace(IndexId(d, c, n))
    ensures ImportState(IndexId(d, c, n)) ==
            (Stored(EmptyModel.(id := Known(IndexId(d, c, n)), database := Known(d), collection := Known(c), name := Known(n))), [])
  {
    TrimSpaceNoEdge(IndexId(d, c, n));
    ParseIndexIdRoundTrip(IndexRef(d, c, n));
  }

  /** The identity Create and Read record imports back to the same names. */
  lemma RecordedIdImports(m: IndexModel)
    requires DatabaseOf(m) != "" && CollectionOf(m) != "" && NameOf(m) != ""
    requires '/' !in DatabaseOf(m) && '/' !in CollectionOf(m)
    requires NoEdgeSpace(IndexId(DatabaseOf(m), CollectionOf(m), NameOf(m)))
    ensures var r := ImportState(IndexId(DatabaseOf(m), CollectionOf(m), NameOf(m)));
            r.0.Stored? && ValueString(r.0.model.database) == DatabaseOf(m) &&
            ValueString(r.0.model.collection) == CollectionOf(m) && ValueString(r.0.model.name) == NameOf(m)
  {
    ImportRoundTrip(DatabaseOf(m), CollectionOf(m), NameOf(m));
  }

  // ---------------------------------------------------------------------------
  // Lifecycle

  /**
   * One index through its life on a store without it, its partial filter
   * either empty or one that parses: Create records it
   * under its name, a second Create of the same name is refused, Read gives
   * back exactly the created state, Delete drops it, and a Read after that
   * removes the resource.
   */
  method Lifecycle(client: Client, plan: IndexModel, json: ExtJson)
    returns (created: StateOutcome<IndexModel>, again: seq<Diagnostic>, read: StateOutcome<IndexModel>,
             dropped: seq<Diagnostic>, gone: StateOutcome<IndexModel>)
    requires client.Valid() && NoDuplicate(client.dbs, plan)
    requires ValueString(plan.partial) == "" || json.parse(ValueString(plan.partial)).Success?
    requires !plan.unique.Unknown? && !plan.sparse.Unknown? && !plan.ttl.Unknown?
    requires forall i :: 0 <= i < |plan.keys| ==> KnownKey(plan.keys[i])
    modifies client
    ensures client.Valid()
    ensures created == Stored(plan.(id := Known(IndexId(DatabaseOf(plan), CollectionOf(plan), NameOf(plan)))))
    ensures again == [Error("Index already exists", Text("An index named " + NameOf(plan) + " already exists."))]
    ensures read == created
    ensures dropped == [] && gone == Removed
  {
    var db, coll, name := DatabaseOf(plan), CollectionOf(plan), NameOf(plan);
    var d1;
    created, d1 := Create(client, plan, json, None, Success(name));
    var spec := SpecOf(RequestOf(plan, KeysDocument(plan.keys), ParseNonEmpty(json, ValueString(plan.partial)).value), name);
    assert Found(client.dbs, plan) == Some(spec);
    FindAgreesWithContains(IndexesOf(client.dbs, db, coll), name);

    var s2;
    s2, again := Create(client, plan, json, None, Success(name));

    var d3;
    read, d3 := Read(client, created.model, None);
    KeysRoundTrip(plan.keys);
    PointerRoundTrip(plan.unique, false);
    PointerRoundTrip(plan.sparse, false);
    PointerRoundTrip(plan.ttl, 0);
    assert Found(client.dbs, created.model) == Some(spec);

    dropped := Delete(client, created.model, None);
    FindAgreesWithContains(IndexesOf(client.dbs, db, coll), name);
    var d5;
    gone, d5 := Read(client, created.model, None);
  }
}
