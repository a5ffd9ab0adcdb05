/**
 * The `mongodb_index` data source: look an index up by name in the
 * collection's listing and report its options, partial filter and keys.
 * Unlike the resource, a missing index is an error, never a removal.
 */
module IndexDataSource {
  import opened Wrappers
  import opened Bson
  import opened Framework
  import opened Identity
  import opened Specification
  import opened IndexKeys

  /** `DataSourceModel` of the index data source. */
  datatype IndexDataModel = IndexDataModel(
    id: TfString,
    database: TfString,
    collection: TfString,
    name: TfString,
    unique: TfBool,
    sparse: TfBool,
    ttl: TfInt,
    partial: TfString,
    keys: seq<KeyModel>)

  /** The partial filter as extended JSON: the configured value when the index has none. */
  function PartialText(plan: IndexDataModel, spec: IndexSpec, json: ExtJson): (r: Result<TfString, string>)
    ensures spec.partialFilterExpression.None? ==> r == Success(plan.partial)
    ensures spec.partialFilterExpression.Some? ==>
              match json.render(spec.partialFilterExpression.value)
              case Success(text) => r == Success(Known(text))
              case Failure(e) => r == Failure(e)
  {
    match spec.partialFilterExpression
    case None => Success(plan.partial)
    case Some(filter) =>
      match json.render(filter)
      case Success(text) => Success(Known(text))
      case Failure(e) => Failure(e)
  }

  /** The state stored for a found index: options copied (absent ones null), keys decoded, identity from the configuration. */
  function Reported(plan: IndexDataModel, spec: IndexSpec, partial: TfString, keysDoc: Document): (m: IndexDataModel)
    ensures m.sparse == FromPointer(spec.sparse) && m.unique == FromPointer(spec.unique)
    ensures m.ttl == FromPointer(spec.expireAfterSeconds) && m.partial == partial
    ensures m.keys == Decoded(keysDoc)
    ensures m.id == Known(IndexId(ValueString(plan.database), ValueString(plan.collection), ValueString(plan.name)))
    ensures m.database == plan.database && m.collection == plan.collection && m.name == plan.name
  {
    plan.(sparse := FromPointer(spec.sparse), unique := FromPointer(spec.unique), ttl := FromPointer(spec.expireAfterSeconds),
          partial := partial, keys := Decoded(keysDoc),
          id := Known(IndexId(ValueString(plan.database), ValueString(plan.collection), ValueString(plan.name))))
  }

  /**
   * `Read`: the listing (or its failure) is the outcome of
   * `ListExSpecifications`; the first non-nil entry with the configured
   * name is reported.
   */
  method Read(plan: IndexDataModel, listing: Result<ExIndexSpecifications, string>, json: ExtJson)
    returns (state: StateOutcome<IndexDataModel>, diags: seq<Diagnostic>)
    ensures !state.Removed?
    ensures listing.Failure? ==> state == Untouched && diags == [Error("Failed to list index specifications", Text(listing.error))]
    ensures listing.Success? && FirstMatch(listing.value, ValueString(plan.name)).None? ==>
              state == Untouched && diags == [Error("Index not found", Text(""))]
    ensures listing.Success? && FirstMatch(listing.value, ValueString(plan.name)).Some? ==>
              var spec := FirstMatch(listing.value, ValueString(plan.name)).value;
              var partial := PartialText(plan, spec, json);
              (partial.Failure? ==>
                 state == Untouched && diags == [Error("Failed to marshal partial filter expression", Text(partial.error))]) &&
              (partial.Success? && spec.keysDocument.Malformed? ==>
                 state == Untouched && diags == [Error("Failed to decode index keys", Text(spec.keysDocument.reason))]) &&
              (partial.Success? && spec.keysDocument.Wellformed? ==>
                 state == Stored(Reported(plan, spec, partial.value, spec.keysDocument.doc)) &&
                 diags == Skipped(spec.keysDocument.doc))
  {
    if listing.Failure? {
      return Untouched, [Error("Failed to list index specifications", Text(listing.error))];
    }
    var index := Find(listing.value, ValueString(plan.name));
    if index.None? {
      return Untouched, [Error("Index not found", Text(""))];
    }
    var spec := index.value;

    var m := plan.(sparse := FromPointer(spec.sparse), unique := FromPointer(spec.unique), ttl := FromPointer(spec.expireAfterSeconds));
    if spec.partialFilterExpression.Some? {
      var extJson := json.render(spec.partialFilterExpression.value);
      if extJson.Failure? {
        return Untouched, [Error("Failed to marshal partial filter expression", Text(extJson.error))];
      }
      m := m.(partial := Known(extJson.value));
    }

    var keysDoc := Unmarshal(spec.keysDocument);
    if keysDoc.Failure? {
      return Untouched, [Error("Failed to decode index keys", Text(keysDoc.error))];
    }
    var keys, warnings := DecodeKeyOrder(keysDoc.value);
    m := m.(keys := keys);
    m := m.(id := Known(IndexId(ValueString(plan.database), ValueString(plan.collection), ValueString(plan.name))));
    return Stored(m), warnings;
  }
}
