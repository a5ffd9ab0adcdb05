/**
 * The `mongodb_database` data source: a database is found when it lists at
 * least one collection, and `keep_placeholder` reports whether the
 * placeholder collection is among them.
 */
module DatabaseDataSource {
  import opened Wrappers
  import opened Framework
  import opened Store
  import DatabaseResource

  /** `DataSourceModel` of the database data source. */
  datatype DatabaseDataModel = DatabaseDataModel(id: TfString, name: TfString, keepPlaceholder: TfBool)

  /** `Read` on the outcome of `ListCollectionNames`: missing databases are an error, not an empty result. */
  function Read(config: DatabaseDataModel, names: Result<set<string>, string>): (r: (StateOutcome<DatabaseDataModel>, seq<Diagnostic>))
    ensures !r.0.Removed?
    ensures r.0.Stored? <==> r.1 == []
    ensures r.0.Stored? <==> names.Success? && names.value != {}
    ensures names.Failure? ==> r == (Untouched, [Error("Error read database", Text("list collections failed: " + names.error))])
    ensures names.Success? && names.value == {} ==> r == (Untouched, [Error("Error read database", Text("not found"))])
    ensures r.0.Stored? ==>
              r.0.model == config.(id := Known(ValueString(config.name)),
                                   keepPlaceholder := Known(DatabaseResource.Placeholder in names.value))
  {
    match names
    case Failure(e) => (Untouched, [Error("Error read database", Text("list collections failed: " + e))])
    case Success(ns) =>
      if ns == {} then (Untouched, [Error("Error read database", Text("not found"))])
      else (Stored(config.(id := Known(ValueString(config.name)), keepPlaceholder := Known(DatabaseResource.Placeholder in ns))), [])
  }

  /**
   * Against the store, the data source finds exactly the databases that
   * exist, and reports the same name, identity and placeholder flag as the
   * resource's Read.
   */
  lemma AgreesWithStore(dbs: Databases, config: DatabaseDataModel)
    requires Consistent(dbs)
    ensures var r := Read(config, CollectionNamesListing(dbs, ValueString(config.name), None));
            (r.0.Stored? <==> ValueString(config.name) in dbs) &&
            (r.0.Stored? ==> r.0.model.id == Known(ValueString(config.name)) &&
                             r.0.model.keepPlaceholder == Known(HasCollection(dbs, ValueString(config.name), DatabaseResource.Placeholder)))
  {
    DatabasePresence(dbs, ValueString(config.name));
  }
}
