/**
 * The `mongodb_collection` data source: list the collection by name and
 * report its validator (as extended JSON), validation level and action, and
 * its time-series options, with the server defaults where an option is
 * absent.
 */
module CollectionDataSource {
  import opened Wrappers
  import opened Bson
  import opened Framework
  import opened Text
  import opened Identity
  import opened Store
  import CollectionResource

  /** The `timeseries` block. */
  datatype TimeSeriesModel = TimeSeriesModel(
    timeField: TfString,
    metaField: TfString,
    granularity: TfString,
    bucketMaxSpanSeconds: TfInt,
    bucketRoundingSeconds: TfInt,
    expireAfterSeconds: TfInt)

  /** `DataSourceModel` of the collection data source; a missing block is `None`. */
  datatype CollectionDataModel = CollectionDataModel(
    id: TfString,
    database: TfString,
    name: TfString,
    validator: TfString,
    validationLevel: TfString,
    validationAction: TfString,
    timeseries: Option<TimeSeriesModel>)

  const ServerValidationLevel: string := "strict"
  const ServerValidationAction: string := "error"

  /** A string option, or `default` when the collection has no options or the option is absent or not a string. */
  function StringOption(options: Option<Document>, key: string, default: string): (r: TfString)
    ensures r.Known?
    ensures options.Some? && Lookup(options.value, key).Some? && Lookup(options.value, key).value.BString? ==>
              r.v == Lookup(options.value, key).value.s
    ensures !(options.Some? && Lookup(options.value, key).Some? && Lookup(options.value, key).value.BString?) ==>
              r.v == default
  {
    if options.None? then Known(default)
    else match LookupString(options.value, key)
      case Some(s) => Known(s)
      case None => Known(default)
  }

  /**
   * The reported validator: a validator document rendered as extended JSON;
   * a rendering failure is only a warning and leaves the configured value;
   * no validator, or one that is not a document, is null.
   */
  function ValidatorReport(configured: TfString, options: Option<Document>, json: ExtJson): (r: (TfString, seq<Diagnostic>))
    ensures !HasError(r.1) && |r.1| <= 1
    ensures !(options.Some? && Lookup(options.value, "validator").Some? && Lookup(options.value, "validator").value.BDocument?) ==>
              r == (Null, [])
    ensures options.Some? && Lookup(options.value, "validator").Some? && Lookup(options.value, "validator").value.BDocument? ==>
              var rendered := json.render(Lookup(options.value, "validator").value.doc);
              (rendered.Success? ==> r == (Known(rendered.value), [])) &&
              (rendered.Failure? ==>
                 r == (configured, [Warning("Failed to encode validator", Text("validator extjson encode error: " + rendered.error))]))
  {
    if options.None? then (Null, [])
    else match LookupDocument(options.value, "validator")
      case None => (Null, [])
      case Some(doc) =>
        match json.render(doc)
        case Success(text) => (Known(text), [])
        case Failure(e) => (configured, [Warning("Failed to encode validator", Text("validator extjson encode error: " + e))])
  }

  /**
   * The `timeseries` block, present exactly when the options hold a
   * `timeseries` document: its string fields are null unless the option is a
   * string, its integer fields null unless the option converts to int64, and
   * `expire_after_seconds` comes from the top-level options.
   */
  function TimeSeriesOf(options: Document): (r: Option<TimeSeriesModel>)
    ensures r.Some? <==> Lookup(options, "timeseries").Some? && Lookup(options, "timeseries").value.BDocument?
    ensures r.Some? ==>
              var ts := Lookup(options, "timeseries").value.doc;
              (r.value.timeField.Known? <==> LookupString(ts, "timeField").Some?) &&
              (r.value.timeField.Known? ==> Lookup(ts, "timeField") == Some(BString(r.value.timeField.v))) &&
              (r.value.metaField.Known? <==> LookupString(ts, "metaField").Some?) &&
              (r.value.metaField.Known? ==> Lookup(ts, "metaField") == Some(BString(r.value.metaField.v))) &&
              (r.value.granularity.Known? <==> LookupString(ts, "granularity").Some?) &&
              (r.value.granularity.Known? ==> Lookup(ts, "granularity") == Some(BString(r.value.granularity.v))) &&
              r.value.bucketMaxSpanSeconds == FromPointer(LookupInt64(ts, "bucketMaxSpanSeconds")) &&
              r.value.bucketRoundingSeconds == FromPointer(LookupInt64(ts, "bucketRoundingSeconds")) &&
              r.value.expireAfterSeconds == FromPointer(LookupInt64(options, "expireAfterSeconds"))
    ensures r.Some? ==> !r.value.timeField.Unknown? && !r.value.metaField.Unknown? && !r.value.granularity.Unknown?
  {
    match LookupDocument(options, "timeseries")
    case None => None
    case Some(ts) =>
      Some(TimeSeriesModel(
        FromPointer(LookupString(ts, "timeField")),
        FromPointer(LookupString(ts, "metaField")),
        FromPointer(LookupString(ts, "granularity")),
        FromPointer(LookupInt64(ts, "bucketMaxSpanSeconds")),
        FromPointer(LookupInt64(ts, "bucketRoundingSeconds")),
        FromPointer(LookupInt64(options, "expireAfterSeconds"))))
  }

  /** The state reported for the one listed collection, with the warnings of its validator. */
  function Reported(plan: CollectionDataModel, spec: CollectionSpecification, json: ExtJson): (r: (CollectionDataModel, seq<Diagnostic>))
    ensures !HasError(r.1)
    ensures r.0.id == Known(CollectionId(ValueString(plan.database), ValueString(plan.name)))
    ensures r.0.database == plan.database && r.0.name == plan.name
    ensures (r.0.validator, r.1) == ValidatorReport(plan.validator, spec.options, json)
    ensures r.0.validationLevel == StringOption(spec.options, "validationLevel", ServerValidationLevel)
    ensures r.0.validationAction == StringOption(spec.options, "validationAction", ServerValidationAction)
    ensures r.0.timeseries == if spec.options.Some? then TimeSeriesOf(spec.options.value) else None
  {
    var v := ValidatorReport(plan.validator, spec.options, json);
    (plan.(validator := v.0,
           validationLevel := StringOption(spec.options, "validationLevel", ServerValidationLevel),
           validationAction := StringOption(spec.options, "validationAction", ServerValidationAction),
           timeseries := if spec.options.Some? then TimeSeriesOf(spec.options.value) else None,
           id := Known(CollectionId(ValueString(plan.database), ValueString(plan.name)))),
     v.1)
  }

  /**
   * `Read`: the listing (or its failure) is the outcome of
   * `ListCollectionSpecifications` filtered by name; anything but exactly
   * one collection is "not found", with the count as the detail.
   */
  method Read(plan: CollectionDataModel, listing: Result<seq<CollectionSpecification>, string>, json: ExtJson)
    returns (state: StateOutcome<CollectionDataModel>, diags: seq<Diagnostic>)
    ensures !state.Removed?
    ensures state.Stored? <==> listing.Success? && |listing.value| == 1
    ensures state.Stored? <==> !HasError(diags)
    ensures listing.Failure? ==>
              state == Untouched && diags == [Error("Error reading collection", Text("Failed to list collections: " + listing.error))]
    ensures listing.Success? && |listing.value| != 1 ==>
              state == Untouched && diags == [Error("Collection not found", Text(DecimalString(|listing.value|)))]
    ensures listing.Success? && |listing.value| == 1 ==>
              (state.model, diags) == Reported(plan, listing.value[0], json)
  {
    if listing.Failure? {
      diags := [Error("Error reading collection", Text("Failed to list collections: " + listing.error))];
      assert diags[0].Error?;
      return Untouched, diags;
    }
    var collections := listing.value;
    if |collections| != 1 {
      diags := [Error("Collection not found", Text(DecimalString(|collections|)))];
      assert diags[0].Error?;
      return Untouched, diags;
    }
    var collection := collections[0];
    var m := plan;
    diags := [];
    if collection.options.Some? {
      var validator := LookupDocument(collection.options.value, "validator");
      if validator.Some? {
        var rendered := json.render(validator.value);
        if rendered.Failure? {
          diags := [Warning("Failed to encode validator", Text("validator extjson encode error: " + rendered.error))];
        } else {
          m := m.(validator := Known(rendered.value));
        }
      } else {
        m := m.(validator := Null);
      }
      var level := LookupString(collection.options.value, "validationLevel");
      m := m.(validationLevel := Known(if level.Some? then level.value else ServerValidationLevel));
      var action := LookupString(collection.options.value, "validationAction");
      m := m.(validationAction := Known(if action.Some? then action.value else ServerValidationAction));
    } else {
      m := m.(validator := Null, validationLevel := Known(ServerValidationLevel), validationAction := Known(ServerValidationAction));
    }
    assert (m.validator, diags) == ValidatorReport(plan.validator, collection.options, json);
    assert m.validationLevel == StringOption(collection.options, "validationLevel", ServerValidationLevel);
    assert m.validationAction == StringOption(collection.options, "validationAction", ServerValidationAction);
    if collection.options.Some? {
      m := m.(timeseries := TimeSeriesOf(collection.options.value));
    } else {
      m := m.(timeseries := None);
    }
    m := m.(id := Known(CollectionId(ValueString(plan.database), ValueString(plan.name))));
    return Stored(m), diags;
  }

  /** A collection without options reports the server defaults and nothing else. */
  lemma DefaultsWithoutOptions(plan: CollectionDataModel, spec: CollectionSpecification, json: ExtJson)
    requires spec.options.None? || spec.options == Some([])
    ensures Reported(plan, spec, json) ==
            (plan.(validator := Null, validationLevel := Known(ServerValidationLevel), validationAction := Known(ServerValidationAction),
                   timeseries := None, id := Known(CollectionId(ValueString(plan.database), ValueString(plan.name)))),
             [])
  {
  }

  /**
   * A collection created by the resource is found by the data source, which
   * reports the planned level and action, no time-series block, and the
   * validator as stored: wrapped in `$jsonSchema`.
   */
  lemma CreatedCollectionReported(dbs: Databases, plan: CollectionResource.CollectionModel, config: CollectionDataModel,
                                  json: ExtJson, raw: Option<Document>)
    requires Consistent(dbs)
    requires !HasCollection(dbs, CollectionResource.DatabaseOf(plan), CollectionResource.NameOf(plan))
    requires plan.validationLevel.Known? && plan.validationAction.Known?
    requires config.database == plan.database && config.name == plan.name
    ensures var db := CollectionResource.DatabaseOf(plan);
            var name := CollectionResource.NameOf(plan);
            var after := CreateCollectionStep(dbs, db, name, CollectionResource.CreateOptions(plan, raw), None).0;
            var listing := CollectionSpecsListing(after, db, name, None);
            listing.Success? && |listing.value| == 1 &&
            var r := Reported(config, listing.value[0], json);
            r.0.validationLevel == plan.validationLevel &&
            r.0.validationAction == plan.validationAction &&
            r.0.timeseries.None? &&
            (raw.None? ==> r.0.validator.Null? && r.1 == []) &&
            (raw.Some? ==> match json.render([Element("$jsonSchema", BDocument(raw.value))])
                           case Success(text) => r.0.validator == Known(text) && r.1 == []
                           case Failure(_) => r.0.validator == config.validator && |r.1| == 1)
  {
    var db := CollectionResource.DatabaseOf(plan);
    var name := CollectionResource.NameOf(plan);
    var opts := CollectionResource.CreateOptions(plan, raw);
    var after := CreateCollectionStep(dbs, db, name, opts, None).0;
    assert OptionsOf(after, db, name) == opts;
    NotTimeSeries(opts);
  }

  /** Options that hold only the validation keys have no time-series block. */
  lemma NotTimeSeries(opts: Document)
    requires forall i :: 0 <= i < |opts| ==>
               opts[i].key == "validator" || opts[i].key == "validationLevel" || opts[i].key == "validationAction"
    ensures TimeSeriesOf(opts).None?
  {
    assert Lookup(opts, "timeseries").None?;
  }

  /**
   * After the resource's Update, the data source reports every option the
   * update changed as planned: the level and action it sent, and the
   * validator it sent, which is the parsed document itself.
   */
  lemma UpdatedCollectionReported(dbs: Databases, plan: CollectionResource.CollectionModel, prior: CollectionResource.CollectionModel,
                                  config: CollectionDataModel, json: ExtJson)
    requires Consistent(dbs) && HasCollection(dbs, CollectionResource.DatabaseOf(plan), CollectionResource.NameOf(plan))
    requires CollectionResource.CollModCommand(plan, prior, json).Success?
    ensures var db := CollectionResource.DatabaseOf(plan);
            var name := CollectionResource.NameOf(plan);
            var after := CommandStep(dbs, db, CollectionResource.CollModCommand(plan, prior, json).value, None).0;
            var listing := CollectionSpecsListing(after, db, name, None);
            listing.Success? && |listing.value| == 1 &&
            var r := Reported(config, listing.value[0], json);
            (CollectionResource.LevelChanged(plan, prior) ==> r.0.validationLevel == Known(ValueString(plan.validationLevel))) &&
            (CollectionResource.ActionChanged(plan, prior) ==> r.0.validationAction == Known(ValueString(plan.validationAction))) &&
            (CollectionResource.ValidatorChanged(plan, prior) ==>
               var sent := CollectionResource.CollModValidator(plan, json).value;
               json.render(sent.doc).Success? ==> r.0.validator == Known(json.render(sent.doc).value))
  {
    var db := CollectionResource.DatabaseOf(plan);
    var name := CollectionResource.NameOf(plan);
    var cmd := CollectionResource.CollModCommand(plan, prior, json).value;
    CollectionResource.UpdateAppliesPlan(dbs, plan, prior, json);
    CollModStep(dbs, db, name, cmd);
    var after := CommandStep(dbs, db, cmd, None).0;
    assert HasCollection(after, db, name);
    var opts := OptionsOf(after, db, name);
    assert CollectionSpecsListing(after, db, name, None) == Success([CollectionSpecification(name, Some(opts))]);
    ReportedFromOptions(config, name, opts, json);
  }

  /** What the data source reports for options whose level, action or validator is known. */
  lemma ReportedFromOptions(config: CollectionDataModel, name: string, opts: Document, json: ExtJson)
    ensures var r := Reported(config, CollectionSpecification(name, Some(opts)), json);
            (Lookup(opts, "validationLevel").Some? && Lookup(opts, "validationLevel").value.BString? ==>
               r.0.validationLevel == Known(Lookup(opts, "validationLevel").value.s)) &&
            (Lookup(opts, "validationAction").Some? && Lookup(opts, "validationAction").value.BString? ==>
               r.0.validationAction == Known(Lookup(opts, "validationAction").value.s)) &&
            (Lookup(opts, "validator").Some? && Lookup(opts, "validator").value.BDocument? &&
             json.render(Lookup(opts, "validator").value.doc).Success? ==>
               r.0.validator == Known(json.render(Lookup(opts, "validator").value.doc).value))
  {
  }
}
