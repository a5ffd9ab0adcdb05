/**
 * The `mongodb_collection` resource: schema defaults and enumerations, the
 * create options with the `$jsonSchema` wrapper, the `collStats` probe of
 * Read, the `collMod` command of Update, and Delete.
 */
module CollectionResource {
  import opened Wrappers
  import opened Bson
  import opened Framework
  import opened Identity
  import opened Store

  /** `ResourceModel` of the collection resource. */
  datatype CollectionModel = CollectionModel(
    id: TfString,
    database: TfString,
    name: TfString,
    validator: TfString,
    validationLevel: TfString,
    validationAction: TfString)

  function DatabaseOf(m: CollectionModel): string { ValueString(m.database) }
  function NameOf(m: CollectionModel): string { ValueString(m.name) }

  // ---------------------------------------------------------------------------
  // Schema

  const DefaultValidationLevel: string := "strict"
  const DefaultValidationAction: string := "error"
  const ValidationLevels: seq<string> := ["off", "strict", "moderate"]
  const ValidationActions: seq<string> := ["error", "warn"]

  /** The plan of a configuration: `validation_level` and `validation_action` default when not set. */
  function Planned(config: CollectionModel): (plan: CollectionModel)
    ensures plan.validationLevel == WithDefault(config.validationLevel, DefaultValidationLevel)
    ensures plan.validationAction == WithDefault(config.validationAction, DefaultValidationAction)
    ensures plan.(validationLevel := config.validationLevel, validationAction := config.validationAction) == config
  {
    config.(validationLevel := WithDefault(config.validationLevel, DefaultValidationLevel),
            validationAction := WithDefault(config.validationAction, DefaultValidationAction))
  }

  /** `stringvalidator.OneOf(...)`: a known value outside the list is refused. */
  function OneOf(attribute: string, allowed: seq<string>, shown: string, x: TfString): (diags: seq<Diagnostic>)
    ensures diags == [] <==> !x.Known? || x.v in allowed
  {
    if !x.Known? || x.v in allowed then []
    else [Error("Invalid Attribute Value Match",
                Text("Attribute " + attribute + " value must be one of: " + shown + ", got: \"" + x.v + "\""))]
  }

  /** The configuration validators of the schema. */
  function ValidateConfig(config: CollectionModel): (diags: seq<Diagnostic>)
    ensures diags == [] <==> (config.validationLevel.Known? ==> config.validationLevel.v in ValidationLevels) &&
                             (config.validationAction.Known? ==> config.validationAction.v in ValidationActions)
  {
    OneOf("validation_level", ValidationLevels, "[\"off\" \"strict\" \"moderate\"]", config.validationLevel) +
    OneOf("validation_action", ValidationActions, "[\"error\" \"warn\"]", config.validationAction)
  }

  /** A valid configuration whose values are known plans a level and an action from the allowed lists. */
  lemma PlannedValidationIsAllowed(config: CollectionModel)
    requires ValidateConfig(config) == []
    requires !config.validationLevel.Unknown? && !config.validationAction.Unknown?
    ensures Planned(config).validationLevel.Known? && Planned(config).validationLevel.v in ValidationLevels
    ensures Planned(config).validationAction.Known? && Planned(config).validationAction.v in ValidationActions
  {
  }

  /** No attribute has a `RequiresReplace` plan modifier: every change of the plan goes to Update. */
  function Classify(state: CollectionModel, plan: CollectionModel): (v: Verdict)
    ensures v != Replace
    ensures v == Unchanged <==> plan == state
  {
    if plan == state then Unchanged else UpdateInPlace
  }

  // ---------------------------------------------------------------------------
  // Create

  /** `bson.M{"$jsonSchema": raw}`: the validator `Create` sends. */
  function JsonSchema(raw: Document): (r: BsonValue)
    ensures r.BDocument? && |r.doc| == 1
    ensures Lookup(r.doc, "$jsonSchema") == Some(BDocument(raw))
  {
    BDocument([Element("$jsonSchema", BDocument(raw))])
  }

  /**
   * The options of `CreateCollection`: the wrapped validator when one was
   * parsed, and the level and action as pointers from the plan.
   */
  function CreateOptions(plan: CollectionModel, validator: Option<Document>): (opts: Document)
    ensures Lookup(opts, "validator") == if validator.Some? then Some(JsonSchema(validator.value)) else None
    ensures Lookup(opts, "validationLevel") ==
            if plan.validationLevel.Null? then None else Some(BString(ToPointer(plan.validationLevel, "").value))
    ensures Lookup(opts, "validationAction") ==
            if plan.validationAction.Null? then None else Some(BString(ToPointer(plan.validationAction, "").value))
    ensures forall i :: 0 <= i < |opts| ==>
              opts[i].key == "validator" || opts[i].key == "validationLevel" || opts[i].key == "validationAction"
  {
    var v := if validator.Some? then [Element("validator", JsonSchema(validator.value))] else [];
    var level := ToPointer(plan.validationLevel, "");
    var action := ToPointer(plan.validationAction, "");
    var l := if level.Some? then [Element("validationLevel", BString(level.value))] else [];
    var a := if action.Some? then [Element("validationAction", BString(action.value))] else [];
    LookupConcat3(v, l, a);
    v + l + a
  }

  /** Lookup in three concatenated single-key parts. */
  lemma LookupConcat3(v: Document, l: Document, a: Document)
    requires |v| <= 1 && |l| <= 1 && |a| <= 1
    requires v != [] ==> v[0].key == "validator"
    requires l != [] ==> l[0].key == "validationLevel"
    requires a != [] ==> a[0].key == "validationAction"
    ensures Lookup(v + l + a, "validator") == if v != [] then Some(v[0].value) else None
    ensures Lookup(v + l + a, "validationLevel") == if l != [] then Some(l[0].value) else None
    ensures Lookup(v + l + a, "validationAction") == if a != [] then Some(a[0].value) else None
  {
    if a != [] {
      assert a == [a[0]] + [];
      LookupCons(a[0], [], "validator");
      LookupCons(a[0], [], "validationLevel");
      LookupCons(a[0], [], "validationAction");
    }
    if l != [] {
      assert l + a == [l[0]] + a;
      LookupCons(l[0], a, "validator");
      LookupCons(l[0], a, "validationLevel");
      LookupCons(l[0], a, "validationAction");
    }
    if v != [] {
      assert v + l + a == [v[0]] + (l + a);
      LookupCons(v[0], l + a, "validator");
      LookupCons(v[0], l + a, "validationLevel");
      LookupCons(v[0], l + a, "validationAction");
    } else {
      assert v + l + a == l + a;
    }
  }

  /**
   * `Create`: parse a non-empty validator (refusing invalid JSON before any
   * command), create the collection with the wrapped validator and the
   * planned level and action, and record `database/name` as the identity.
   */
  method Create(client: Client, plan: CollectionModel, json: ExtJson, fail: Option<string>)
    returns (state: StateOutcome<CollectionModel>, diags: seq<Diagnostic>)
    requires client.Valid()
    modifies client
    ensures client.Valid()
    ensures state.Stored? <==> diags == []
    ensures !state.Stored? ==> state == Untouched && client.dbs == old(client.dbs)
    ensures ParseNonEmpty(json, ValueString(plan.validator)).Failure? ==>
              diags == [Error("invalid validator JSON", Text(ParseNonEmpty(json, ValueString(plan.validator)).error))]
    ensures ParseNonEmpty(json, ValueString(plan.validator)).Success? ==>
              var step := CreateCollectionStep(old(client.dbs), DatabaseOf(plan), NameOf(plan),
                                               CreateOptions(plan, ParseNonEmpty(json, ValueString(plan.validator)).value), fail);
              client.dbs == step.0 &&
              (step.1.Some? ==> diags == [Error("create collection failed", Text(step.1.value))]) &&
              (step.1.None? ==> state == Stored(plan.(id := Known(CollectionId(DatabaseOf(plan), NameOf(plan))))))
  {
    var validator: Option<Document> := None;
    var v := ValueString(plan.validator);
    if v != "" {
      var raw := json.parse(v);
      if raw.Failure? {
        return Untouched, [Error("invalid validator JSON", Text(raw.error))];
      }
      validator := Some(raw.value);
    }
    var opts := CreateOptions(plan, validator);

    var err := client.CreateCollection(DatabaseOf(plan), NameOf(plan), opts, fail);
    if err.Some? {
      return Untouched, [Error("create collection failed", Text(err.value))];
    }
    state := Stored(plan.(id := Known(CollectionId(DatabaseOf(plan), NameOf(plan)))));
    diags := [];
  }

  // ---------------------------------------------------------------------------
  // Read

  /**
   * `Read`: probe the collection with `collStats`; any error removes the
   * resource (the collection is taken to be gone), otherwise the state is
   * kept as it was, nothing re-read.
   */
  method Read(client: Client, prior: CollectionModel, fail: Option<string>)
    returns (state: StateOutcome<CollectionModel>, diags: seq<Diagnostic>)
    requires client.Valid()
    modifies client
    ensures client.Valid() && client.dbs == old(client.dbs)
    ensures diags == []
    ensures state == if fail.None? && HasCollection(old(client.dbs), DatabaseOf(prior), NameOf(prior)) then Stored(prior) else Removed
  {
    CollStatsStep(client.dbs, DatabaseOf(prior), NameOf(prior));
    var err := client.RunCommand(DatabaseOf(prior), [Element("collStats", BString(NameOf(prior)))], fail);
    if err.Some? {
      return Removed, [];
    }
    return Stored(prior), [];
  }

  // ---------------------------------------------------------------------------
  // Update

  predicate ValidatorChanged(plan: CollectionModel, state: CollectionModel) {
    ValueString(plan.validator) != ValueString(state.validator)
  }

  predicate LevelChanged(plan: CollectionModel, state: CollectionModel) {
    ValueString(plan.validationLevel) != ValueString(state.validationLevel)
  }

  predicate ActionChanged(plan: CollectionModel, state: CollectionModel) {
    ValueString(plan.validationAction) != ValueString(state.validationAction)
  }

  /** The `validator` value `collMod` sends: `{}` to clear, the parsed document (not wrapped) otherwise. */
  function CollModValidator(plan: CollectionModel, json: ExtJson): (r: Result<BsonValue, string>)
    ensures ValueString(plan.validator) == "" ==> r == Success(BDocument([]))
    ensures ValueString(plan.validator) != "" ==>
              match json.parse(ValueString(plan.validator))
              case Success(raw) => r == Success(BDocument(raw))
              case Failure(e) => r == Failure(e)
  {
    match ParseNonEmpty(json, ValueString(plan.validator))
    case Failure(e) => Failure(e)
    case Success(None) => Success(BDocument([]))
    case Success(Some(raw)) => Success(BDocument(raw))
  }

  /**
   * The fields `collMod` carries after the collection name, given the
   * validator value to send: `validator`, `validationLevel` and
   * `validationAction`, in that order, each only when plan and state differ
   * by `ValueString` (so null and "" are the same).
   */
  function Changes(plan: CollectionModel, state: CollectionModel, validator: BsonValue): (fields: Document)
    ensures KeysOf(fields) == (if ValidatorChanged(plan, state) then ["validator"] else []) +
                              (if LevelChanged(plan, state) then ["validationLevel"] else []) +
                              (if ActionChanged(plan, state) then ["validationAction"] else [])
    ensures Lookup(fields, "validator") == (if ValidatorChanged(plan, state) then Some(validator) else None)
    ensures Lookup(fields, "validationLevel") ==
              (if LevelChanged(plan, state) then Some(BString(ValueString(plan.validationLevel))) else None)
    ensures Lookup(fields, "validationAction") ==
              (if ActionChanged(plan, state) then Some(BString(ValueString(plan.validationAction))) else None)
    ensures Lookup(fields, "collMod") == None
  {
    var v := Field(ValidatorChanged(plan, state), "validator", validator);
    var l := Field(LevelChanged(plan, state), "validationLevel", BString(ValueString(plan.validationLevel)));
    var a := Field(ActionChanged(plan, state), "validationAction", BString(ValueString(plan.validationAction)));
    FieldFacts(ValidatorChanged(plan, state), "validator", validator);
    FieldFacts(LevelChanged(plan, state), "validationLevel", BString(ValueString(plan.validationLevel)));
    FieldFacts(ActionChanged(plan, state), "validationAction", BString(ValueString(plan.validationAction)));
    LookupConcat3(v, l, a);
    NoCommandKey(v, l, a);
    KeysOfConcat3(v, l, a);
    v + l + a
  }

  /** One field of the command, present only when its attribute changed. */
  function Field(changed: bool, key: string, value: BsonValue): Document {
    if changed then [Element(key, value)] else []
  }

  lemma FieldFacts(changed: bool, key: string, value: BsonValue)
    ensures |Field(changed, key, value)| <= 1
    ensures Field(changed, key, value) != [] <==> changed
    ensures changed ==> Field(changed, key, value)[0] == Element(key, value)
    ensures KeysOf(Field(changed, key, value)) == if changed then [key] else []
  {
  }

  /** None of the three parts carries the command's own key. */
  lemma NoCommandKey(v: Document, l: Document, a: Document)
    requires |v| <= 1 && |l| <= 1 && |a| <= 1
    requires v != [] ==> v[0].key == "validator"
    requires l != [] ==> l[0].key == "validationLevel"
    requires a != [] ==> a[0].key == "validationAction"
    ensures Lookup(v + l + a, "collMod") == None
  {
    if a != [] {
      assert a == [a[0]] + [];
      LookupCons(a[0], [], "collMod");
    }
    if l != [] {
      assert l + a == [l[0]] + a;
      LookupCons(l[0], a, "collMod");
    }
    if v != [] {
      assert v + l + a == [v[0]] + (l + a);
      LookupCons(v[0], l + a, "collMod");
    } else {
      assert v + l + a == l + a;
    }
  }

  lemma KeysOfConcat3(v: Document, l: Document, a: Document)
    ensures KeysOf(v + l + a) == KeysOf(v) + KeysOf(l) + KeysOf(a)
  {
  }

  /** The command names the collection first; every later key is looked up among the fields. */
  lemma LookupAfterHead(name: string, fields: Document, k: string)
    requires k != "collMod"
    ensures Lookup([Element("collMod", BString(name))] + fields, k) == Lookup(fields, k)
  {
    assert ([Element("collMod", BString(name))] + fields)[1..] == fields;
  }

  /**
   * The `collMod` command of Update: the collection name, then the changed
   * fields. It fails only when a changed, non-empty validator does not
   * parse, and it carries something beyond the name exactly when one of the
   * three attributes changed.
   */
  function CollModCommand(plan: CollectionModel, state: CollectionModel, json: ExtJson): (r: Result<Document, string>)
    ensures r.Failure? <==> ValidatorChanged(plan, state) && CollModValidator(plan, json).Failure?
    ensures r.Failure? ==> r.error == CollModValidator(plan, json).error
    ensures r.Success? ==> |r.value| >= 1 && r.value[0] == Element("collMod", BString(NameOf(plan)))
    ensures r.Success? ==> (|r.value| > 1 <==> ValidatorChanged(plan, state) || LevelChanged(plan, state) || ActionChanged(plan, state))
    ensures r.Success? ==> r.value[1..] == Changes(plan, state, if ValidatorChanged(plan, state) then CollModValidator(plan, json).value else BDocument([]))
  {
    var head := [Element("collMod", BString(NameOf(plan)))];
    if ValidatorChanged(plan, state) && CollModValidator(plan, json).Failure? then
      Failure(CollModValidator(plan, json).error)
    else
      var fields := Changes(plan, state, if ValidatorChanged(plan, state) then CollModValidator(plan, json).value else BDocument([]));
      assert |fields| == |KeysOf(fields)|;
      var cmd := head + fields;
      assert cmd[1..] == fields;
      Success(cmd)
  }

  /** Every key of the command after the name, and where its value comes from. */
  lemma CollModFields(plan: CollectionModel, state: CollectionModel, json: ExtJson)
    requires CollModCommand(plan, state, json).Success?
    ensures var cmd := CollModCommand(plan, state, json).value;
            KeysOf(cmd) == ["collMod"] + (if ValidatorChanged(plan, state) then ["validator"] else []) +
                                         (if LevelChanged(plan, state) then ["validationLevel"] else []) +
                                         (if ActionChanged(plan, state) then ["validationAction"] else []) &&
            Lookup(cmd, "validator") == (if ValidatorChanged(plan, state) then Some(CollModValidator(plan, json).value) else None) &&
            Lookup(cmd, "validationLevel") ==
              (if LevelChanged(plan, state) then Some(BString(ValueString(plan.validationLevel))) else None) &&
            Lookup(cmd, "validationAction") ==
              (if ActionChanged(plan, state) then Some(BString(ValueString(plan.validationAction))) else None)
  {
    var cmd := CollModCommand(plan, state, json).value;
    var fields := cmd[1..];
    assert cmd == [Element("collMod", BString(NameOf(plan)))] + fields;
    FieldLookups(plan, state, json);
    FieldKeys(plan, state, json);
    LookupAfterHead(NameOf(plan), fields, "validator");
    LookupAfterHead(NameOf(plan), fields, "validationLevel");
    LookupAfterHead(NameOf(plan), fields, "validationAction");
    KeysOfCons(cmd);
  }

  /** The keys of the fields after the collection name. */
  lemma FieldKeys(plan: CollectionModel, prior: CollectionModel, json: ExtJson)
    requires CollModCommand(plan, prior, json).Success?
    ensures KeysOf(CollModCommand(plan, prior, json).value[1..]) ==
              (if ValidatorChanged(plan, prior) then ["validator"] else []) +
              (if LevelChanged(plan, prior) then ["validationLevel"] else []) +
              (if ActionChanged(plan, prior) then ["validationAction"] else [])
  {
    var v := if ValidatorChanged(plan, prior) then CollModValidator(plan, json).value else BDocument([]);
    assert CollModCommand(plan, prior, json).value[1..] == Changes(plan, prior, v);
  }

  /** The keys of a non-empty document: its first key, then the rest's. */
  lemma KeysOfCons(doc: Document)
    requires |doc| >= 1
    ensures KeysOf(doc) == [doc[0].key] + KeysOf(doc[1..])
  {
  }

  /** Update's command built by successive appends, as the resource does it. */
  method BuildCollMod(plan: CollectionModel, state: CollectionModel, json: ExtJson) returns (r: Result<Document, string>)
    ensures r == CollModCommand(plan, state, json)
  {
    var head := [Element("collMod", BString(NameOf(plan)))];
    var cmd := head;
    ghost var sent := BDocument([]);
    if ValueString(plan.validator) != ValueString(state.validator) {
      if ValueString(plan.validator) == "" {
        cmd := cmd + [Element("validator", BDocument([]))];
      } else {
        var raw := json.parse(ValueString(plan.validator));
        if raw.Failure? {
          return Failure(raw.error);
        }
        cmd := cmd + [Element("validator", BDocument(raw.value))];
      }
      sent := CollModValidator(plan, json).value;
    }
    ghost var v := Field(ValidatorChanged(plan, state), "validator", sent);
    assert cmd == head + v;
    if ValueString(plan.validationLevel) != ValueString(state.validationLevel) {
      cmd := cmd + [Element("validationLevel", BString(ValueString(plan.validationLevel)))];
    }
    ghost var l := Field(LevelChanged(plan, state), "validationLevel", BString(ValueString(plan.validationLevel)));
    assert cmd == head + v + l;
    if ValueString(plan.validationAction) != ValueString(state.validationAction) {
      cmd := cmd + [Element("validationAction", BString(ValueString(plan.validationAction)))];
    }
    ghost var a := Field(ActionChanged(plan, state), "validationAction", BString(ValueString(plan.validationAction)));
    assert cmd == head + (v + l + a);
    assert v + l + a == Changes(plan, state, sent);
    return Success(cmd);
  }

  /**
   * `Update`: build the command, run it only when it carries a change, and
   * on success store the plan.
   */
  method Update(client: Client, plan: CollectionModel, prior: CollectionModel, json: ExtJson, fail: Option<string>)
    returns (state: StateOutcome<CollectionModel>, diags: seq<Diagnostic>)
    requires client.Valid()
    modifies client
    ensures client.Valid()
    ensures state.Stored? <==> diags == []
    ensures state.Stored? ==> state == Stored(plan)
    ensures !state.Stored? ==> state == Untouched && client.dbs == old(client.dbs)
    ensures CollModCommand(plan, prior, json).Failure? ==>
              diags == [Error("invalid validator JSON", Text(CollModCommand(plan, prior, json).error))]
    ensures CollModCommand(plan, prior, json).Success? && |CollModCommand(plan, prior, json).value| == 1 ==>
              state == Stored(plan) && client.dbs == old(client.dbs)
    ensures CollModCommand(plan, prior, json).Success? && |CollModCommand(plan, prior, json).value| > 1 ==>
              var step := CommandStep(old(client.dbs), DatabaseOf(plan), CollModCommand(plan, prior, json).value, fail);
              client.dbs == step.0 &&
              diags == (if step.1.Some? then [Error("collMod failed", Text(step.1.value))] else [])
  {
    var cmd := BuildCollMod(plan, prior, json);
    if cmd.Failure? {
      return Untouched, [Error("invalid validator JSON", Text(cmd.error))];
    }
    if |cmd.value| > 1 {
      var err := client.RunCommand(DatabaseOf(plan), cmd.value, fail);
      if err.Some? {
        return Untouched, [Error("collMod failed", Text(err.value))];
      }
    }
    return Stored(plan), [];
  }

  /**
   * A successful `collMod` from Update leaves the collection's options with
   * the planned level and action, and with the validator exactly as sent;
   * the options it does not name keep their values.
   */
  lemma {:induction false} UpdateAppliesPlan(dbs: Databases, plan: CollectionModel, prior: CollectionModel, json: ExtJson)
    requires Consistent(dbs) && HasCollection(dbs, DatabaseOf(plan), NameOf(plan))
    requires CollModCommand(plan, prior, json).Success?
    ensures var cmd := CollModCommand(plan, prior, json).value;
            var after := CommandStep(dbs, DatabaseOf(plan), cmd, None);
            var opts := OptionsOf(after.0, DatabaseOf(plan), NameOf(plan));
            var before := OptionsOf(dbs, DatabaseOf(plan), NameOf(plan));
            after.1.None? &&
            Lookup(opts, "validationLevel") ==
              (if LevelChanged(plan, prior) then Some(BString(ValueString(plan.validationLevel))) else Lookup(before, "validationLevel")) &&
            Lookup(opts, "validationAction") ==
              (if ActionChanged(plan, prior) then Some(BString(ValueString(plan.validationAction))) else Lookup(before, "validationAction")) &&
            Lookup(opts, "validator") ==
              (if ValidatorChanged(plan, prior) then Some(CollModValidator(plan, json).value) else Lookup(before, "validator"))
  {
    var cmd := CollModCommand(plan, prior, json).value;
    var db, name := DatabaseOf(plan), NameOf(plan);
    CollModStep(dbs, db, name, cmd);
    AppliedFields(OptionsOf(dbs, db, name), plan, prior, json);
  }

  /** The options after applying Update's fields, key by key. */
  lemma AppliedFields(before: Document, plan: CollectionModel, prior: CollectionModel, json: ExtJson)
    requires CollModCommand(plan, prior, json).Success?
    ensures var opts := ApplyFields(before, CollModCommand(plan, prior, json).value[1..]);
            Lookup(opts, "validationLevel") ==
              (if LevelChanged(plan, prior) then Some(BString(ValueString(plan.validationLevel))) else Lookup(before, "validationLevel")) &&
            Lookup(opts, "validationAction") ==
              (if ActionChanged(plan, prior) then Some(BString(ValueString(plan.validationAction))) else Lookup(before, "validationAction")) &&
            Lookup(opts, "validator") ==
              (if ValidatorChanged(plan, prior) then Some(CollModValidator(plan, json).value) else Lookup(before, "validator"))
  {
    var fields := CollModCommand(plan, prior, json).value[1..];
    FieldLookups(plan, prior, json);
    AppliedAt(before, fields, "validationLevel",
              if LevelChanged(plan, prior) then Some(BString(ValueString(plan.validationLevel))) else None);
    AppliedAt(before, fields, "validationAction",
              if ActionChanged(plan, prior) then Some(BString(ValueString(plan.validationAction))) else None);
    AppliedAt(before, fields, "validator",
              if ValidatorChanged(plan, prior) then Some(CollModValidator(plan, json).value) else None);
  }

  /** A key the fields carry takes their value; any other keeps the old one. */
  lemma AppliedAt(before: Document, fields: Document, k: string, sent: Option<BsonValue>)
    requires Lookup(fields, k) == sent
    ensures Lookup(ApplyFields(before, fields), k) == if sent.Some? then sent else Lookup(before, k)
  {
  }

  /** The value each changed attribute has among the fields after the collection name. */
  lemma FieldLookups(plan: CollectionModel, prior: CollectionModel, json: ExtJson)
    requires CollModCommand(plan, prior, json).Success?
    ensures var fields := CollModCommand(plan, prior, json).value[1..];
            Lookup(fields, "validationLevel") ==
              (if LevelChanged(plan, prior) then Some(BString(ValueString(plan.validationLevel))) else None) &&
            Lookup(fields, "validationAction") ==
              (if ActionChanged(plan, prior) then Some(BString(ValueString(plan.validationAction))) else None) &&
            Lookup(fields, "validator") ==
              (if ValidatorChanged(plan, prior) then Some(CollModValidator(plan, json).value) else None)
  {
    var v := if ValidatorChanged(plan, prior) then CollModValidator(plan, json).value else BDocument([]);
    assert CollModCommand(plan, prior, json).value[1..] == Changes(plan, prior, v);
  }

  /**
   * One validator text, two stored forms: Create stores it wrapped in
   * `$jsonSchema`, while an Update that changes the validator to the same
   * text stores the parsed document itself.
   */
  lemma ValidatorWrappedOnlyOnCreate(plan: CollectionModel, json: ExtJson, raw: Document)
    requires ValueString(plan.validator) != "" && json.parse(ValueString(plan.validator)) == Success(raw)
    ensures Lookup(CreateOptions(plan, Some(raw)), "validator") == Some(JsonSchema(raw))
    ensures CollModValidator(plan, json) == Success(BDocument(raw))
    ensures JsonSchema(raw) != BDocument(raw)
  {
    ElementBelowDocument(raw);
  }

  /** A document is never the value of one of its own elements. */
  lemma ElementBelowDocument(raw: Document)
    ensures |raw| >= 1 ==> raw[0].value != BDocument(raw)
  {
  }

  /**
   * Renaming a collection, or moving it to another database, is planned as
   * an update in place; the command then names only the collection and is
   * not sent, so the store is untouched and the new name is recorded.
   */
  lemma RenameSendsNothing(state: CollectionModel, plan: CollectionModel, json: ExtJson)
    requires plan == state.(name := plan.name, database := plan.database) && plan != state
    ensures Classify(state, plan) == UpdateInPlace
    ensures CollModCommand(plan, state, json) == Success([Element("collMod", BString(NameOf(plan)))])
  {
    var r := CollModCommand(plan, state, json);
    assert r.value == [r.value[0]];
  }

  // ---------------------------------------------------------------------------
  // Delete

  /** `Delete`: drop the collection, surfacing any failure; a missing collection is not one. */
  method Delete(client: Client, state: CollectionModel, fail: Option<string>) returns (diags: seq<Diagnostic>)
    requires client.Valid()
    modifies client
    ensures client.Valid()
    ensures client.dbs == DropCollectionStep(old(client.dbs), DatabaseOf(state), NameOf(state), fail).0
    ensures diags == if fail.Some? then [Error("drop collection failed", Text(fail.value))] else []
    ensures fail.None? ==> !HasCollection(client.dbs, DatabaseOf(state), NameOf(state))
  {
    var err := client.DropCollection(DatabaseOf(state), NameOf(state), fail);
    diags := if err.Some? then [Error("drop collection failed", Text(err.value))] else [];
  }
}
