# A verified model of the MongoDB Terraform provider

This project models the core of `terraform-provider-mongodb`, a Terraform
provider written in Go on the Terraform plugin framework. It has three
resources and three data sources: `mongodb_database`, `mongodb_collection`
and `mongodb_index`. Dafny proves properties of the model.

The model has these parts:

- **Server.** The MongoDB server is an abstract store, a class `Store.Client`
  holding `map<database, map<collection, CollectionInfo>>`. A collection's
  info is its options document and its index specifications. A database
  exists exactly when it holds a collection. Every store call takes its
  failure outcome as a parameter. On success it follows the server's documented rules:
  - creating an existing collection is refused;
  - `collStats`, `collMod` and `drop` on a missing collection fail;
  - dropping a missing index fails;
  - `createIndexes` creates the collection implicitly.
- **Lifecycle calls.** Every `Create`, `Read`, `Update`, `Delete` and
  `ImportState` of a resource is a method or function over that store and
  the plan or prior state. The data sources' `Read`s are the same.
  - The response state is a `StateOutcome`: `Untouched` (the call returned
    before setting it), `Stored(model)` or `Removed`.
  - Diagnostics are a sequence of `Error`/`Warning` values. Each carries the
    summary and detail text the provider writes.
- **Helpers.** The pure helpers are modelled on values:
  - the identity codec (`db/coll/name`, `db/name`, `name`);
  - the index key-order decoder;
  - the `collMod` builder;
  - the collection-options decoder;
  - the schema's defaults, enumerations and replace flags;
  - the provider's configuration checks.
- **Go and framework semantics**, modelled where the provider depends on them:
  - `strings.TrimSpace` and `strings.SplitN`;
  - truncation of `int64(float64)` toward zero;
  - the framework's `ValueString`/`Value*Pointer`/`*PointerValue` conversions
    between null, unknown and known values;
  - first-match `Lookup` on ordered BSON documents.

Extended JSON and BSON parsing and rendering belong to the driver library.
They enter as a pair of functions, `ExtJson(parse, render)`, passed to the
operations that use them.

Some behaviour of the code is easy to miss; the model follows it:

- The collection's `database`/`name` and the database's `name` carry no
  `RequiresReplace` modifier. A new name is planned as an in-place update.
  - For a collection, the update sends nothing (`RenameSendsNothing`).
  - For a database, it toggles the placeholder in the new database.
- The index's `background` carries no replace modifier either. A change of
  `background` alone reaches `Update`, which only stores the plan.
- An invalid validator or partial-filter text fails with its own error
  before any store call. It is not reported as a create failure.
- The collection resource has no time-series options at all. Only the data
  source reads them.
- `Create` stores the validator wrapped in `{"$jsonSchema": …}`, but
  `Update` sends it unwrapped. So the data source reports the wrapped
  document after a create and the bare one after an update
  (`CollectionDataSource.CreatedCollectionReported`,
  `CollectionDataSource.UpdatedCollectionReported`).
- The index resource's `Read` removes the resource when the index is
  missing. It then still raises "Index not found", because no return
  follows the removal.

## Model

| member | source | states |
|---|---|---|
| Bson.Unmarshal | internal/service/index/index_resource.go:268-272 | decoding the key document succeeds with the stored document exactly on well-formed bytes, and fails with the decoder's reason otherwise |
| Bson.IntValue | internal/service/index/index_resource.go:200 | a Go `int` is sent as int32 exactly when it fits, else int64, with its value kept |
| Bson.Lookup | internal/service/collection/collection_data_source.go:147 | a key is absent exactly when no element carries it |
| Bson.LookupFirst | internal/service/collection/collection_data_source.go:147 | a found value belongs to the first element with that key |
| Bson.TruncateTowardZero | internal/service/index/index_resource.go:281-283 | `int64(double)` truncates toward zero on both signs |
| Bson.TruncationIsNotFloor | internal/service/index/index_resource.go:283 | -1.5 becomes -1, while its floor is -2 |
| Bson.AsInt64 | internal/service/index/index_resource.go:276-284 | int32 and int64 keep their value, a double is truncated, every other kind has no integer |
| Bson.LookupInt64 | internal/service/collection/collection_data_source.go:194-203 | the integer coercion of the value under the key, none when the key is absent |
| Bson.LookupString | internal/service/collection/collection_data_source.go:159-169 | a string exactly when the key holds a string value |
| Bson.LookupDocument | internal/service/collection/collection_data_source.go:177 | a document exactly when the key holds an embedded document |
| Bson.SetField | internal/service/collection/collection_resource.go:183 | the key now holds the value, and every other key is unchanged |
| Bson.ParseNonEmpty | internal/service/index/index_resource.go:214-221 | empty text parses to no document; other text succeeds or fails exactly as the parser does |
| Framework.ToPointer | internal/service/index/index_resource.go:208-212 | null becomes nil, known becomes its value, unknown becomes the zero value |
| Framework.ValueString | internal/service/index/index_resource.go:214 | a known attribute gives its string; null and unknown give "" |
| Framework.ValueBool | internal/service/database/database_resource.go:107 | a known attribute gives its boolean; null and unknown give false |
| Framework.ValueInt | internal/service/index/index_resource.go:200 | a known attribute gives its number; null and unknown give 0 |
| Framework.FromPointer | internal/service/index/index_resource.go:264-266 | nil becomes null and a value becomes known |
| Framework.PointerRoundTrip | internal/service/index/index_resource.go:264-266 | a value that is not unknown survives a pointer round trip |
| Framework.WithDefault | internal/service/collection/collection_resource.go:86 | a static default replaces null only |
| Text.TrimSpace | internal/service/index/index_resource.go:326 | the result is the input with its leading and trailing whitespace cut, has no edge space, and is empty exactly when the input is all whitespace |
| Text.IsSpace | internal/service/index/index_resource.go:326 | among Latin-1 code points, exactly tab, line feed, vertical tab, form feed, carriage return, space, U+0085 and U+00A0 are spaces; no code point above U+3000 is |
| Text.TrimSpaceNoEdge | internal/service/database/database_resource.go:172 | a string without edge spaces is unchanged by trimming |
| Text.TrimSpaceIdempotent | internal/service/database/database_resource.go:172 | trimming twice equals trimming once |
| Text.SplitN | internal/service/index/index_resource.go:335 | `SplitN` gives at least one and at most n parts |
| Text.SplitNSpec | internal/service/index/index_resource.go:335 | `SplitN` is a split: at most n parts that join back to the input with "/", "/" only in the last part, and there only when n parts were produced |
| Text.SplitNUnique | internal/service/index/index_resource.go:335 | any split of the input into at most n parts is `SplitN`'s, so the split is unique |
| Text.DecimalString | internal/service/collection/collection_data_source.go:140 | `%d` of a count is a non-empty string of digits, starting with '0' only for zero and with no leading zero when longer than one digit |
| Text.DecimalStringValue | internal/service/collection/collection_data_source.go:140 | the digits read back as the count |
| Identity.IndexId | internal/service/index/index_resource.go:229 | `db/coll/name` splits back into its three parts when db and coll have no "/" |
| Identity.CollectionId | internal/service/collection/collection_resource.go:128 | `db/name` splits back into its two parts when db has no "/" |
| Identity.ParseIndexId | internal/service/index/index_resource.go:335-343 | an accepted ID has three non-empty parts that rebuild it; a refused ID has no such decomposition |
| Identity.ParseIndexIdRoundTrip | internal/service/index/index_resource.go:335-343 | parsing `d/c/n` gives back d, c, n for non-empty parts with "/"-free d and c |
| Identity.ParseKeepsSlashesInName | internal/service/index/index_resource.go:335 | `a/b/c/d` is accepted with name `c/d` |
| Identity.ParseRefusesTwoParts | internal/service/index/index_resource.go:336 | `a/b` is refused |
| Specification.FirstMatch | internal/service/index/specification.go:13-20 | a result has the name, is the first non-nil entry with it, and is none exactly when no entry matches |
| Specification.Find | internal/service/index/specification.go:13-20 | the loop returns the first match |
| Specification.FindAgreesWithContains | internal/service/index/index_resource.go:246-258 | the `ContainsFunc` check and the search loop agree on nil-free listings |
| IndexKeys.KeysDocument | internal/service/index/index_resource.go:198-201 | one key element per key block, in block order |
| IndexKeys.BuildKeys | internal/service/index/index_resource.go:198-201 | the append loop builds that key document |
| IndexKeys.DecodeEntry | internal/service/index/index_resource.go:274-295 | a numeric entry becomes a key block with the field and the coerced order; any other entry none |
| IndexKeys.Decoded | internal/service/index/index_resource.go:273-296 | at most one known key block per entry |
| IndexKeys.Skipped | internal/service/index/index_resource.go:284-290 | only warnings, at most one per entry |
| IndexKeys.DecodeKeyOrder | internal/service/index/index_resource.go:273-296 | the loop with `continue` yields the decoded blocks and the skip warnings |
| IndexKeys.DecodedAppend | internal/service/index/index_resource.go:274-296 | decoding is entry by entry: it distributes over concatenation, so order is kept |
| IndexKeys.DecodedSingle | internal/service/index/index_resource.go:276-295 | one entry gives one block or one warning naming it |
| IndexKeys.DecodedAccounts | internal/service/index/index_resource.go:274-296 | every entry is either kept or warned about, never both |
| IndexKeys.NumericKeysReadBackWhole | internal/service/index/index_resource.go:276-283 | an all-numeric key document is read back whole, without warnings |
| IndexKeys.SkippedOnlyNonNumeric | internal/service/index/index_resource.go:284-290 | every warning names a non-numeric entry of the document |
| IndexKeys.KeysRoundTrip | internal/service/index/index_resource.go:273-296 | the key document Create sends reads back as the same key blocks |
| IndexResource.AttributesCoverModel | internal/service/index/index_resource.go:57-153 | the schema's attributes cover the whole model |
| IndexResource.Classify | internal/service/index/index_resource.go:57-153 | unchanged exactly when plan equals state |
| IndexResource.UpdateOnlyForBackground | internal/service/index/index_resource.go:112-118 | a plan reaches Update only when it differs in `background` or `id` alone |
| IndexResource.ReplaceWhenFlaggedChanges | internal/service/index/index_resource.go:66-150 | a change to any attribute with `RequiresReplace` forces replacement |
| IndexResource.BackgroundChangeUpdatesInPlace | internal/service/index/index_resource.go:112-118 | a change of `background` alone updates in place |
| IndexResource.ValidateConfig | internal/service/index/index_resource.go:144-146 | an error exactly when the key list is empty |
| IndexResource.RequestOf | internal/service/index/index_resource.go:203-212 | the request carries the keys and partial filter, and the options as pointers from the plan |
| IndexResource.Planned | internal/service/index/index_resource.go:88-116 | `unique` and `sparse` default to false and `background` to true, and nothing else changes |
| IndexResource.DefaultRequest | internal/service/index/index_resource.go:88-116 | a configuration silent on those options asks for a non-unique, non-sparse background build |
| IndexResource.Create | internal/service/index/index_resource.go:173-231 | each refusal leaves store and state untouched; success puts the index and records the ID under the returned name |
| IndexResource.ReadBack | internal/service/index/index_resource.go:264-298 | options come from the found spec, keys are decoded, and the ID is derived from the state |
| IndexResource.Read | internal/service/index/index_resource.go:233-300 | a listing failure, removal plus "Index not found", a key decode failure, or the read-back state with the skip warnings |
| IndexResource.Update | internal/service/index/index_resource.go:302-311 | the plan is stored and no diagnostic arises |
| IndexResource.BackgroundChangeIsStored | internal/service/index/index_resource.go:302-311 | a `background` change goes to Update and is stored as planned |
| IndexResource.Delete | internal/service/index/index_resource.go:313-323 | the index is dropped; an error exactly when the call failed or no index had the name |
| IndexResource.ImportState | internal/service/index/index_resource.go:325-352 | an empty trimmed ID or one that does not parse is refused with its diagnostic; a trimmed ID that parses is accepted without diagnostics, setting only the ID and the three parsed names |
| IndexResource.ImportRoundTrip | internal/service/index/index_resource.go:343-351 | importing `d/c/n` seeds exactly d, c, n and the ID |
| IndexResource.RecordedIdImports | internal/service/index/index_resource.go:229 | the ID Create records imports back to the same names |
| IndexResource.Lifecycle | internal/service/index/index_resource.go:173-323 | with or without a partial filter that parses, create, refuse a duplicate, read the same state back, drop, then Read removes |
| IndexDataSource.PartialText | internal/service/index/index_data_source.go:136-143 | the filter is rendered only when the index has one; a render failure is an error |
| IndexDataSource.Reported | internal/service/index/index_data_source.go:133-175 | options copied with nil as null, keys decoded, ID from the configuration |
| IndexDataSource.Read | internal/service/index/index_data_source.go:114-177 | never removes; a listing failure, a missing index, a render failure or a key decode failure is an error; otherwise the reported state |
| CollectionResource.Planned | internal/service/collection/collection_resource.go:83-98 | level defaults to `strict` and action to `error`, and nothing else changes |
| CollectionResource.OneOf | internal/service/collection/collection_resource.go:87-89 | a known value outside the list is refused |
| CollectionResource.ValidateConfig | internal/service/collection/collection_resource.go:83-98 | no diagnostic exactly when a known level and action are in their lists |
| CollectionResource.PlannedValidationIsAllowed | internal/service/collection/collection_resource.go:83-98 | a valid configuration plans an allowed level and action |
| CollectionResource.Classify | internal/service/collection/collection_resource.go:62-101 | never replace; unchanged exactly when plan equals state |
| CollectionResource.CreateOptions | internal/service/collection/collection_resource.go:110-121 | the wrapped validator when one was parsed, and level and action as pointers, and no other key |
| CollectionResource.JsonSchema | internal/service/collection/collection_resource.go:110-121 | the validator sent on create is a one-element document whose `$jsonSchema` holds the parsed schema |
| CollectionResource.Create | internal/service/collection/collection_resource.go:103-130 | invalid validator text is refused before any call; otherwise the collection is created with those options, and the ID is `db/name` |
| CollectionResource.Read | internal/service/collection/collection_resource.go:132-148 | the state is kept exactly when `collStats` succeeds, otherwise the resource is removed; the store is not changed |
| CollectionResource.CollModValidator | internal/service/collection/collection_resource.go:163-174 | a cleared validator is sent as `{}`, non-empty text as the parsed document, and a parse failure is an error |
| CollectionResource.Changes | internal/service/collection/collection_resource.go:163-180 | exactly the changed fields, in the fixed order, with their planned values |
| CollectionResource.CollModCommand | internal/service/collection/collection_resource.go:159-180 | fails exactly on an unparsable changed validator; otherwise starts with `collMod: name` and grows exactly when something changed |
| CollectionResource.CollModFields | internal/service/collection/collection_resource.go:161-180 | the command's keys and the value under each |
| CollectionResource.BuildCollMod | internal/service/collection/collection_resource.go:159-180 | the successive appends build that command |
| CollectionResource.Update | internal/service/collection/collection_resource.go:150-190 | runs the command only when it carries a change; stores the plan on success |
| CollectionResource.UpdateAppliesPlan | internal/service/collection/collection_resource.go:182-187 | after `collMod` the changed options hold the planned values and the others keep theirs |
| CollectionResource.ValidatorWrappedOnlyOnCreate | internal/service/collection/collection_resource.go:117 | the same validator text is stored wrapped by Create and bare by Update, and the two differ |
| CollectionResource.RenameSendsNothing | internal/service/collection/collection_resource.go:182 | a plan that changes only the names sends a command with nothing to run |
| CollectionResource.Delete | internal/service/collection/collection_resource.go:192-202 | the collection is dropped; missing is not an error |
| CollectionDataSource.StringOption | internal/service/collection/collection_data_source.go:159-169 | the stored string, or the default when the options are absent or hold no string |
| CollectionDataSource.ValidatorReport | internal/service/collection/collection_data_source.go:146-157 | a validator document is rendered, a render failure is only a warning that keeps the configured value, otherwise null |
| CollectionDataSource.TimeSeriesOf | internal/service/collection/collection_data_source.go:176-217 | a block exactly for a `timeseries` document: strings or null, integers or null, TTL from the top level |
| CollectionDataSource.Reported | internal/service/collection/collection_data_source.go:145-219 | the reported state from the options, with the ID `db/name` and no error |
| CollectionDataSource.Read | internal/service/collection/collection_data_source.go:121-221 | never removes; a listing failure or anything but exactly one collection is an error; otherwise the reported state |
| CollectionDataSource.DefaultsWithoutOptions | internal/service/collection/collection_data_source.go:170-174 | without options: null validator, `strict`, `error`, no time series |
| CollectionDataSource.CreatedCollectionReported | internal/service/collection/collection_data_source.go:145-219 | a collection the resource created is found with the planned level and action and the wrapped validator |
| CollectionDataSource.UpdatedCollectionReported | internal/service/collection/collection_data_source.go:159-169 | after Update the changed level, action and validator read back as sent |
| DatabaseResource.Planned | internal/service/database/database_resource.go:57-62 | `keep_placeholder` defaults to true, and nothing else changes |
| DatabaseResource.KeepByDefault | internal/service/database/database_resource.go:60 | an unset `keep_placeholder` keeps the placeholder |
| DatabaseResource.Classify | internal/service/database/database_resource.go:44-65 | never replace; unchanged exactly when plan equals state |
| DatabaseResource.CreatePlaceholder | internal/service/database/database_resource.go:109 | the command creates the collection `__tf_placeholder` |
| DatabaseResource.DropPlaceholder | internal/service/database/database_resource.go:153 | the command drops the collection `__tf_placeholder` |
| DatabaseResource.CreatePlaceholderStep | internal/service/database/database_resource.go:107-110 | afterwards the placeholder is there and the database exists; it fails only when already there |
| DatabaseResource.DropPlaceholderStep | internal/service/database/database_resource.go:152-154 | afterwards only the placeholder is gone; it fails only when it was not there |
| DatabaseResource.Create | internal/service/database/database_resource.go:85-114 | an existing database is refused, changing nothing; otherwise the placeholder is created when kept, errors ignored, and the ID is the name |
| DatabaseResource.Read | internal/service/database/database_resource.go:116-138 | removed, without error, when the database has no collection; otherwise the ID is the name and `keep_placeholder` is the placeholder's presence |
| DatabaseResource.Update | internal/service/database/database_resource.go:140-157 | the placeholder is created or dropped as planned, errors ignored, and the plan is stored |
| DatabaseResource.Delete | internal/service/database/database_resource.go:159-169 | the whole database is dropped, and any error is surfaced |
| DatabaseResource.ImportState | internal/service/database/database_resource.go:171-183 | an empty trimmed ID is refused; otherwise ID and name are the trimmed ID and `keep_placeholder` is null |
| DatabaseResource.RecordedIdImports | internal/service/database/database_resource.go:112 | the ID Create records imports back to the same database |
| DatabaseResource.KeptLifecycle | internal/service/database/database_resource.go:85-169 | create with the placeholder; Read finds it with `keep_placeholder` true; after Delete, Read removes |
| DatabaseResource.UnkeptLifecycle | internal/service/database/database_resource.go:105-133 | created without the placeholder, the database does not exist, so the next Read removes it |
| DatabaseResource.ReleaseLastPlaceholder | internal/service/database/database_resource.go:148-156 | dropping the only collection drops the database, so the next Read removes it |
| DatabaseDataSource.Read | internal/service/database/database_data_source.go:74-100 | a listing failure and zero collections are errors, never a removal; otherwise ID and placeholder flag |
| DatabaseDataSource.AgreesWithStore | internal/service/database/database_data_source.go:82-98 | found exactly when the database exists, with the same flag the resource reports |
| Provider.ClientOptionsFor | internal/provider/provider.go:79-101 | a URI is required; credentials beside an "@" are refused; auth exactly when a username or password is set; both timeouts 10 s |
| Provider.Configure | internal/provider/provider.go:70-116 | an option, connect or ping failure is one error and hands nothing over; success hands over the connected client |
| Provider.SameClientEverywhere | internal/provider/provider.go:114-115 | resources and data sources get the same client, the one connect returned |
| Provider.RefusedOptionsNeverConnect | internal/provider/provider.go:84-91 | refused options give the same outcome whatever connecting would do |
| Provider.Resources | internal/provider/provider.go:118-124 | database, collection, index in that order |
| Provider.DataSources | internal/provider/provider.go:126-132 | database, collection, index in that order |
| Provider.EachKindOnce | internal/provider/provider.go:118-132 | each kind is registered once as a resource and once as a data source |
| Store.DatabasePresence | internal/service/database/database_resource.go:129-133 | a database exists exactly when it has a collection |
| Store.ApplyFields | internal/service/collection/collection_resource.go:182-187 | `collMod` sets each field it carries and leaves other options alone |
| Store.CommandStep | internal/service/collection/collection_resource.go:140 | a failed command changes nothing; no database other than the target changes |
| Store.CollModStep | internal/service/collection/collection_resource.go:182-187 | `collMod` on an existing collection applies the fields to its options |
| Store.CollStatsStep | internal/service/collection/collection_resource.go:139-145 | `collStats` succeeds exactly on an existing collection and changes nothing |
| Store.CreateCollectionStep | internal/service/collection/collection_resource.go:123-126 | succeeds exactly on a new collection, storing the options and no index |
| Store.DropCollectionStep | internal/service/collection/collection_resource.go:199-201 | afterwards the collection is gone; only the call's own failure is an error |
| Store.DropDatabaseStep | internal/service/database/database_resource.go:166-168 | afterwards the database is gone; only the call's own failure is an error |
| Store.DatabaseNamesListing | internal/service/database/database_resource.go:92-103 | the name-filtered listing is non-empty exactly when the database exists |
| Store.CollectionNamesListing | internal/service/database/database_resource.go:124 | exactly the database's collections |
| Store.CollectionSpecsListing | internal/service/collection/collection_data_source.go:130 | the one collection with the name and its options, or nothing |
| Store.IndexListing | internal/service/index/index_resource.go:240-244 | the collection's indexes; none for a missing collection |
| Store.PutIndex | internal/service/index/index_resource.go:223 | the index is added under its name, creating the collection when needed |
| Store.SpecOf | internal/service/index/index_resource.go:203-223 | the stored index is named by the reply and keeps the sent key document and the requested `unique`, `sparse`, TTL and partial filter |
| Store.CreateIndexStep | internal/service/index/index_resource.go:223-227 | the server's reply decides; on success the index is stored under the returned name |
| Store.DropIndexStep | internal/service/index/index_resource.go:320-322 | fails on a missing collection or index name; otherwise removes exactly that index |
| Store.Client.RunCommand | internal/service/collection/collection_resource.go:183 | the store moves by `CommandStep` |
| Store.Client.CreateCollection | internal/service/collection/collection_resource.go:123 | the store moves by `CreateCollectionStep` |
| Store.Client.DropCollection | internal/service/collection/collection_resource.go:199 | the store moves by `DropCollectionStep` |
| Store.Client.DropDatabase | internal/service/database/database_resource.go:166 | the store moves by `DropDatabaseStep` |
| Store.Client.CreateIndex | internal/service/index/index_resource.go:223 | the store moves by `CreateIndexStep` |
| Store.Client.DropIndex | internal/service/index/index_resource.go:320 | the store moves by `DropIndexStep` |
| Store.Client.ListDatabaseNames | internal/service/database/database_resource.go:92 | the listing of `DatabaseNamesListing` |
| Store.Client.ListCollectionNames | internal/service/database/database_resource.go:124 | the listing of `CollectionNamesListing` |
| Store.Client.ListCollectionSpecifications | internal/service/collection/collection_data_source.go:130 | the listing of `CollectionSpecsListing` |
| Store.Client.ListSpecifications | internal/service/index/index_resource.go:182 | the listing of `IndexListing` |

## Left out

- Connecting, pinging and disconnecting, cursors, and context deadlines are network I/O. `Configure` takes the connect and ping outcomes as functions. Every store call takes its failure as a parameter. `ListExSpecifications` enters the index data source as its result.
- Extended-JSON and BSON encoding belong to the driver library. They are the `ExtJson` parse/render pair, with no claim about their bytes. The library's error texts are whatever these functions return.
- The `%q`/`%T`/`%v` rendering of the skip warning is left out. The warning carries the field name and the raw value instead of the formatted text.
- Float conversion beyond truncation toward zero is left out, because NaN and out-of-range values are platform-defined.
- Integer widths: a key order is sent as a Go `int` and the TTL as an `int32` pointer, but the model's integers are unbounded. The model does not narrow them on 32-bit platforms.
- Bson.IntValue: does not model a Go `int` narrower than 64 bits.
- The index specification's `Namespace`, `Version` and `Clustered` fields are not read by the core, and the server's implicit `_id_` index is not listed.
- Store.SpecOf: the index listing is assumed to return `unique`, `sparse`, `expireAfterSeconds` and the partial filter exactly as they were requested; a server that normalises or omits an option is not modelled.
- Store.SpecOf: the store does not record `background`, which the server omits when listing; `SpecOf` drops it.
- Collection names are a set in the store. The listing order of `ListCollectionNames` is not modelled; only membership is used.
- Time-series collection creation is left out: the collection resource has none. `TimeSeriesModel`'s declaration is not part of this model; its fields are taken from how the data source fills them.
- The framework's plumbing is left out:
  - `Metadata`, `Schema` descriptions, `Configure` type assertions, `Plan.Get`/`State.Get`/`State.Set` diagnostics;
  - `UseStateForUnknown` on `id`.
- The state the framework pre-populates before `Read` or `Create` is the `Untouched` outcome, not a value.
- Server error texts ("ns not found", "Collection already exists", "index not found with name", "no such command") are representative, not the server's exact messages.
- `main.go`, with its flag parsing and plugin serving, is not part of this model.
- Between the listing and the create, another writer could change the store. The code does not address this race, and the model has no concurrency.
- Store.CommandStep: only the four commands the provider sends are modelled (`create`, `drop`, `collStats`, `collMod`); any other command fails.
