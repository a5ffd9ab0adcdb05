/**
 * The identities the resources and data sources write into `id`, and the
 * decoding of an index identity on import: `database/collection/name`
 * for an index, `database/name` for a collection, the bare name for a
 * database.
 */
module Identity {
  import opened Wrappers
  import opened Text

  /** The three names an index identity carries. */
  datatype IndexRef = IndexRef(database: string, collection: string, name: string)

  /**
   * `fmt.Sprintf("%s/%s/%s", database, collection, name)`. When neither the
   * database nor the collection holds a "/", splitting the identity into
   * three parts gives the names back; the index name may hold "/" itself.
   */
  function IndexId(database: string, collection: string, name: string): (id: string)
    ensures '/' !in database && '/' !in collection ==> SplitN(id, 3) == [database, collection, name]
  {
    var id := database + "/" + collection + "/" + name;
    if '/' !in database && '/' !in collection then
      var parts := [database, collection, name];
      assert parts[1..] == [collection, name] && parts[1..][1..] == [name];
      assert Join(parts[1..]) == collection + "/" + name;
      assert id == database + "/" + (collection + "/" + name);
      assert Join(parts) == id;
      SplitNUnique(id, 3, parts);
      id
    else
      id
  }

  /**
   * `fmt.Sprintf("%s/%s", database, name)`. When the database holds no "/",
   * the first part of the identity is the database and the rest the name.
   */
  function CollectionId(database: string, name: string): (id: string)
    ensures '/' !in database ==> SplitN(id, 2) == [database, name]
  {
    var id := database + "/" + name;
    if '/' !in database then
      var parts := [database, name];
      assert parts[1..] == [name];
      assert Join(parts) == id;
      SplitNUnique(id, 2, parts);
      id
    else
      id
  }

  /**
   * The check of the index import once the input is trimmed: split into at
   * most three parts on "/", and accept only exactly three non-empty parts.
   * An accepted identity is exactly `IndexId` of its parts, with no "/" in
   * the database or collection; a refused one has no such decomposition.
   */
  function ParseIndexId(id: string): (r: Option<IndexRef>)
    ensures r.Some? ==> IndexId(r.value.database, r.value.collection, r.value.name) == id
    ensures r.Some? ==> r.value.database != "" && r.value.collection != "" && r.value.name != ""
    ensures r.Some? ==> '/' !in r.value.database && '/' !in r.value.collection
    ensures r.None? ==> forall d, c, n :: IndexId(d, c, n) == id && '/' !in d && '/' !in c ==>
                                           d == "" || c == "" || n == ""
  {
    var parts := SplitN(id, 3);
    if |parts| != 3 || parts[0] == "" || parts[1] == "" || parts[2] == "" then
      IndexIdDetermines(id);
      None
    else
      SplitNSpec(id, 3);
      ThreePartsJoin(id, parts);
      Some(IndexRef(parts[0], parts[1], parts[2]))
  }

  /** Three split parts rebuild the identity, and the first two hold no "/". */
  lemma ThreePartsJoin(id: string, parts: seq<string>)
    requires |parts| == 3 && IsSplit(id, 3, parts)
    ensures IndexId(parts[0], parts[1], parts[2]) == id
    ensures '/' !in parts[0] && '/' !in parts[1]
  {
    assert parts[1..] == [parts[1], parts[2]] && parts[1..][1..] == [parts[2]];
    assert Join(parts[1..][1..]) == parts[2];
    assert Join(parts[1..]) == parts[1] + "/" + parts[2];
    assert Join(parts) == parts[0] + "/" + (parts[1] + "/" + parts[2]);
    assert parts[0] + "/" + parts[1] + "/" + parts[2] == parts[0] + "/" + (parts[1] + "/" + parts[2]);
  }

  /** Any decomposition of an identity with "/"-free database and collection is its split. */
  lemma IndexIdDetermines(id: string)
    ensures forall d, c, n :: IndexId(d, c, n) == id && '/' !in d && '/' !in c ==> SplitN(id, 3) == [d, c, n]
  {
  }

  /** Every well-formed identity is accepted and decodes to its own names. */
  lemma ParseIndexIdRoundTrip(ref: IndexRef)
    requires ref.database != "" && ref.collection != "" && ref.name != ""
    requires '/' !in ref.database && '/' !in ref.collection
    ensures ParseIndexId(IndexId(ref.database, ref.collection, ref.name)) == Some(ref)
  {
    var id := IndexId(ref.database, ref.collection, ref.name);
    var r := ParseIndexId(id);
    assert SplitN(id, 3) == [ref.database, ref.collection, ref.name];
  }

  /** The third part keeps every further "/": `a/b/c/d` names the index `c/d`. */
  lemma ParseKeepsSlashesInName()
    ensures ParseIndexId("a/b/c/d") == Some(IndexRef("a", "b", "c/d"))
  {
    ParseIndexIdRoundTrip(IndexRef("a", "b", "c/d"));
    assert IndexId("a", "b", "c/d") == "a/b/c/d";
  }

  /** Two slashes are needed: `a/b` is refused. */
  lemma ParseRefusesTwoParts()
    ensures ParseIndexId("a/b") == None
  {
    var parts := ["a", "b"];
    assert parts[1..] == ["b"];
    assert Join(parts) == "a/b";
    SplitNUnique("a/b", 3, parts);
  }
}
