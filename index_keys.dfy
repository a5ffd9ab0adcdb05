/**
 * The key list of an index, both ways: the `keys` blocks of a plan turned
 * into the ordered key document `CreateOne` sends, and a stored key
 * document read back into `keys` blocks (the loop that the index resource
 * and the index data source both run).
 */
module IndexKeys {
  import opened Wrappers
  import opened Bson
  import opened Framework

  /** `indexKeyModel`: one `keys` block, a field and its order. */
  datatype KeyModel = KeyModel(field: TfString, order: TfInt)

  /** A block both of whose attributes are known, as every block read back is. */
  predicate KnownKey(k: KeyModel) {
    k.field.Known? && k.order.Known?
  }

  /** One element of the sent key document: the field, and the order as a Go `int`. */
  function EncodeKey(k: KeyModel): Element {
    Element(ValueString(k.field), IntValue(ValueInt(k.order)))
  }

  /** The key document of a plan: one element per block, in block order. */
  function KeysDocument(keys: seq<KeyModel>): (doc: Document)
    ensures |doc| == |keys|
    ensures forall i :: 0 <= i < |keys| ==> doc[i] == EncodeKey(keys[i])
  {
    if keys == [] then [] else [EncodeKey(keys[0])] + KeysDocument(keys[1..])
  }

  /** The loop of `Create` that appends one `bson.E` per plan key. */
  method BuildKeys(keys: seq<KeyModel>) returns (doc: Document)
    ensures doc == KeysDocument(keys)
  {
    doc := [];
    for i := 0 to |keys|
      invariant |doc| == i
      invariant forall j :: 0 <= j < i ==> doc[j] == EncodeKey(keys[j])
    {
      doc := doc + [EncodeKey(keys[i])];
    }
  }

  /**
   * How one stored element reads back: an int32, int64 or double order
   * becomes an int64 (a double truncated toward zero); any other kind
   * (a string such as "2dsphere" or "text", a document, …) has no block.
   */
  function DecodeEntry(e: Element): (r: Option<KeyModel>)
    ensures r.Some? <==> AsInt64(e.value).Some?
    ensures r.Some? ==> r.value == KeyModel(Known(e.key), Known(AsInt64(e.value).value))
  {
    match AsInt64(e.value)
    case Some(order) => Some(KeyModel(Known(e.key), Known(order)))
    case None => None
  }

  /** The warning that goes with a skipped element, naming its field and value. */
  function SkipWarning(e: Element): Diagnostic {
    Warning("Non-numeric index key order encountered", UnsupportedKeyOrder(e.key, e.value))
  }

  /** The blocks read back from a key document, in document order. */
  function Decoded(doc: Document): (keys: seq<KeyModel>)
    ensures |keys| <= |doc|
    ensures forall i :: 0 <= i < |keys| ==> KnownKey(keys[i])
  {
    if doc == [] then []
    else
      var init := Decoded(doc[..|doc| - 1]);
      match DecodeEntry(doc[|doc| - 1])
      case Some(k) => init + [k]
      case None => init
  }

  /** The warnings of reading a key document back: one per skipped element, in document order. */
  function Skipped(doc: Document): (warnings: seq<Diagnostic>)
    ensures |warnings| <= |doc|
    ensures forall i :: 0 <= i < |warnings| ==> warnings[i].Warning?
  {
    if doc == [] then []
    else
      var init := Skipped(doc[..|doc| - 1]);
      if DecodeEntry(doc[|doc| - 1]).None? then init + [SkipWarning(doc[|doc| - 1])] else init
  }

  /**
   * The loop of `Read` over the decoded key document: numeric orders are
   * appended as blocks, anything else adds a warning and is skipped.
   */
  method DecodeKeyOrder(doc: Document) returns (keys: seq<KeyModel>, warnings: seq<Diagnostic>)
    ensures keys == Decoded(doc) && warnings == Skipped(doc)
  {
    keys, warnings := [], [];
    for i := 0 to |doc|
      invariant keys == Decoded(doc[..i]) && warnings == Skipped(doc[..i])
    {
      assert doc[..i + 1][..i] == doc[..i];
      var e := doc[i];
      var order: int;
      match e.value {
        case BInt32(v) => order := v;
        case BInt64(v) => order := v;
        case BDouble(v) => order := TruncateTowardZero(v);
        case _ =>
          warnings := warnings + [SkipWarning(e)];
          continue;
      }
      keys := keys + [KeyModel(Known(e.key), Known(order))];
    }
    assert doc[..|doc|] == doc;
  }

  /** Reading back distributes over concatenation: order is kept. */
  lemma {:induction false} DecodedAppend(a: Document, b: Document)
    ensures Decoded(a + b) == Decoded(a) + Decoded(b)
    ensures Skipped(a + b) == Skipped(a) + Skipped(b)
    decreases |b|
  {
    if b == [] {
      assert a + b == a;
    } else {
      var b' := b[..|b| - 1];
      assert (a + b)[..|a + b| - 1] == a + b';
      assert (a + b)[|a + b| - 1] == b[|b| - 1];
      DecodedAppend(a, b');
    }
  }

  /** A single element is either kept as its block or skipped with its warning, never both. */
  lemma DecodedSingle(e: Element)
    ensures Decoded([e]) == (if DecodeEntry(e).Some? then [DecodeEntry(e).value] else [])
    ensures Skipped([e]) == (if DecodeEntry(e).None? then [SkipWarning(e)] else [])
  {
    assert [e][..0] == [];
  }

  /** Every element is accounted for: as a block or as a warning. */
  lemma {:induction false} DecodedAccounts(doc: Document)
    ensures |Decoded(doc)| + |Skipped(doc)| == |doc|
  {
    if doc != [] {
      DecodedAccounts(doc[..|doc| - 1]);
    }
  }

  /** A document of numeric orders reads back without warnings and without losing an element. */
  lemma NumericKeysReadBackWhole(doc: Document)
    requires forall i :: 0 <= i < |doc| ==> AsInt64(doc[i].value).Some?
    ensures Skipped(doc) == [] && |Decoded(doc)| == |doc|
  {
    DecodedAccounts(doc);
    SkippedOnlyNonNumeric(doc);
  }

  /** Every warning names an element of the document whose order is not numeric. */
  lemma {:induction false} SkippedOnlyNonNumeric(doc: Document)
    ensures forall w :: w in Skipped(doc) ==>
              exists i :: 0 <= i < |doc| && AsInt64(doc[i].value).None? && w == SkipWarning(doc[i])
  {
    if doc != [] {
      var init := doc[..|doc| - 1];
      SkippedOnlyNonNumeric(init);
      forall w | w in Skipped(doc)
        ensures exists i :: 0 <= i < |doc| && AsInt64(doc[i].value).None? && w == SkipWarning(doc[i])
      {
        if w in Skipped(init) {
          var i :| 0 <= i < |init| && AsInt64(init[i].value).None? && w == SkipWarning(init[i]);
          assert doc[i] == init[i];
        } else {
          assert w == SkipWarning(doc[|doc| - 1]);
        }
      }
    }
  }

  /**
   * The keys of a plan whose blocks are all known come back unchanged from
   * the document `Create` sends: the encoding as a Go `int` loses nothing,
   * and no warning is raised.
   */
  lemma {:induction false} KeysRoundTrip(keys: seq<KeyModel>)
    requires forall i :: 0 <= i < |keys| ==> KnownKey(keys[i])
    ensures Decoded(KeysDocument(keys)) == keys
    ensures Skipped(KeysDocument(keys)) == []
  {
    if keys != [] {
      var e := EncodeKey(keys[0]);
      assert KeysDocument(keys) == [e] + KeysDocument(keys[1..]);
      DecodedAppend([e], KeysDocument(keys[1..]));
      DecodedSingle(e);
      EncodeKeyDecodes(keys[0]);
      KeysRoundTrip(keys[1..]);
      assert keys == [keys[0]] + keys[1..];
    }
  }

  /** A known block survives encoding and reading back. */
  lemma EncodeKeyDecodes(k: KeyModel)
    requires KnownKey(k)
    ensures DecodeEntry(EncodeKey(k)) == Some(k)
  {
  }
}
