/**
 * BSON values as the drivers hand them to the provider: an ordered document
 * of key/value elements, the `Lookup` of `bson.Raw`, the numeric coercion of
 * `RawValue.AsInt64OK` and of Go's `int64(float64)`, and the extended-JSON
 * codec, which is a foreign library and therefore a parameter.
 */
module Bson {
  import opened Wrappers

  /**
   * A BSON value. Doubles are carried as mathematical reals: NaN, the
   * infinities and values outside the int64 range are not represented.
   * Every kind the provider does not look inside (bool, decimal128, arrays,
   * dates, …) is `BOther`, named by its kind.
   */
  datatype BsonValue =
    | BInt32(i: int)
    | BInt64(i: int)
    | BDouble(d: real)
    | BString(s: string)
    | BDocument(doc: seq<Element>)
    | BOther(kind: string)

  /** `bson.E`: one key/value element of an ordered document. */
  datatype Element = Element(key: string, value: BsonValue)

  /** `bson.D` (and the decoded form of `bson.Raw`): elements in stored order. */
  type Document = seq<Element>

  /** `bson.Raw` bytes: either a well-formed document or bytes that fail to decode. */
  datatype Raw = Wellformed(doc: Document) | Malformed(reason: string)

  /** `bson.Unmarshal(raw, &doc)` into a `bson.D`. */
  function Unmarshal(raw: Raw): (r: Result<Document, string>)
    ensures r.Success? <==> raw.Wellformed?
    ensures raw.Wellformed? ==> r == Success(raw.doc)
    ensures raw.Malformed? ==> r == Failure(raw.reason)
  {
    match raw
    case Wellformed(doc) => Success(doc)
    case Malformed(reason) => Failure(reason)
  }

  const MinInt32: int := -0x8000_0000
  const MaxInt32: int := 0x7FFF_FFFF

  /** How the Go driver encodes a Go `int`: as int32 when it fits, as int64 otherwise. */
  function IntValue(i: int): (v: BsonValue)
    ensures v.BInt32? || v.BInt64?
    ensures v.i == i
    ensures v.BInt32? <==> MinInt32 <= i <= MaxInt32
  {
    if MinInt32 <= i <= MaxInt32 then BInt32(i) else BInt64(i)
  }

  /** `bson.Raw.Lookup(key)`: the value of the FIRST element with that key, None when there is none. */
  function Lookup(doc: Document, key: string): (r: Option<BsonValue>)
    ensures r.None? <==> forall i :: 0 <= i < |doc| ==> doc[i].key != key
  {
    if doc == [] then None
    else if doc[0].key == key then Some(doc[0].value)
    else
      assert forall i :: 0 < i < |doc| ==> doc[i] == doc[1..][i - 1];
      Lookup(doc[1..], key)
  }

  /** Looking up in a document that starts with `e`. */
  lemma LookupCons(e: Element, rest: Document, key: string)
    ensures Lookup([e] + rest, key) == if e.key == key then Some(e.value) else Lookup(rest, key)
  {
    assert ([e] + rest)[1..] == rest;
  }

  /** A found value is that of the first element with the key. */
  lemma {:induction false} LookupFirst(doc: Document, key: string)
    requires Lookup(doc, key).Some?
    ensures exists i :: 0 <= i < |doc| && doc[i] == Element(key, Lookup(doc, key).value) &&
                        forall j :: 0 <= j < i ==> doc[j].key != key
  {
    if doc[0].key != key {
      LookupFirst(doc[1..], key);
      var i :| 0 <= i < |doc[1..]| && doc[1..][i] == Element(key, Lookup(doc, key).value) &&
               forall j :: 0 <= j < i ==> doc[1..][j].key != key;
      assert doc[i + 1] == doc[1..][i];
      assert forall j :: 0 < j < i + 1 ==> doc[j] == doc[1..][j - 1];
    }
  }

  /** Go's conversion `int64(f)` of a float64: truncation toward zero. */
  function TruncateTowardZero(x: real): (r: int)
    ensures 0.0 <= x ==> r as real <= x < r as real + 1.0
    ensures x < 0.0 ==> r as real - 1.0 < x <= r as real
  {
    if x >= 0.0 then x.Floor else -((-x).Floor)
  }

  /** Truncation is not flooring: -1.5 becomes -1. */
  lemma TruncationIsNotFloor()
    ensures TruncateTowardZero(-1.5) == -1 && (-1.5).Floor == -2
  {
  }

  /**
   * The numeric coercion shared by the index-key type switch
   * (`int32`, `int64`, `float64` cases) and `RawValue.AsInt64OK`:
   * int32 and int64 keep their value, a double is truncated toward zero,
   * every other kind has no integer value.
   */
  function AsInt64(v: BsonValue): (r: Option<int>)
    ensures r.Some? <==> (v.BInt32? || v.BInt64? || v.BDouble?)
    ensures (v.BInt32? || v.BInt64?) ==> r == Some(v.i)
    ensures v.BDouble? ==> r == Some(TruncateTowardZero(v.d))
  {
    match v
    case BInt32(i) => Some(i)
    case BInt64(i) => Some(i)
    case BDouble(d) => Some(TruncateTowardZero(d))
    case _ => None
  }

  /** `doc.Lookup(key).AsInt64OK()`: a missing key has no integer value. */
  function LookupInt64(doc: Document, key: string): (r: Option<int>)
    ensures r.Some? ==> Lookup(doc, key).Some? && AsInt64(Lookup(doc, key).value) == r
    ensures Lookup(doc, key).Some? ==> r == AsInt64(Lookup(doc, key).value)
  {
    match Lookup(doc, key)
    case None => None
    case Some(v) => AsInt64(v)
  }

  /** `doc.Lookup(key)` followed by a check that its type is `bson.TypeString`. */
  function LookupString(doc: Document, key: string): (r: Option<string>)
    ensures r.Some? <==> Lookup(doc, key).Some? && Lookup(doc, key).value.BString?
    ensures r.Some? ==> Lookup(doc, key).value == BString(r.value)
  {
    match Lookup(doc, key)
    case Some(BString(s)) => Some(s)
    case _ => None
  }

  /** `doc.Lookup(key)` followed by a check that its type is `bson.TypeEmbeddedDocument`. */
  function LookupDocument(doc: Document, key: string): (r: Option<Document>)
    ensures r.Some? <==> Lookup(doc, key).Some? && Lookup(doc, key).value.BDocument?
    ensures r.Some? ==> Lookup(doc, key).value == BDocument(r.value)
  {
    match Lookup(doc, key)
    case Some(BDocument(d)) => Some(d)
    case _ => None
  }

  /** The document without any element named `key`, order otherwise kept. */
  function WithoutKey(doc: Document, key: string): (r: Document)
    ensures forall i :: 0 <= i < |r| ==> r[i].key != key
    ensures forall k :: k != key ==> Lookup(r, k) == Lookup(doc, k)
  {
    if doc == [] then []
    else if doc[0].key == key then WithoutKey(doc[1..], key)
    else [doc[0]] + WithoutKey(doc[1..], key)
  }

  /** The document with `key` set to `value`: every earlier element of that name dropped, the new one appended. */
  function SetField(doc: Document, key: string, value: BsonValue): (r: Document)
    ensures Lookup(r, key) == Some(value)
    ensures forall k :: k != key ==> Lookup(r, k) == Lookup(doc, k)
  {
    var rest := WithoutKey(doc, key);
    LookupAppend(rest, key, value);
    rest + [Element(key, value)]
  }

  lemma {:induction false} LookupAppend(doc: Document, key: string, value: BsonValue)
    requires forall i :: 0 <= i < |doc| ==> doc[i].key != key
    ensures Lookup(doc + [Element(key, value)], key) == Some(value)
    ensures forall k :: k != key ==> Lookup(doc + [Element(key, value)], k) == Lookup(doc, k)
  {
    var d := doc + [Element(key, value)];
    if doc != [] {
      assert d[1..] == doc[1..] + [Element(key, value)];
      LookupAppend(doc[1..], key, value);
    }
    forall k | k != key ensures Lookup(d, k) == Lookup(doc, k) {
      LookupPrefix(doc, Element(key, value), k);
    }
  }

  lemma {:induction false} LookupPrefix(doc: Document, e: Element, k: string)
    requires e.key != k
    ensures Lookup(doc + [e], k) == Lookup(doc, k)
  {
    if doc != [] {
      assert (doc + [e])[1..] == doc[1..] + [e];
      LookupPrefix(doc[1..], e, k);
    }
  }

  /** The keys of a document, in order. */
  function KeysOf(doc: Document): (keys: seq<string>)
    ensures |keys| == |doc| && forall i :: 0 <= i < |doc| ==> keys[i] == doc[i].key
  {
    seq(|doc|, i requires 0 <= i < |doc| => doc[i].key)
  }

  /**
   * The extended-JSON library (`bson.UnmarshalExtJSON` with canonical=true,
   * `bson.MarshalExtJSON` with canonical=true and escapeHTML=true). It is
   * foreign code, so the model takes it as a pair of arbitrary total
   * functions and proves nothing that depends on how they behave.
   */
  datatype ExtJson = ExtJson(parse: string -> Result<Document, string>, render: Document -> Result<string, string>)

  /**
   * `bson.UnmarshalExtJSON` of an attribute that may be empty: an empty text
   * gives no document and is never parsed; otherwise the parse decides.
   */
  function ParseNonEmpty(json: ExtJson, text: string): (r: Result<Option<Document>, string>)
    ensures text == "" ==> r == Success(None)
    ensures text != "" ==> (r.Success? <==> json.parse(text).Success?)
    ensures text != "" && r.Success? ==> r == Success(Some(json.parse(text).value))
    ensures text != "" && r.Failure? ==> r.error == json.parse(text).error
  {
    if text == "" then Success(None)
    else
      match json.parse(text)
      case Failure(e) => Failure(e)
      case Success(doc) => Success(Some(doc))
  }
}
