/**
 * Index specifications as the listing of a collection's indexes reports
 * them, and the by-name search over such a listing.
 */
module Specification {
  import opened Wrappers
  import opened Bson

  /**
   * `ExIndexSpecification` (and the driver's `IndexSpecification`, which is
   * the same record without the partial filter): the index name, its raw key
   * document, and the options the listing reports when they are set.
   * `partialFilterExpression` is `None` when the raw bytes are empty.
   */
  datatype IndexSpec = IndexSpec(
    name: string,
    keysDocument: Raw,
    expireAfterSeconds: Option<int>,
    sparse: Option<bool>,
    unique: Option<bool>,
    partialFilterExpression: Option<Document>)

  /** `ExIndexSpecifications`: a listing of pointers, any of which may be nil (`None`). */
  type ExIndexSpecifications = seq<Option<IndexSpec>>

  /** The test of the search: a non-nil entry with the wanted name. */
  predicate Matches(e: Option<IndexSpec>, name: string) {
    e.Some? && e.value.name == name
  }

  /**
   * The first entry of the listing that matches, `None` when none does.
   * A found entry has the wanted name and comes from the listing, every
   * entry before it is nil or named otherwise, and nothing is found exactly
   * when no entry matches (the empty listing included).
   */
  function FirstMatch(eis: ExIndexSpecifications, name: string): (r: Option<IndexSpec>)
    ensures r.Some? ==> r.value.name == name
    ensures r.Some? ==> exists k :: 0 <= k < |eis| && eis[k] == r &&
                                   forall j :: 0 <= j < k ==> !Matches(eis[j], name)
    ensures r.None? <==> forall k :: 0 <= k < |eis| ==> !Matches(eis[k], name)
  {
    if eis == [] then None
    else if Matches(eis[0], name) then eis[0]
    else
      var r := FirstMatch(eis[1..], name);
      assert forall k :: 0 < k < |eis| ==> eis[k] == eis[1..][k - 1];
      if r.Some? then
        var k :| 0 <= k < |eis| - 1 && eis[1..][k] == r &&
                 forall j :: 0 <= j < k ==> !Matches(eis[1..][j], name);
        assert eis[k + 1] == r;
        r
      else
        r
  }

  /**
   * `ExIndexSpecifications.Find`: the for-range search with early return,
   * skipping nil entries.
   */
  method Find(eis: ExIndexSpecifications, name: string) returns (r: Option<IndexSpec>)
    ensures r == FirstMatch(eis, name)
  {
    for i := 0 to |eis|
      invariant FirstMatch(eis, name) == FirstMatch(eis[i..], name)
    {
      assert eis[i..][1..] == eis[i + 1..];
      if eis[i].Some? && eis[i].value.name == name {
        return eis[i];
      }
    }
    return None;
  }

  /** `slices.ContainsFunc(specs, name == …)` over a listing without nil entries. */
  predicate HasIndexNamed(specs: seq<IndexSpec>, name: string) {
    exists i :: 0 <= i < |specs| && specs[i].name == name
  }

  /** A listing without nil entries, seen as a listing of pointers. */
  function Lift(specs: seq<IndexSpec>): (eis: ExIndexSpecifications)
    ensures |eis| == |specs| && forall i :: 0 <= i < |specs| ==> eis[i] == Some(specs[i])
  {
    seq(|specs|, i requires 0 <= i < |specs| => Some(specs[i]))
  }

  /**
   * On a listing without nil entries the search finds something exactly
   * when `slices.ContainsFunc` reports the name.
   */
  lemma FindAgreesWithContains(specs: seq<IndexSpec>, name: string)
    ensures FirstMatch(Lift(specs), name).Some? <==> HasIndexNamed(specs, name)
  {
    var eis := Lift(specs);
    if HasIndexNamed(specs, name) {
      var i :| 0 <= i < |specs| && specs[i].name == name;
      assert Matches(eis[i], name);
    }
  }
}
