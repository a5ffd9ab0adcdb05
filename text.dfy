/**
 * The string functions of Go's standard library that the identity codec and
 * the diagnostics use: `strings.TrimSpace` (with `unicode.IsSpace`),
 * `strings.SplitN` on "/", `strings.Contains` and `fmt.Sprintf("%d")`.
 * Strings are sequences of Unicode code points; the separators and spaces
 * involved are single code points, so this agrees with Go's byte strings
 * on valid UTF-8.
 */
module Text {
  import opened Wrappers

  /** `unicode.IsSpace`: the Latin-1 spaces and the other White_Space code points. */
  function IsSpace(c: char): (r: bool)
    ensures c as int <= 0xFF ==> (r <==> c as int in {0x09, 0x0A, 0x0B, 0x0C, 0x0D, 0x20, 0x85, 0xA0})
    ensures r ==> c as int <= 0x3000
  {
    var n := c as int;
    n == 0x09 || n == 0x0A || n == 0x0B || n == 0x0C || n == 0x0D || n == 0x20 ||
    n == 0x85 || n == 0xA0 || n == 0x1680 || (0x2000 <= n <= 0x200A) ||
    n == 0x2028 || n == 0x2029 || n == 0x202F || n == 0x205F || n == 0x3000
  }

  /** A string that neither starts nor ends with a space (the empty string trivially). */
  predicate NoEdgeSpace(s: string) {
    s == [] || (!IsSpace(s[0]) && !IsSpace(s[|s| - 1]))
  }

  /** The number of leading spaces. */
  function LeadingSpaces(s: string): (k: nat)
    ensures k <= |s|
    ensures forall i :: 0 <= i < k ==> IsSpace(s[i])
    ensures k < |s| ==> !IsSpace(s[k])
  {
    if s == [] || !IsSpace(s[0]) then 0 else 1 + LeadingSpaces(s[1..])
  }

  /** The number of trailing spaces. */
  function TrailingSpaces(s: string): (k: nat)
    ensures k <= |s|
    ensures forall i :: |s| - k <= i < |s| ==> IsSpace(s[i])
    ensures k < |s| ==> !IsSpace(s[|s| - 1 - k])
  {
    if s == [] || !IsSpace(s[|s| - 1]) then 0 else 1 + TrailingSpaces(s[..|s| - 1])
  }

  /**
   * `strings.TrimSpace`: the string with every leading and trailing space
   * removed. The result is a slice of the input, has no space at either end,
   * and is empty exactly when the input is all spaces.
   */
  function TrimSpace(s: string): (r: string)
    ensures NoEdgeSpace(r)
    ensures exists i, j :: 0 <= i <= j <= |s| && r == s[i..j] &&
                           (forall k :: 0 <= k < i ==> IsSpace(s[k])) &&
                           (forall k :: j <= k < |s| ==> IsSpace(s[k]))
    ensures r == [] <==> forall k :: 0 <= k < |s| ==> IsSpace(s[k])
  {
    var i := LeadingSpaces(s);
    var t := s[i..];
    var j := TrailingSpaces(t);
    var r := t[..|t| - j];
    assert r == s[i..i + |t| - j];
    assert forall k :: i + |t| - j <= k < |s| ==> s[k] == t[k - i];
    r
  }

  /** A string without edge spaces is its own trimming. */
  lemma TrimSpaceNoEdge(s: string)
    requires NoEdgeSpace(s)
    ensures TrimSpace(s) == s
  {
    if s != [] {
      assert LeadingSpaces(s) == 0;
      assert TrailingSpaces(s) == 0;
    }
  }

  /** Trimming twice trims nothing more. */
  lemma TrimSpaceIdempotent(s: string)
    ensures TrimSpace(TrimSpace(s)) == TrimSpace(s)
  {
    TrimSpaceNoEdge(TrimSpace(s));
  }

  /** `strings.Index(s, string(c))` for a one-code-point separator. */
  function IndexOf(s: string, c: char): (r: Option<nat>)
    ensures r.None? <==> c !in s
    ensures r.Some? ==> r.value < |s| && s[r.value] == c && c !in s[..r.value]
  {
    if s == [] then None
    else if s[0] == c then Some(0)
    else
      var r := IndexOf(s[1..], c);
      if r.None? then None
      else
        assert s[..r.value + 1] == [s[0]] + s[1..][..r.value];
        Some(r.value + 1)
  }

  /** `strings.Join(parts, "/")`. */
  function Join(parts: seq<string>): string
    requires |parts| >= 1
  {
    if |parts| == 1 then parts[0] else parts[0] + "/" + Join(parts[1..])
  }

  /** `strings.SplitN(s, "/", n)` for n >= 1. */
  function SplitN(s: string, n: nat): (r: seq<string>)
    requires n >= 1
    ensures 1 <= |r| <= n
    decreases n
  {
    if n == 1 then [s]
    else
      match IndexOf(s, '/')
      case None => [s]
      case Some(k) => [s[..k]] + SplitN(s[k + 1..], n - 1)
  }

  /**
   * What `strings.SplitN` promises of its parts: at most n of them, every
   * part but the last free of "/", the last free of "/" too unless n parts
   * were produced (it then holds the unsplit remainder), and joining the
   * parts with "/" gives back the input.
   */
  predicate IsSplit(s: string, n: nat, parts: seq<string>) {
    && 1 <= |parts| <= n
    && Join(parts) == s
    && (forall i :: 0 <= i < |parts| - 1 ==> '/' !in parts[i])
    && (|parts| < n ==> '/' !in parts[|parts| - 1])
  }

  /** SplitN's parts are a split of its input. */
  lemma {:induction false} SplitNSpec(s: string, n: nat)
    requires n >= 1
    ensures IsSplit(s, n, SplitN(s, n))
    decreases n
  {
    if n > 1 {
      match IndexOf(s, '/')
      case None =>
      case Some(k) =>
        var m: nat := n - 1;
        var p, tail := s[..k], s[k + 1..];
        SplitNSpec(tail, m);
        SplitNUnfold(s, n, k, m);
        CutAt(s, k);
        IsSplitCons(s, n, m, p, tail, SplitN(tail, m));
    }
  }

  /** A string with "/" at k is its two sides joined by that "/". */
  lemma CutAt(s: string, k: nat)
    requires k < |s| && s[k] == '/'
    ensures s == s[..k] + "/" + s[k + 1..]
  {
  }

  /** Prefixing a "/"-free part to a split of the tail splits the whole. */
  lemma IsSplitCons(s: string, n: nat, m: nat, p: string, tail: string, rest: seq<string>)
    requires n >= 2 && m == n - 1 && s == p + "/" + tail && '/' !in p
    requires IsSplit(tail, m, rest)
    ensures IsSplit(s, n, [p] + rest)
  {
    var parts := [p] + rest;
    assert parts[1..] == rest;
    forall i | 1 <= i < |parts| - 1
      ensures '/' !in parts[i]
    {
      assert parts[i] == rest[i - 1];
    }
  }

  /** The tail of a split of two or more parts splits the rest, one part shorter. */
  lemma IsSplitTail(s: string, n: nat, m: nat, parts: seq<string>)
    requires 2 <= |parts| && m == n - 1 && IsSplit(s, n, parts)
    ensures n >= 2 && '/' !in parts[0]
    ensures s == parts[0] + "/" + Join(parts[1..])
    ensures IsSplit(Join(parts[1..]), m, parts[1..])
  {
    var rest := parts[1..];
    forall i | 0 <= i < |rest| - 1
      ensures '/' !in rest[i]
    {
      assert rest[i] == parts[i + 1];
    }
  }

  /**
   * A split determines SplitN: any split of s into at most n parts IS
   * `SplitN(s, n)`.
   */
  lemma {:induction false} SplitNUnique(s: string, n: nat, parts: seq<string>)
    requires IsSplit(s, n, parts)
    ensures SplitN(s, n) == parts
    decreases n, 1
  {
    if |parts| == 1 {
      SplitNSingle(s, n, parts);
    } else {
      SplitNMany(s, n, parts);
    }
  }

  /** A split of two or more parts: peel off the first and recur on the rest. */
  lemma {:induction false} SplitNMany(s: string, n: nat, parts: seq<string>)
    requires 2 <= |parts| && IsSplit(s, n, parts)
    ensures SplitN(s, n) == parts
    decreases n, 0
  {
    var p, rest := parts[0], parts[1..];
    var tail := Join(rest);
    var m: nat := n - 1;
    assert parts == [p] + rest;
    IsSplitTail(s, n, m, parts);
    SplitNUnique(tail, m, rest);
    assert SplitN(tail, m) == rest;
    SplitNCons(s, p, tail, n, m);
    assert SplitN(s, n) == [p] + SplitN(tail, m);
  }

  /** A one-part split is the whole string. */
  lemma SplitNSingle(s: string, n: nat, parts: seq<string>)
    requires |parts| == 1 && IsSplit(s, n, parts)
    ensures SplitN(s, n) == parts
  {
    assert parts == [s];
    SplitNWhole(s, n);
  }

  /** A string that is not split comes back whole. */
  lemma SplitNWhole(s: string, n: nat)
    requires n >= 1 && (n == 1 || '/' !in s)
    ensures SplitN(s, n) == [s]
  {
    if n > 1 {
      assert IndexOf(s, '/').None?;
    }
  }

  /** Splitting `p + "/" + tail` with p free of "/" peels off p. */
  lemma SplitNCons(s: string, p: string, tail: string, n: nat, m: nat)
    requires s == p + "/" + tail
    requires '/' !in p && n >= 2 && m == n - 1
    ensures SplitN(s, n) == [p] + SplitN(tail, m)
  {
    IndexOfSeparator(p, tail);
    SplitNUnfold(s, n, |p|, m);
    SliceAround(s, p, tail);
  }

  /** One unfolding of SplitN at the first "/". */
  lemma SplitNUnfold(s: string, n: nat, k: nat, m: nat)
    requires n >= 2 && m == n - 1 && IndexOf(s, '/') == Some(k)
    ensures SplitN(s, n) == [s[..k]] + SplitN(s[k + 1..], m)
  {
    var rest := s[k + 1..];
    assert SplitN(s, n) == [s[..k]] + SplitN(rest, n - 1);
  }

  /** The two sides of a separator, cut back out of the joined string. */
  lemma SliceAround(s: string, p: string, tail: string)
    requires s == p + "/" + tail
    ensures s[..|p|] == p && s[|p| + 1..] == tail
  {
  }

  /** The first "/" of `p + "/" + tail` is the one after p when p has none. */
  lemma {:induction false} IndexOfSeparator(p: string, tail: string)
    requires '/' !in p
    ensures IndexOf(p + "/" + tail, '/') == Some(|p|)
  {
    if p != [] {
      assert (p + "/" + tail)[1..] == p[1..] + "/" + tail;
      IndexOfSeparator(p[1..], tail);
    }
  }

  /** `strings.Contains(s, string(c))`. */
  predicate ContainsChar(s: string, c: char) {
    c in s
  }

  /** The digits of `fmt.Sprintf("%d", n)` for a natural number. */
  function DecimalString(n: nat): (r: string)
    ensures |r| >= 1
    ensures forall i :: 0 <= i < |r| ==> '0' <= r[i] <= '9'
    ensures r[0] == '0' <==> n == 0
    ensures |r| > 1 ==> r[0] != '0'
  {
    var d := [('0' as int + n % 10) as char];
    if n < 10 then d else DecimalString(n / 10) + d
  }

  /** The value of a string of decimal digits. */
  function DigitsValue(s: string): nat
    requires forall i :: 0 <= i < |s| ==> '0' <= s[i] <= '9'
  {
    if s == [] then 0 else 10 * DigitsValue(s[..|s| - 1]) + (s[|s| - 1] as int - '0' as int)
  }

  /** Reading the digits back gives the number: `%d` loses nothing. */
  lemma {:induction false} DecimalStringValue(n: nat)
    ensures DigitsValue(DecimalString(n)) == n
  {
    var r := DecimalString(n);
    if n >= 10 {
      DecimalStringValue(n / 10);
      assert r[..|r| - 1] == DecimalString(n / 10);
    }
  }
}
