/**
 * String helpers the source takes from JavaScript: `String.prototype.trim`
 * and `Array.prototype.join`.
 */
module Text {
  import opened Wrappers

  /** The whitespace characters that `trim` removes (the ASCII ones plus NBSP and BOM). */
  predicate IsSpace(c: char) {
    c == ' ' || c == '\t' || c == '\n' || c == '\r' || c == '\U{0B}' || c == '\U{0C}'
    || c == '\U{A0}' || c == '\U{FEFF}'
  }

  /** Every character of `s` is whitespace (the empty string included). */
  predicate AllSpace(s: string) {
    forall k :: 0 <= k < |s| ==> IsSpace(s[k])
  }

  /** Drops leading whitespace: the result is a suffix of `s` and does not start with whitespace. */
  function TrimStart(s: string): (r: string)
    ensures |r| <= |s| && r == s[|s| - |r|..]
    ensures r == [] || !IsSpace(r[0])
    ensures forall k :: 0 <= k < |s| - |r| ==> IsSpace(s[k])
  {
    if |s| > 0 && IsSpace(s[0]) then TrimStart(s[1..]) else s
  }

  /** Drops trailing whitespace: the result is a prefix of `s` and does not end with whitespace. */
  function TrimEnd(s: string): (r: string)
    ensures |r| <= |s| && r == s[..|r|]
    ensures r == [] || !IsSpace(r[|r| - 1])
    ensures forall k :: |r| <= k < |s| ==> IsSpace(s[k])
  {
    if |s| > 0 && IsSpace(s[|s| - 1]) then TrimEnd(s[..|s| - 1]) else s
  }

  /** `s.trim()`: empty exactly when `s` is blank, otherwise framed by non-whitespace. */
  function Trim(s: string): (r: string)
    ensures r == [] <==> AllSpace(s)
    ensures r == [] || (!IsSpace(r[0]) && !IsSpace(r[|r| - 1]))
    ensures |r| <= |s|
    ensures exists i, j :: 0 <= i <= j <= |s| && r == s[i..j] && AllSpace(s[..i]) && AllSpace(s[j..])
  {
    TrimFrame(s);
    TrimEnd(TrimStart(s))
  }

  /** Trimming both ends keeps an infix of `s` with only whitespace cut off either side. */
  lemma TrimFrame(s: string)
    ensures exists i, j :: 0 <= i <= j <= |s| && TrimEnd(TrimStart(s)) == s[i..j]
                           && AllSpace(s[..i]) && AllSpace(s[j..])
  {
    var t := TrimStart(s);
    var r := TrimEnd(t);
    var i := |s| - |t|;
    SpacePrefix(s, i);
    SpaceSuffix(s, t, i, |r|);
    SliceOfSuffix(s, i, |r|);
  }

  /** A prefix of the suffix `s[i..]` is the slice of `s` starting at `i`. */
  lemma SliceOfSuffix(s: string, i: nat, n: nat)
    requires i + n <= |s|
    ensures s[i..][..n] == s[i..i + n]
  {
  }

  /** A prefix of characters each known to be whitespace is blank. */
  lemma SpacePrefix(s: string, i: nat)
    requires i <= |s|
    requires forall k :: 0 <= k < i ==> IsSpace(s[k])
    ensures AllSpace(s[..i])
  {
    forall k | 0 <= k < i ensures IsSpace(s[..i][k]) { assert s[..i][k] == s[k]; }
  }

  /** Whitespace after position `m` of the suffix `t == s[i..]` is a blank suffix of `s`. */
  lemma SpaceSuffix(s: string, t: string, i: nat, m: nat)
    requires i <= |s| && t == s[i..] && m <= |t|
    requires forall k :: m <= k < |t| ==> IsSpace(t[k])
    ensures AllSpace(s[i + m..])
  {
    var u := s[i + m..];
    forall k | 0 <= k < |u| ensures IsSpace(u[k]) {
      assert u[k] == t[m + k];
    }
  }

  /** `s.trim()` is empty, the test the forms write as `!s.trim()`. */
  predicate IsBlank(s: string) {
    Trim(s) == []
  }

  /** `s.trim() || undefined`: the trimmed text, or nothing when it is blank. */
  function TrimmedOrAbsent(s: string): (r: Option<string>)
    ensures r.None? <==> IsBlank(s)
    ensures r.Some? ==> r.value == Trim(s) && r.value != []
  {
    if IsBlank(s) then None else Some(Trim(s))
  }

  /** Trimming a trimmed string changes nothing. */
  lemma {:induction false} TrimIdempotent(s: string)
    ensures Trim(Trim(s)) == Trim(s)
  {
    var t := Trim(s);
    if t != [] {
      assert TrimStart(t) == t;
      assert TrimEnd(t) == t;
    }
  }

  /** `parts.join(sep)`: the parts in order with `sep` between neighbours; `[]` joins to "". */
  function Join(parts: seq<string>, sep: string): (r: string)
    ensures |parts| == 0 ==> r == ""
    ensures |parts| == 1 ==> r == parts[0]
  {
    if |parts| == 0 then ""
    else if |parts| == 1 then parts[0]
    else parts[0] + sep + Join(parts[1..], sep)
  }

  /** The sum of the lengths of `parts`. */
  function TotalLength(parts: seq<string>): nat {
    if parts == [] then 0 else |parts[0]| + TotalLength(parts[1..])
  }

  /** A join is as long as its parts together plus one separator between each two neighbours. */
  lemma {:induction false} JoinLength(parts: seq<string>, sep: string)
    requires |parts| >= 1
    ensures |Join(parts, sep)| == TotalLength(parts) + (|parts| - 1) * |sep|
    decreases |parts|
  {
    if |parts| >= 2 {
      JoinLength(parts[1..], sep);
    }
  }

  /** Joining one more part appends the separator and that part. */
  lemma {:induction false} JoinSnoc(a: seq<string>, x: string, sep: string)
    requires |a| >= 1
    ensures Join(a + [x], sep) == Join(a, sep) + sep + x
    decreases |a|
  {
    assert (a + [x])[0] == a[0] && (a + [x])[1..] == a[1..] + [x];
    if |a| >= 2 {
      JoinSnoc(a[1..], x, sep);
    } else {
      assert a[1..] + [x] == [x];
    }
  }
}
