/** Fitting an MCP tool result into a byte budget: JSON-aware array truncation with a
    byte-level fallback. Array elements are their JSON encodings. */
module Truncate {
  import Utf8

  datatype Option<T> = None | Some(value: T)

  // ---------------------------------------------------------------- sizes

  function Digits(n: nat): (s: string)
    ensures s != []
  {
    var last := [(n % 10 + '0' as int) as char];
    if n < 10 then last else Digits(n / 10) + last
  }

  lemma {:induction false} DigitsMonotone(m: nat, n: nat)
    requires m <= n
    ensures |Digits(m)| <= |Digits(n)|
  {
    if m >= 10 { DigitsMonotone(m / 10, n / 10); }
  }

  function Join(elements: seq<string>): string {
    if elements == [] then ""
    else if |elements| == 1 then elements[0]
    else Join(elements[..|elements| - 1]) + "," + elements[|elements| - 1]
  }

  function MarshalArray(elements: seq<string>): string {
    "[" + Join(elements) + "]"
  }

  function Notice(shown: nat, total: nat): string {
    "{\"_truncated\":\"Showing " + Digits(shown) + " of " + Digits(total) + " items (result exceeded size limit)\"}"
  }

  /** The first n elements and the element that says so. */
  function Shown(arr: seq<string>, n: nat): seq<string>
    requires n <= |arr|
  {
    arr[..n] + [Notice(n, |arr|)]
  }

  predicate Fits(arr: seq<string>, n: nat, maxLen: nat)
    requires n <= |arr|
  {
    |MarshalArray(Shown(arr, n))| <= maxLen
  }

  function JoinLength(elements: seq<string>): nat {
    if elements == [] then 0 else JoinLength(elements[..|elements| - 1]) + |elements[|elements| - 1]| + 1
  }

  lemma {:induction false} JoinSize(elements: seq<string>, last: string)
    ensures |Join(elements + [last])| == JoinLength(elements) + |last|
  {
    var all := elements + [last];
    assert all[..|all| - 1] == elements;
    if elements != [] {
      var shorter := elements[..|elements| - 1];
      assert elements == shorter + [elements[|elements| - 1]];
      JoinSize(shorter, elements[|elements| - 1]);
    }
  }

  /** Showing one more element never makes the result shorter, though the notice changes. */
  lemma FitsDown(arr: seq<string>, n: nat, maxLen: nat)
    requires n < |arr| && Fits(arr, n + 1, maxLen)
    ensures Fits(arr, n, maxLen)
  {
    JoinSize(arr[..n], Notice(n, |arr|));
    JoinSize(arr[..n + 1], Notice(n + 1, |arr|));
    assert arr[..n + 1][..n] == arr[..n];
    DigitsMonotone(n, n + 1);
  }

  lemma {:induction false} FitsMonotone(arr: seq<string>, m: nat, n: nat, maxLen: nat)
    requires m <= n <= |arr| && Fits(arr, n, maxLen)
    ensures Fits(arr, m, maxLen)
    decreases n - m
  {
    if m < n {
      FitsDown(arr, n - 1, maxLen);
      FitsMonotone(arr, m, n - 1, maxLen);
    }
  }

  // ---------------------------------------------------------------- arrays

  method TryMarshalArray(arr: seq<string>, n: nat, maxLen: nat) returns (fits: bool)
    requires n <= |arr|
    ensures fits == Fits(arr, n, maxLen)
  {
    var truncated := arr[..n] + [Notice(n, |arr|)];
    fits := |MarshalArray(truncated)| <= maxLen;
  }

  /** The largest count the binary search may answer: it fits unless it is 0, and no
      larger count fits. */
  ghost predicate IsLargest(arr: seq<string>, keep: nat, maxLen: nat) {
    && keep <= |arr|
    && (keep == 0 || Fits(arr, keep, maxLen))
    && forall n :: keep < n <= |arr| ==> !Fits(arr, n, maxLen)
  }

  method SearchLargest(arr: seq<string>, maxLen: nat) returns (keep: nat)
    ensures IsLargest(arr, keep, maxLen)
  {
    var lo, hi := 0, |arr|;
    while lo < hi
      invariant 0 <= lo <= hi <= |arr|
      invariant lo == 0 || Fits(arr, lo, maxLen)
      invariant forall n :: hi < n <= |arr| ==> !Fits(arr, n, maxLen)
    {
      var mid := (lo + hi + 1) / 2;
      var fits := TryMarshalArray(arr, mid, maxLen);
      if fits {
        lo := mid;
      } else {
        forall n | mid <= n <= |arr| ensures !Fits(arr, n, maxLen) {
          if Fits(arr, n, maxLen) { FitsMonotone(arr, mid, n, maxLen); }
        }
        hi := mid - 1;
      }
    }
    keep := lo;
  }

  /** The same count, looked for from the top. */
  ghost function LongestUpTo(arr: seq<string>, n: nat, maxLen: nat): (keep: nat)
    requires n <= |arr| && forall m :: n < m <= |arr| ==> !Fits(arr, m, maxLen)
    ensures IsLargest(arr, keep, maxLen)
  {
    if n == 0 || Fits(arr, n, maxLen) then n else LongestUpTo(arr, n - 1, maxLen)
  }

  ghost function Longest(arr: seq<string>, maxLen: nat): (keep: nat)
    ensures IsLargest(arr, keep, maxLen)
  {
    LongestUpTo(arr, |arr|, maxLen)
  }

  /** There is only one longest prefix. */
  lemma LargestUnique(arr: seq<string>, j: nat, k: nat, maxLen: nat)
    requires IsLargest(arr, j, maxLen) && IsLargest(arr, k, maxLen)
    ensures j == k
  {
  }

  /** The bare notice fits and the whole array with a notice does not. */
  predicate Shortens(arr: seq<string>, maxLen: nat) {
    arr != [] && Fits(arr, 0, maxLen) && !Fits(arr, |arr|, maxLen)
  }

  /** Truncation of an array answers exactly when it shortens, with the longest prefix that
      fits. */
  method TruncateJSONArray(arr: seq<string>, maxLen: nat) returns (out: Option<string>)
    ensures out == if Shortens(arr, maxLen) then Some(MarshalArray(Shown(arr, Longest(arr, maxLen)))) else None
    ensures out.Some? ==> |out.value| <= maxLen && Longest(arr, maxLen) < |arr|
  {
    var total := |arr|;
    if total == 0 {
      return None;
    }
    var keep := SearchLargest(arr, maxLen);
    LargestUnique(arr, keep, Longest(arr, maxLen), maxLen);
    if keep == total {
      return None;
    }
    var s := MarshalArray(arr[..keep] + [Notice(keep, total)]);
    if keep > 0 { FitsMonotone(arr, 0, keep, maxLen); }
    if |s| > maxLen {
      return None;
    }
    assert s == MarshalArray(Shown(arr, keep));
    return Some(s);
  }

  // ---------------------------------------------------------------- objects

  datatype Value = Array(elements: seq<string>) | Other(json: string)

  /** One member of an object; the key is its JSON encoding. */
  datatype Field = Field(key: string, value: Value)

  function MarshalValue(v: Value): string {
    match v
    case Array(elements) => MarshalArray(elements)
    case Other(json) => json
  }

  function MarshalFields(fields: seq<Field>): string {
    if fields == [] then ""
    else
      var last := fields[|fields| - 1];
      var rest := if |fields| == 1 then "" else MarshalFields(fields[..|fields| - 1]) + ",";
      rest + last.key + ":" + MarshalValue(last.value)
  }

  function MarshalObject(fields: seq<Field>): string {
    "{" + MarshalFields(fields) + "}"
  }

  predicate Large(f: Field) {
    f.value.Array? && |f.value.elements| > 5
  }

  /** A large array that does not fit whole. */
  predicate Oversized(f: Field, maxLen: nat) {
    Large(f) && !Fits(f.value.elements, |f.value.elements|, maxLen)
  }

  /** Such an array loses its tail to a notice, past the longest prefix that fits; every other
      field stays as it is. */
  ghost function Cut(f: Field, maxLen: nat): Field {
    if Oversized(f, maxLen) then
      Field(f.key, Array(Shown(f.value.elements, Longest(f.value.elements, maxLen))))
    else f
  }

  ghost function CutFields(fields: seq<Field>, maxLen: nat): (after: seq<Field>)
    ensures |after| == |fields| && forall i :: 0 <= i < |fields| ==> after[i] == Cut(fields[i], maxLen)
  {
    seq(|fields|, i requires 0 <= i < |fields| => Cut(fields[i], maxLen))
  }

  predicate AnyOversized(fields: seq<Field>, maxLen: nat) {
    exists i :: 0 <= i < |fields| && Oversized(fields[i], maxLen)
  }

  method TruncateObjectArray(arr: seq<string>, maxLen: nat) returns (out: Option<seq<string>>)
    ensures out == if Fits(arr, |arr|, maxLen) || arr == [] then None else Some(Shown(arr, Longest(arr, maxLen)))
  {
    var total := |arr|;
    var keep := SearchLargest(arr, maxLen);
    LargestUnique(arr, keep, Longest(arr, maxLen), maxLen);
    if keep == total {
      return None;
    }
    if keep == 0 {
      assert arr[..0] + [Notice(0, total)] == [Notice(0, total)];
      return Some([Notice(0, total)]);
    }
    return Some(arr[..keep] + [Notice(keep, total)]);
  }

  /** Truncation of an object cuts every oversized array, and answers exactly when there is one
      and the object with all of them cut is within the limit. */
  method TruncateJSONObject(fields: seq<Field>, maxLen: nat) returns (out: Option<string>)
    ensures out.Some? <==> AnyOversized(fields, maxLen) && |MarshalObject(CutFields(fields, maxLen))| <= maxLen
    ensures out.Some? ==> out.value == MarshalObject(CutFields(fields, maxLen))
  {
    var obj := fields;
    var modified := false;
    for i := 0 to |fields|
      invariant |obj| == |fields|
      invariant forall k :: 0 <= k < i ==> obj[k] == Cut(fields[k], maxLen)
      invariant forall k :: i <= k < |fields| ==> obj[k] == fields[k]
      invariant modified <==> exists k :: 0 <= k < i && Oversized(fields[k], maxLen)
    {
      if Large(obj[i]) {
        var shorter := TruncateObjectArray(obj[i].value.elements, maxLen);
        if shorter.Some? {
          obj := obj[i := Field(obj[i].key, Array(shorter.value))];
          modified := true;
          assert Oversized(fields[i], maxLen);
        }
      }
    }
    if !modified {
      return None;
    }
    assert obj == CutFields(fields, maxLen);
    var s := MarshalObject(obj);
    if |s| > maxLen {
      return None;
    }
    return Some(s);
  }

  // ---------------------------------------------------------------- whole results

  /** What a result decodes to, if it is JSON at all. */
  datatype Parsed = NotJson | JsonArray(elements: seq<string>) | JsonObject(fields: seq<Field>) | JsonScalar

  function Marker(total: nat): string {
    "\n...[truncated, " + Digits(total) + " total bytes]"
  }

  /** The longest prefix within the limit that ends at a rune boundary, and the marker. */
  function CutAndMarked(slimmed: string, maxLen: nat): string
    requires maxLen < |slimmed|
  {
    slimmed[..Utf8.CutBack(slimmed, maxLen)] + Marker(|slimmed|)
  }

  /** What becomes of a result that is too long. */
  ghost function Shortened(slimmed: string, parsed: Parsed, maxLen: nat): string
    requires maxLen < |slimmed|
  {
    match parsed
    case JsonArray(elements) =>
      if Shortens(elements, maxLen) then MarshalArray(Shown(elements, Longest(elements, maxLen)))
      else CutAndMarked(slimmed, maxLen)
    case JsonObject(fields) =>
      if AnyOversized(fields, maxLen) && |MarshalObject(CutFields(fields, maxLen))| <= maxLen then
        MarshalObject(CutFields(fields, maxLen))
      else CutAndMarked(slimmed, maxLen)
    case _ => CutAndMarked(slimmed, maxLen)
  }

  /** A slimmed result within the budget is returned as it is; a longer one is replaced by
      JSON within the budget or cut at a rune boundary within the budget and marked. */
  method TruncateResult(slimmed: string, parsed: Parsed, maxLen: nat) returns (out: string)
    ensures |slimmed| <= maxLen ==> out == slimmed
    ensures |slimmed| > maxLen ==> out == Shortened(slimmed, parsed, maxLen)
    ensures |slimmed| > maxLen ==> |out| <= maxLen || out == CutAndMarked(slimmed, maxLen)
  {
    if |slimmed| <= maxLen {
      return slimmed;
    }
    var truncated: Option<string> := None;
    match parsed {
      case JsonArray(elements) => truncated := TruncateJSONArray(elements, maxLen);
      case JsonObject(fields) => truncated := TruncateJSONObject(fields, maxLen);
      case NotJson =>
      case JsonScalar =>
    }
    if truncated.Some? {
      return truncated.value;
    }
    var cut := Utf8.WalkBack(slimmed, maxLen);
    out := slimmed[..cut] + Marker(|slimmed|);
  }
}
