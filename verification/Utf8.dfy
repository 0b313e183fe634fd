/** Cutting a byte string (one `char` per byte) without splitting a UTF-8 rune. */
module Utf8 {

  predicate RuneStart(c: char) {
    !(0x80 <= c as int < 0xC0)
  }

  /** Bytes in the rune a lead byte opens, or 0 for a byte that opens none. */
  function RuneWidth(lead: char): nat {
    var b := lead as int;
    if b < 0x80 then 1
    else if 0xC2 <= b < 0xE0 then 2
    else if 0xE0 <= b < 0xF0 then 3
    else if 0xF0 <= b < 0xF5 then 4
    else 0
  }

  /** Table 3-7 of the Unicode standard: what may follow a lead byte. */
  predicate SecondByte(lead: char, second: char) {
    var a, b := lead as int, second as int;
    && 0x80 <= b < 0xC0
    && (a == 0xE0 ==> b >= 0xA0)
    && (a == 0xED ==> b < 0xA0)
    && (a == 0xF0 ==> b >= 0x90)
    && (a == 0xF4 ==> b < 0x90)
  }

  predicate RuneAt(s: string)
    requires s != []
  {
    var w := RuneWidth(s[0]);
    && 0 < w <= |s|
    && (w > 1 ==> SecondByte(s[0], s[1]))
    && (w > 2 ==> !RuneStart(s[2]))
    && (w > 3 ==> !RuneStart(s[3]))
  }

  predicate WellFormed(s: string)
    decreases |s|
  {
    s == [] || (RuneAt(s) && WellFormed(s[RuneWidth(s[0])..]))
  }

  /** The last index at or below limit where a rune starts, or 0. */
  function CutBack(s: string, limit: nat): (cut: nat)
    requires limit < |s|
    ensures cut <= limit && (cut == 0 || RuneStart(s[cut]))
    ensures forall i :: cut < i <= limit ==> !RuneStart(s[i])
  {
    if limit == 0 || RuneStart(s[limit]) then limit else CutBack(s, limit - 1)
  }

  method WalkBack(s: string, limit: nat) returns (cut: nat)
    requires limit < |s|
    ensures cut == CutBack(s, limit)
  {
    cut := limit;
    while cut > 0 && !RuneStart(s[cut])
      invariant cut <= limit && CutBack(s, limit) == CutBack(s, cut)
    {
      cut := cut - 1;
    }
  }

  /** In well-formed text the rune starts are exactly the places where it may be cut. */
  lemma {:induction false} SplitIff(s: string, c: nat)
    requires WellFormed(s) && c < |s|
    ensures RuneStart(s[c]) <==> WellFormed(s[..c])
    ensures RuneStart(s[c]) ==> WellFormed(s[c..])
    decreases |s|
  {
    var w := RuneWidth(s[0]);
    if c == 0 {
      assert s[0..] == s;
    } else if c < w {
      assert !RuneStart(s[c]);
      assert !RuneAt(s[..c]);
    } else {
      SplitIff(s[w..], c - w);
      assert s[..c][w..] == s[w..][..c - w];
      assert s[c..] == s[w..][c - w..];
      assert RuneAt(s[..c]);
    }
  }

  /** The kept prefix is well formed, and no longer well-formed prefix stays within the
      limit. */
  lemma CutIsExact(s: string, limit: nat)
    requires WellFormed(s) && limit < |s|
    ensures WellFormed(s[..CutBack(s, limit)])
    ensures forall c :: CutBack(s, limit) < c <= limit ==> !WellFormed(s[..c])
  {
    SplitIff(s, CutBack(s, limit));
    forall c | CutBack(s, limit) < c <= limit ensures !WellFormed(s[..c]) {
      SplitIff(s, c);
    }
  }
}
