/**
 * The string operations the ranking and reply code relies on: `str.lower()`,
 * `str.split()` with no separator, the substring test `needle in hay`, the
 * prefix slice `s[:n]` with its "..." preview marker, and the decimal
 * rendering of a non-negative integer (`str(n)`).
 *
 * Characters are restricted to what these operations do on ASCII text:
 * lower-casing maps only 'A'..'Z', and whitespace is the set Python's
 * `str.split()` uses below code point 128 (TAB..CR, the four separators
 * 0x1C..0x1F and SPACE).
 */
module Text {

  /** Whitespace for `str.split()`, as far as ASCII goes: exactly ten code points. */
  predicate IsSpace(c: char): (b: bool)
    ensures b <==> c as int in {9, 10, 11, 12, 13, 28, 29, 30, 31, 32}
  {
    c == ' ' || ('\t' <= c <= '\r') || (28 <= c as int <= 31)
  }

  predicate NoSpace(s: string) {
    forall i :: 0 <= i < |s| ==> !IsSpace(s[i])
  }

  predicate AllSpace(s: string) {
    forall i :: 0 <= i < |s| ==> IsSpace(s[i])
  }

  function LowerChar(c: char): char {
    if 'A' <= c <= 'Z' then (c as int + 32) as char else c
  }

  /** `s.lower()` on ASCII text: each character lower-cased in place (see LowerKeepsSpace). */
  function Lower(s: string): (r: string)
    ensures |r| == |s|
  {
    seq(|s|, i requires 0 <= i < |s| => LowerChar(s[i]))
  }

  /**
   * What `s.lower()` does to ASCII text: each letter A–Z becomes its
   * lower-case partner (code + 32), so no upper-case letter is left; every
   * other character is unchanged, so whitespace stays where it was and a
   * text is blank exactly when its lower-cased form is.
   */
  lemma LowerKeepsSpace(s: string)
    ensures forall i :: 0 <= i < |s| ==> !('A' <= Lower(s)[i] <= 'Z')
    ensures forall i :: 0 <= i < |s| && 'A' <= s[i] <= 'Z' ==> Lower(s)[i] as int == s[i] as int + 32
    ensures forall i :: 0 <= i < |s| && !('A' <= s[i] <= 'Z') ==> Lower(s)[i] == s[i]
    ensures forall i :: 0 <= i < |s| ==> (IsSpace(Lower(s)[i]) <==> IsSpace(s[i]))
    ensures AllSpace(Lower(s)) <==> AllSpace(s)
  {
    assert forall i :: 0 <= i < |s| ==> (IsSpace(Lower(s)[i]) <==> IsSpace(s[i]));
  }

  /** The run of non-whitespace characters that `s` starts with. */
  function LeadingWord(s: string): (w: string)
    ensures |w| <= |s| && w == s[..|w|]
    ensures NoSpace(w)
    ensures |w| < |s| ==> IsSpace(s[|w|])
    ensures s != [] && !IsSpace(s[0]) ==> w != []
  {
    if s == [] || IsSpace(s[0]) then [] else [s[0]] + LeadingWord(s[1..])
  }

  /**
   * `s.split()`: the maximal runs of non-whitespace characters, in order.
   * Leading, trailing and repeated whitespace produce no empty tokens.
   */
  function Split(s: string): (tokens: seq<string>)
    ensures forall w :: w in tokens ==> w != [] && NoSpace(w)
    decreases |s|
  {
    if s == [] then []
    else if IsSpace(s[0]) then Split(s[1..])
    else
      var w := LeadingWord(s);
      [w] + Split(s[|w|..])
  }

  /** The characters of `s` that are not whitespace, in order. */
  function Squeeze(s: string): string {
    if s == [] then [] else (if IsSpace(s[0]) then [] else [s[0]]) + Squeeze(s[1..])
  }

  function Join(ws: seq<string>): string {
    if ws == [] then [] else ws[0] + Join(ws[1..])
  }

  /** A text splits into no tokens exactly when it is all whitespace (the empty text included). */
  lemma {:induction false} SplitEmptyIffBlank(s: string)
    ensures Split(s) == [] <==> AllSpace(s)
    decreases |s|
  {
    if s != [] && IsSpace(s[0]) {
      SplitEmptyIffBlank(s[1..]);
      assert AllSpace(s) <==> AllSpace(s[1..]) by {
        if AllSpace(s[1..]) {
          forall i | 0 <= i < |s| ensures IsSpace(s[i]) {
            if i > 0 { assert s[i] == s[1..][i - 1]; }
          }
        }
      }
    }
  }

  lemma {:induction false} SqueezeAppend(a: string, b: string)
    ensures Squeeze(a + b) == Squeeze(a) + Squeeze(b)
    decreases |a|
  {
    if a == [] {
      assert a + b == b;
    } else {
      assert (a + b)[1..] == a[1..] + b;
      SqueezeAppend(a[1..], b);
    }
  }

  lemma {:induction false} SqueezeNoSpace(w: string)
    requires NoSpace(w)
    ensures Squeeze(w) == w
    decreases |w|
  {
    if w != [] {
      SqueezeNoSpace(w[1..]);
    }
  }

  /** Splitting loses only whitespace: the tokens, put back together, are the text's other characters in order. */
  lemma {:induction false} SplitKeepsText(s: string)
    ensures Join(Split(s)) == Squeeze(s)
    decreases |s|
  {
    if s == [] {
    } else if IsSpace(s[0]) {
      SplitKeepsText(s[1..]);
    } else {
      var w := LeadingWord(s);
      assert s == w + s[|w|..];
      SqueezeAppend(w, s[|w|..]);
      SqueezeNoSpace(w);
      SplitKeepsText(s[|w|..]);
    }
  }

  /** The first word ends at the first whitespace character. */
  lemma {:induction false} LeadingWordStops(a: string, c: char, b: string)
    requires IsSpace(c)
    ensures LeadingWord(a + [c] + b) == LeadingWord(a)
    decreases |a|
  {
    if a != [] && !IsSpace(a[0]) {
      assert (a + [c] + b)[1..] == a[1..] + [c] + b;
      LeadingWordStops(a[1..], c, b);
    }
  }

  /** A text without whitespace is one word from start to end. */
  lemma {:induction false} LeadingWordAll(w: string)
    requires NoSpace(w)
    ensures LeadingWord(w) == w
    decreases |w|
  {
    if w != [] {
      LeadingWordAll(w[1..]);
    }
  }

  /** Tokens break exactly at whitespace: splitting around a whitespace character splits both sides on their own. */
  lemma {:induction false} SplitAtSpace(a: string, c: char, b: string)
    requires IsSpace(c)
    ensures Split(a + [c] + b) == Split(a) + Split(b)
    decreases |a|
  {
    var s := a + [c] + b;
    if a == [] {
      assert s[1..] == b;
    } else if IsSpace(a[0]) {
      assert s[1..] == a[1..] + [c] + b;
      SplitAtSpace(a[1..], c, b);
    } else {
      var w := LeadingWord(a);
      LeadingWordStops(a, c, b);
      assert s[|w|..] == a[|w|..] + [c] + b;
      SplitAtSpace(a[|w|..], c, b);
    }
  }

  /** A non-empty text without whitespace is a single token: itself. */
  lemma SplitWord(w: string)
    requires w != [] && NoSpace(w)
    ensures Split(w) == [w]
  {
    LeadingWordAll(w);
    assert w[|w|..] == [];
  }

  /** `needle` occurs in `hay` starting at position `i`. */
  predicate OccursAt(hay: string, needle: string, i: nat) {
    i + |needle| <= |hay| && hay[i..i + |needle|] == needle
  }

  /** The substring test `needle in hay`. */
  function Contains(hay: string, needle: string): (r: bool)
    ensures r <==> exists i: nat :: OccursAt(hay, needle, i)
    decreases |hay|
  {
    if |needle| > |hay| then false
    else if hay[..|needle|] == needle then
      assert OccursAt(hay, needle, 0);
      true
    else
      var r := Contains(hay[1..], needle);
      assert r ==> exists i: nat :: OccursAt(hay, needle, i) by {
        if r {
          var j: nat :| OccursAt(hay[1..], needle, j);
          assert hay[1..][j..j + |needle|] == hay[j + 1..j + 1 + |needle|];
          assert OccursAt(hay, needle, j + 1);
        }
      }
      assert (exists i: nat :: OccursAt(hay, needle, i)) ==> r by {
        if exists i: nat :: OccursAt(hay, needle, i) {
          var i: nat :| OccursAt(hay, needle, i);
          assert i != 0;
          assert hay[1..][i - 1..i - 1 + |needle|] == hay[i..i + |needle|];
          assert OccursAt(hay[1..], needle, i - 1);
        }
      }
      r
  }

  /** The slice `s[:n]` for a non-negative `n`. */
  function Take(s: string, n: nat): (r: string)
    ensures |r| == if |s| <= n then |s| else n
    ensures r == s[..|r|]
  {
    if |s| <= n then s else s[..n]
  }

  /**
   * The preview rule `s[:limit] + "..." if len(s) > limit else s`: a text
   * no longer than `limit` is kept as it is; a longer one is cut to its
   * first `limit` characters and marked with "...".
   */
  function Truncate(s: string, limit: nat): (r: string)
    ensures |s| <= limit ==> r == s
    ensures |s| > limit ==> |r| == limit + 3 && r[..limit] == s[..limit] && r[limit..] == "..."
  {
    if |s| > limit then Take(s, limit) + "..." else s
  }

  function DigitChar(d: nat): char
    requires d < 10
  {
    "0123456789"[d]
  }

  function DigitValue(c: char): nat {
    if '0' <= c <= '9' then c as int - '0' as int else 0
  }

  /** `str(n)` for a non-negative integer. */
  function ToDecimal(n: nat): (s: string)
    ensures s != []
  {
    if n < 10 then [DigitChar(n)] else ToDecimal(n / 10) + [DigitChar(n % 10)]
  }

  /** `int(s)` on a string of decimal digits. */
  function ParseDecimal(s: string): nat {
    if s == [] then 0 else ParseDecimal(s[..|s| - 1]) * 10 + DigitValue(s[|s| - 1])
  }

  /** Reading back the decimal rendering of a number gives the number. */
  lemma {:induction false} ParseToDecimal(n: nat)
    ensures ParseDecimal(ToDecimal(n)) == n
  {
    if n >= 10 {
      var s := ToDecimal(n);
      assert s[..|s| - 1] == ToDecimal(n / 10);
      ParseToDecimal(n / 10);
    }
  }

  /** `str(n)` is all decimal digits, and starts with '0' only for 0 itself. */
  lemma {:induction false} ToDecimalDigits(n: nat)
    ensures forall i :: 0 <= i < |ToDecimal(n)| ==> '0' <= ToDecimal(n)[i] <= '9'
    ensures ToDecimal(n)[0] == '0' ==> n == 0
  {
    if n >= 10 {
      ToDecimalDigits(n / 10);
      var s := ToDecimal(n);
      assert s[..|s| - 1] == ToDecimal(n / 10);
      assert s[0] == ToDecimal(n / 10)[0];
    }
  }

  /** Different numbers have different decimal renderings. */
  lemma DecimalInjective(m: nat, n: nat)
    ensures ToDecimal(m) == ToDecimal(n) ==> m == n
  {
    ParseToDecimal(m);
    ParseToDecimal(n);
  }
}
