/**
 * Text building blocks of the DDL script: separator-joined lists and their splitting,
 * Python's `str` of an integer and its parse, and Python's ordering of strings.
 */
module DdlText {

  /* ---------- separated lists ---------- */

  /** The items with `sep` between neighbours and nowhere else. */
  function Join(xs: seq<string>, sep: string): string
    decreases |xs|
  {
    if |xs| == 0 then ""
    else if |xs| == 1 then xs[0]
    else xs[0] + sep + Join(xs[1..], sep)
  }

  /** The text a loop builds when it appends each item followed by `sep` unless the item
      is the last one: the first `k` items of `xs`. */
  function SeparatedPrefix(xs: seq<string>, sep: string, k: nat): string
    requires k <= |xs|
  {
    if k == 0 then ""
    else SeparatedPrefix(xs, sep, k - 1) + xs[k - 1] + (if k - 1 != |xs| - 1 then sep else "")
  }

  /** Joining one more item puts one separator before it. */
  lemma {:induction false} JoinSnoc(xs: seq<string>, y: string, sep: string)
    requires |xs| >= 1
    ensures Join(xs + [y], sep) == Join(xs, sep) + sep + y
    decreases |xs|
  {
    if |xs| == 1 {
      assert (xs + [y])[1..] == [y];
    } else {
      assert (xs + [y])[1..] == xs[1..] + [y];
      JoinSnoc(xs[1..], y, sep);
    }
  }

  /** Part way through the loop the text is the joined items plus one trailing separator. */
  lemma {:induction false} SeparatedPrefixJoin(xs: seq<string>, sep: string, k: nat)
    requires 1 <= k <= |xs|
    ensures SeparatedPrefix(xs, sep, k) == Join(xs[..k], sep) + (if k != |xs| then sep else "")
    decreases k
  {
    if k > 1 {
      SeparatedPrefixJoin(xs, sep, k - 1);
      assert xs[..k] == xs[..k - 1] + [xs[k - 1]];
      JoinSnoc(xs[..k - 1], xs[k - 1], sep);
    } else {
      assert xs[..1] == [xs[0]];
    }
  }

  /** The whole loop produces exactly the joined list: a separator follows every item
      except the last. */
  lemma SeparatedIsJoin(xs: seq<string>, sep: string)
    ensures SeparatedPrefix(xs, sep, |xs|) == Join(xs, sep)
  {
    if |xs| >= 1 {
      SeparatedPrefixJoin(xs, sep, |xs|);
      assert xs[..|xs|] == xs;
    }
  }

  /** The first position of `c` in `s`. */
  function IndexOf(s: string, c: char): (r: nat)
    requires c in s
    ensures r < |s| && s[r] == c && c !in s[..r]
  {
    if s[0] == c then 0 else 1 + IndexOf(s[1..], c)
  }

  /** The first position of `c` is the position holding `c` with no `c` before it. */
  lemma {:induction false} IndexOfAt(s: string, c: char, p: nat)
    requires p < |s| && s[p] == c && c !in s[..p]
    ensures IndexOf(s, c) == p
    decreases p
  {
    if p > 0 {
      assert s[0] == s[..p][0];
      assert s[1..][..p - 1] == s[..p][1..];
      IndexOfAt(s[1..], c, p - 1);
    }
  }

  /** The pieces of `s` between occurrences of `c`. */
  function Split(s: string, c: char): (r: seq<string>)
    ensures |r| >= 1
    decreases |s|
  {
    if c !in s then [s]
    else
      var i := IndexOf(s, c);
      [s[..i]] + Split(s[i + 1..], c)
  }

  /** Splitting a list joined with a one-character separator that no item contains gives
      the items back. */
  lemma {:induction false} SplitJoin(xs: seq<string>, c: char)
    requires |xs| >= 1
    requires forall k :: 0 <= k < |xs| ==> c !in xs[k]
    ensures Split(Join(xs, [c]), c) == xs
    decreases |xs|
  {
    if |xs| > 1 {
      var s := Join(xs, [c]);
      var rest := Join(xs[1..], [c]);
      assert s == xs[0] + [c] + rest;
      assert s[|xs[0]|] == c;
      assert s[..|xs[0]|] == xs[0];
      assert c in s;
      IndexOfAt(s, c, |xs[0]|);
      assert s[|xs[0]| + 1..] == rest;
      SplitJoin(xs[1..], c);
    }
  }

  /* ---------- str() of an integer ---------- */

  function DigitChar(d: nat): (r: char)
    requires d < 10
    ensures '0' <= r <= '9'
  {
    "0123456789"[d]
  }

  function DigitValue(c: char): nat {
    if '0' <= c <= '9' then c as int - '0' as int else 0
  }

  /** Decimal digits of `n`, most significant first, with no leading zero. */
  function NatToString(n: nat): (r: string)
    ensures |r| >= 1
    ensures forall k :: 0 <= k < |r| ==> '0' <= r[k] <= '9'
    ensures n > 0 ==> r[0] != '0'
    decreases n
  {
    if n < 10 then [DigitChar(n)] else NatToString(n / 10) + [DigitChar(n % 10)]
  }

  /** Python's `str` of an integer. */
  function IntToString(i: int): string {
    if i < 0 then "-" + NatToString(-i) else NatToString(i)
  }

  /** The value of a string of decimal digits. */
  function ParseNat(s: string): nat
    decreases |s|
  {
    if |s| == 0 then 0 else ParseNat(s[..|s| - 1]) * 10 + DigitValue(s[|s| - 1])
  }

  function ParseInt(s: string): int {
    if |s| > 0 && s[0] == '-' then 0 - ParseNat(s[1..]) else ParseNat(s)
  }

  lemma {:induction false} ParseNatToString(n: nat)
    ensures ParseNat(NatToString(n)) == n
    decreases n
  {
    if n >= 10 {
      ParseNatToString(n / 10);
      var s := NatToString(n);
      assert s[..|s| - 1] == NatToString(n / 10);
      assert DigitValue(DigitChar(n % 10)) == n % 10 by {
        DigitCharValue(n % 10);
      }
    } else {
      DigitCharValue(n);
    }
  }

  lemma DigitCharValue(d: nat)
    requires d < 10
    ensures DigitValue(DigitChar(d)) == d
  {
    var ds := "0123456789";
    assert ds[d] as int == '0' as int + d by {
      assert ds[0] == '0' && ds[1] == '1' && ds[2] == '2' && ds[3] == '3' && ds[4] == '4';
      assert ds[5] == '5' && ds[6] == '6' && ds[7] == '7' && ds[8] == '8' && ds[9] == '9';
    }
  }

  /** The printed integer reads back as itself: the length text in the DDL is exactly
      the schema's number. */
  lemma IntToStringRoundTrip(i: int)
    ensures ParseInt(IntToString(i)) == i
  {
    if i < 0 {
      var t := NatToString(-i);
      ParseNatToString(-i);
      assert ("-" + t)[1..] == t;
      assert ("-" + t)[0] == '-';
    } else {
      var t := NatToString(i);
      ParseNatToString(i);
      assert '0' <= t[0] <= '9';
    }
  }

  /* ---------- Python's string order ---------- */

  /** `a <= b` on Python strings: code point by code point, a proper prefix first. */
  predicate StrLe(a: string, b: string)
    decreases |a|
  {
    |a| == 0 || (|b| > 0 && (a[0] < b[0] || (a[0] == b[0] && StrLe(a[1..], b[1..]))))
  }

  lemma {:induction false} StrLeTotal(a: string, b: string)
    ensures StrLe(a, b) || StrLe(b, a)
    decreases |a|
  {
    if |a| > 0 && |b| > 0 && a[0] == b[0] {
      StrLeTotal(a[1..], b[1..]);
    }
  }

  lemma {:induction false} StrLeAntisymmetric(a: string, b: string)
    requires StrLe(a, b) && StrLe(b, a)
    ensures a == b
    decreases |a|
  {
    if |a| > 0 {
      StrLeAntisymmetric(a[1..], b[1..]);
      assert a == [a[0]] + a[1..] && b == [b[0]] + b[1..];
    }
  }

  lemma {:induction false} StrLeTransitive(a: string, b: string, c: string)
    requires StrLe(a, b) && StrLe(b, c)
    ensures StrLe(a, c)
    decreases |a|
  {
    if |a| > 0 && a[0] == b[0] && b[0] == c[0] {
      StrLeTransitive(a[1..], b[1..], c[1..]);
    }
  }

  lemma {:induction false} StrLeReflexive(a: string)
    ensures StrLe(a, a)
    decreases |a|
  {
    if |a| > 0 {
      StrLeReflexive(a[1..]);
    }
  }
}
