/** The JavaScript string operations the core relies on: `split` on a one-character
    separator, `join`, and the decimal rendering of a non-negative integer inside a
    template literal. */
module JsText {
  import opened JsArray

  /** How many times `c` occurs in `s`. */
  function CountChar(s: string, c: char): nat {
    if |s| == 0 then 0 else (if s[0] == c then 1 else 0) + CountChar(s[1..], c)
  }

  /** `s.split(sep)`: the pieces between occurrences of `sep`. There is always one piece more
      than there are separators, and an empty string splits into one empty piece. */
  function Split(s: string, sep: char): (pieces: seq<string>)
    ensures |pieces| == CountChar(s, sep) + 1
    ensures forall k :: 0 <= k < |pieces| ==> sep !in pieces[k]
  {
    if |s| == 0 then [""]
    else
      var rest := Split(s[1..], sep);
      if s[0] == sep then [""] + rest
      else [[s[0]] + rest[0]] + rest[1..]
  }

  /** `pieces.join(sep)`. */
  function Join(pieces: seq<string>, sep: char): string {
    if |pieces| == 0 then ""
    else if |pieces| == 1 then pieces[0]
    else pieces[0] + [sep] + Join(pieces[1..], sep)
  }

  /** Gluing a character onto the first piece glues it onto the joined string. */
  lemma {:induction false} JoinConsFirst(c: char, p: seq<string>, sep: char)
    requires |p| >= 1
    ensures Join([[c] + p[0]] + p[1..], sep) == [c] + Join(p, sep)
  {
    var q := [[c] + p[0]] + p[1..];
    assert q[1..] == p[1..];
  }

  /** Joining the pieces of a split gives back the string. */
  lemma {:induction false} JoinSplit(s: string, sep: char)
    ensures Join(Split(s, sep), sep) == s
  {
    if |s| > 0 {
      var rest := Split(s[1..], sep);
      JoinSplit(s[1..], sep);
      if s[0] == sep {
        assert ([""] + rest)[1..] == rest;
        assert s == [sep] + s[1..];
      } else {
        JoinConsFirst(s[0], rest, sep);
        assert s == [s[0]] + s[1..];
      }
    }
  }

  /** `s.split(sep).slice(0, k).join(sep)` for k >= 1 is the prefix of `s` before its
      k-th occurrence of `sep`, or the whole of `s` when `sep` occurs fewer than k times. */
  lemma {:induction false} JoinTakeSplit(s: string, sep: char, k: nat)
    requires k >= 1
    ensures Join(Take(Split(s, sep), k), sep) <= s
    ensures CountChar(s, sep) < k ==> Join(Take(Split(s, sep), k), sep) == s
    ensures CountChar(s, sep) >= k ==>
      var t := Join(Take(Split(s, sep), k), sep);
      |t| < |s| && s[|t|] == sep && CountChar(t, sep) == k - 1
    decreases |s|, 1
  {
    if |s| == 0 {
      assert Take(Split(s, sep), k) == [""];
    } else if s[0] == sep {
      JoinTakeSplitAtSep(s, sep, k);
    } else {
      JoinTakeSplitAtOther(s, sep, k);
    }
  }

  /** The case of `JoinTakeSplit` where `s` starts with the separator. */
  lemma {:induction false} JoinTakeSplitAtSep(s: string, sep: char, k: nat)
    requires k >= 1 && |s| > 0 && s[0] == sep
    ensures Join(Take(Split(s, sep), k), sep) <= s
    ensures CountChar(s, sep) < k ==> Join(Take(Split(s, sep), k), sep) == s
    ensures CountChar(s, sep) >= k ==>
      var t := Join(Take(Split(s, sep), k), sep);
      |t| < |s| && s[|t|] == sep && CountChar(t, sep) == k - 1
    decreases |s|, 0
  {
    var t := Join(Take(Split(s, sep), k), sep);
    var rest := Split(s[1..], sep);
    assert s == [s[0]] + s[1..];
    if k == 1 {
      assert Take(Split(s, sep), k) == [""];
      assert t == "";
    } else {
      var tr := Take(rest, k - 1);
      assert Take(Split(s, sep), k) == [""] + tr;
      assert ([""] + tr)[1..] == tr;
      JoinTakeSplit(s[1..], sep, k - 1);
      var t' := Join(tr, sep);
      assert t == [sep] + t';
      assert t[1..] == t';
    }
  }

  /** The case of `JoinTakeSplit` where `s` starts with another character. */
  lemma {:induction false} JoinTakeSplitAtOther(s: string, sep: char, k: nat)
    requires k >= 1 && |s| > 0 && s[0] != sep
    ensures Join(Take(Split(s, sep), k), sep) <= s
    ensures CountChar(s, sep) < k ==> Join(Take(Split(s, sep), k), sep) == s
    ensures CountChar(s, sep) >= k ==>
      var t := Join(Take(Split(s, sep), k), sep);
      |t| < |s| && s[|t|] == sep && CountChar(t, sep) == k - 1
    decreases |s|, 0
  {
    var t := Join(Take(Split(s, sep), k), sep);
    var rest := Split(s[1..], sep);
    assert s == [s[0]] + s[1..];
    var tr := Take(rest, k);
    assert Take(Split(s, sep), k) == [[s[0]] + tr[0]] + tr[1..];
    JoinConsFirst(s[0], tr, sep);
    JoinTakeSplit(s[1..], sep, k);
    var t' := Join(tr, sep);
    assert t == [s[0]] + t';
    assert t[1..] == t';
  }

  /** The digit character for `d`. */
  function DigitChar(d: nat): (c: char)
    requires d < 10
    ensures '0' <= c <= '9' && (c as int) - ('0' as int) == d
  {
    (('0' as int) + d) as char
  }

  predicate AllDigits(s: string) {
    forall k :: 0 <= k < |s| ==> '0' <= s[k] <= '9'
  }

  /** `${n}` for a non-negative integer: its decimal digits, without leading zeros. */
  function NatToString(n: nat): (s: string)
    ensures |s| >= 1 && AllDigits(s)
    ensures s[0] == '0' ==> n == 0
    ensures n == 0 ==> s == "0"
  {
    if n < 10 then [DigitChar(n)] else NatToString(n / 10) + [DigitChar(n % 10)]
  }

  /** The number a string of decimal digits denotes. */
  function DecimalValue(s: string): nat
    requires AllDigits(s)
  {
    if |s| == 0 then 0 else DecimalValue(s[..|s| - 1]) * 10 + ((s[|s| - 1] as int) - ('0' as int))
  }

  /** Reading the rendered digits back gives the number: the rendering loses nothing. */
  lemma {:induction false} DecimalRoundTrip(n: nat)
    ensures DecimalValue(NatToString(n)) == n
  {
    if n >= 10 {
      var s := NatToString(n);
      DecimalRoundTrip(n / 10);
      assert s[..|s| - 1] == NatToString(n / 10);
    }
  }
}
