/**
 * The string operations the add-on's operators rely on, written as the Python
 * built-ins they use behave: substring tests (`x in s`), `str.isalnum`,
 * `str.split()` with no argument, `" ".join(...)` and the `{i:02d}` format.
 */
module Strings {

  /** `p` is a prefix of `s`. */
  predicate StartsWith(s: string, p: string) {
    |p| <= |s| && s[..|p|] == p
  }

  /** `s` ends with `p` (Python's `s.endswith(p)`). */
  predicate EndsWith(s: string, p: string) {
    |p| <= |s| && s[|s| - |p|..] == p
  }

  /** Python's `sub in s`: `sub` occurs in `s` as a contiguous substring. */
  predicate Contains(s: string, sub: string)
    decreases |s|
  {
    StartsWith(s, sub) || (s != [] && Contains(s[1..], sub))
  }

  lemma ContainsSelf(s: string)
    ensures Contains(s, s)
  {
    assert s[..|s|] == s;
  }

  /** Independent statement of `Contains`: some window of `s` equals `sub`. */
  ghost predicate OccursAt(s: string, sub: string, i: int) {
    0 <= i && i + |sub| <= |s| && s[i..i + |sub|] == sub
  }

  lemma {:induction false} OccursImpliesContains(s: string, sub: string, i: int)
    requires OccursAt(s, sub, i)
    ensures Contains(s, sub)
    decreases i
  {
    if i == 0 {
      assert s[..|sub|] == sub;
    } else {
      assert s[1..][i - 1..i - 1 + |sub|] == s[i..i + |sub|];
      OccursImpliesContains(s[1..], sub, i - 1);
    }
  }

  lemma {:induction false} ContainsImpliesOccurs(s: string, sub: string)
    requires Contains(s, sub)
    ensures exists i :: OccursAt(s, sub, i)
    decreases |s|
  {
    if StartsWith(s, sub) {
      assert OccursAt(s, sub, 0);
    } else {
      ContainsImpliesOccurs(s[1..], sub);
      var i :| OccursAt(s[1..], sub, i);
      assert s[i + 1..i + 1 + |sub|] == s[1..][i..i + |sub|];
      assert OccursAt(s, sub, i + 1);
    }
  }

  lemma ContainsIffOccurs(s: string, sub: string)
    ensures Contains(s, sub) <==> exists i :: OccursAt(s, sub, i)
  {
    if Contains(s, sub) {
      ContainsImpliesOccurs(s, sub);
    } else if i :| OccursAt(s, sub, i) {
      OccursImpliesContains(s, sub, i);
    }
  }

  predicate IsDigit(c: char) {
    '0' <= c <= '9'
  }

  /**
   * `str.isalnum` restricted to ASCII: letters and decimal digits.
   */
  predicate IsAlnum(c: char) {
    ('a' <= c <= 'z') || ('A' <= c <= 'Z') || IsDigit(c)
  }

  /**
   * The characters Python's `str.isspace` accepts, which are the separators of
   * `str.split()` called without an argument.
   */
  predicate IsSpace(c: char) {
    var n := c as int;
    (9 <= n <= 13) || (28 <= n <= 32) || n == 0x85 || n == 0xA0 || n == 0x1680
    || (0x2000 <= n <= 0x200A) || n == 0x2028 || n == 0x2029 || n == 0x202F
    || n == 0x205F || n == 0x3000
  }

  /** No character of `w` is whitespace. */
  predicate NoSpace(w: string) {
    forall j :: 0 <= j < |w| ==> !IsSpace(w[j])
  }

  /** A well-formed result of `split()`: every word non-empty and free of whitespace. */
  predicate IsWordList(ws: seq<string>) {
    forall i :: 0 <= i < |ws| ==> |ws[i]| > 0 && NoSpace(ws[i])
  }

  /** The longest prefix of `s` that holds no whitespace. */
  function WordPrefix(s: string): (w: string)
    ensures StartsWith(s, w) && NoSpace(w)
    ensures |w| < |s| ==> IsSpace(s[|w|])
    ensures s != [] && !IsSpace(s[0]) ==> |w| > 0
  {
    if s == [] || IsSpace(s[0]) then [] else [s[0]] + WordPrefix(s[1..])
  }

  /** `s.split()`: the maximal runs of non-whitespace characters, in order. */
  function Split(s: string): (ws: seq<string>)
    ensures IsWordList(ws)
    decreases |s|
  {
    if s == [] then []
    else if IsSpace(s[0]) then Split(s[1..])
    else
      var w := WordPrefix(s);
      [w] + Split(s[|w|..])
  }

  /** The total length of the words. */
  function WordsLength(ws: seq<string>): nat {
    if ws == [] then 0 else |ws[0]| + WordsLength(ws[1..])
  }

  /**
   * `" ".join(ws)`: the empty string for no words, otherwise the words and one
   * separator between each two, starting with the first word.
   */
  function Join(ws: seq<string>): (r: string)
    ensures ws == [] ==> r == ""
    ensures ws != [] ==> |r| == WordsLength(ws) + |ws| - 1 && StartsWith(r, ws[0])
  {
    if ws == [] then ""
    else if |ws| == 1 then ws[0]
    else ws[0] + " " + Join(ws[1..])
  }

  lemma {:induction false} JoinSnoc(ws: seq<string>, w: string)
    requires ws != []
    ensures Join(ws + [w]) == Join(ws) + " " + w
    decreases |ws|
  {
    if |ws| == 1 {
      assert (ws + [w])[1..] == [w];
    } else {
      assert (ws + [w])[1..] == ws[1..] + [w];
      JoinSnoc(ws[1..], w);
    }
  }

  /**
   * Joining a longer prefix of a word list extends the shorter join, and
   * strictly so when the words are non-empty.
   */
  lemma {:induction false} JoinPrefixGrows(ws: seq<string>, i: nat, j: nat)
    requires i <= j <= |ws| && IsWordList(ws)
    ensures StartsWith(Join(ws[..j]), Join(ws[..i]))
    ensures i < j ==> |Join(ws[..i])| < |Join(ws[..j])|
    decreases j - i
  {
    if i < j {
      JoinPrefixGrows(ws, i, j - 1);
      assert ws[..j] == ws[..j - 1] + [ws[j - 1]];
      if j - 1 == 0 {
        assert ws[..j] == [ws[0]];
      } else {
        JoinSnoc(ws[..j - 1], ws[j - 1]);
      }
      var a, b := Join(ws[..i]), Join(ws[..j - 1]);
      assert StartsWith(b, a);
      assert Join(ws[..j])[..|a|] == b[..|a|];
    }
  }

  lemma {:induction false} WordPrefixOfJoin(w: string, rest: string)
    requires |w| > 0 && NoSpace(w)
    ensures WordPrefix(w + " " + rest) == w
    decreases |w|
  {
    if |w| > 1 {
      assert (w + " " + rest)[1..] == w[1..] + " " + rest;
      WordPrefixOfJoin(w[1..], rest);
    } else {
      assert (w + " " + rest)[1..] == " " + rest;
    }
  }

  lemma {:induction false} WordPrefixOfWord(w: string)
    requires NoSpace(w)
    ensures WordPrefix(w) == w
    decreases |w|
  {
    if w != [] {
      WordPrefixOfWord(w[1..]);
    }
  }

  lemma {:induction false} SplitOfWord(w: string)
    requires |w| > 0 && NoSpace(w)
    ensures Split(w) == [w]
  {
    WordPrefixOfWord(w);
    assert w[|w|..] == [];
  }

  /** Splitting a join of words gives the words back. */
  lemma {:induction false} SplitJoin(ws: seq<string>)
    requires IsWordList(ws)
    ensures Split(Join(ws)) == ws
    decreases |ws|
  {
    if |ws| == 1 {
      SplitOfWord(ws[0]);
    } else if |ws| > 1 {
      var rest := Join(ws[1..]);
      var s := ws[0] + " " + rest;
      WordPrefixOfJoin(ws[0], rest);
      assert s[|ws[0]|..] == " " + rest;
      assert (" " + rest)[1..] == rest;
      SplitJoin(ws[1..]);
      assert ws == [ws[0]] + ws[1..];
    }
  }

  function DigitChar(d: nat): (c: char)
    requires d < 10
    ensures IsDigit(c) && c as int - '0' as int == d
  {
    ('0' as int + d) as char
  }

  /** The decimal digits of `n`, without leading zeros (Python's `str(n)`). */
  function NatToString(n: nat): (s: string)
    ensures |s| >= 1 && forall i :: 0 <= i < |s| ==> IsDigit(s[i])
    ensures n > 0 ==> s[0] != '0'
    ensures n >= 10 ==> |s| >= 2
    decreases n
  {
    if n < 10 then [DigitChar(n)] else NatToString(n / 10) + [DigitChar(n % 10)]
  }

  predicate AllDigits(s: string) {
    forall i :: 0 <= i < |s| ==> IsDigit(s[i])
  }

  /** The value of a string of decimal digits. */
  function ParseDigits(s: string): nat
    requires AllDigits(s)
  {
    if s == [] then 0 else ParseDigits(s[..|s| - 1]) * 10 + (s[|s| - 1] as int - '0' as int)
  }

  lemma {:induction false} ParseNatToString(n: nat)
    ensures ParseDigits(NatToString(n)) == n
    decreases n
  {
    var s := NatToString(n);
    if n >= 10 {
      ParseNatToString(n / 10);
      assert s[..|s| - 1] == NatToString(n / 10);
    }
  }

  lemma {:induction false} ParseLeadingZero(d: string)
    requires AllDigits(d)
    ensures AllDigits("0" + d) && ParseDigits("0" + d) == ParseDigits(d)
    decreases |d|
  {
    if d != [] {
      ParseLeadingZero(d[..|d| - 1]);
      assert ("0" + d)[..|d|] == "0" + d[..|d| - 1];
    }
  }

  /**
   * Python's `f"{n:02d}"` for a non-negative `n`: the decimal digits of `n`,
   * zero-padded on the left to at least two characters.
   */
  function ZeroPad2(n: nat): (s: string)
    ensures |s| >= 2 && AllDigits(s)
    ensures ParseDigits(s) == n
    ensures |s| > 2 ==> s[0] != '0'
    ensures n >= 10 ==> s == NatToString(n)
  {
    var d := NatToString(n);
    ParseNatToString(n);
    if |d| < 2 then (ParseLeadingZero(d); "0" + d) else d
  }
}
