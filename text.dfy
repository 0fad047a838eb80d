/** The string primitives the canvas relies on: `toLowerCase`, `toUpperCase`,
    `trim`, `includes`, `split(/\s+/)` and number-to-decimal formatting.
    Case mapping is modelled on ASCII letters only. */
module Text {
  import Seqs

  /** The characters ECMAScript counts as WhiteSpace or LineTerminator: the set
      `trim` strips and the regular-expression class `\s` matches. */
  predicate IsSpace(c: char)
  {
    || c == '\t' || c == '\n' || c == '\U{000B}' || c == '\U{000C}' || c == '\r' || c == ' '
    || c == '\U{00A0}' || c == '\U{1680}' || ('\U{2000}' <= c <= '\U{200A}')
    || c == '\U{2028}' || c == '\U{2029}' || c == '\U{202F}' || c == '\U{205F}'
    || c == '\U{3000}' || c == '\U{FEFF}'
  }

  function LowerChar(c: char): (r: char)
    ensures 'A' <= c <= 'Z' ==> 'a' <= r <= 'z'
    ensures !('A' <= c <= 'Z') ==> r == c
  {
    if 'A' <= c <= 'Z' then (c as int + 32) as char else c
  }

  function UpperChar(c: char): (r: char)
    ensures 'a' <= c <= 'z' ==> 'A' <= r <= 'Z'
    ensures !('a' <= c <= 'z') ==> r == c
  {
    if 'a' <= c <= 'z' then (c as int - 32) as char else c
  }

  function ToLower(s: string): (r: string)
    ensures |r| == |s|
    ensures forall i :: 0 <= i < |s| ==> r[i] == LowerChar(s[i])
  {
    seq(|s|, i requires 0 <= i < |s| => LowerChar(s[i]))
  }

  lemma ToLowerIdempotent(s: string)
    ensures ToLower(ToLower(s)) == ToLower(s)
  {
  }

  /** No upper-case ASCII letter left. */
  predicate IsLower(s: string)
  {
    forall i :: 0 <= i < |s| ==> !('A' <= s[i] <= 'Z')
  }

  function TrimStart(s: string): (r: string)
    ensures r == [] || !IsSpace(r[0])
    ensures r <= s || (|r| <= |s| && r == s[|s| - |r|..])
    ensures forall i :: 0 <= i < |s| - |r| ==> IsSpace(s[i])
  {
    if s == [] then []
    else if IsSpace(s[0]) then TrimStart(s[1..])
    else s
  }

  function TrimEnd(s: string): (r: string)
    ensures r == [] || !IsSpace(r[|r| - 1])
    ensures r <= s
    ensures forall i :: |r| <= i < |s| ==> IsSpace(s[i])
  {
    if s == [] then []
    else if IsSpace(s[|s| - 1]) then TrimEnd(s[..|s| - 1])
    else s
  }

  /** `s.trim()`: `s` without leading and trailing white space. */
  function Trim(s: string): (r: string)
    ensures |r| <= |s|
    ensures r == [] || (!IsSpace(r[0]) && !IsSpace(r[|r| - 1]))
  {
    TrimEndKeepsStart(TrimStart(s));
    TrimEnd(TrimStart(s))
  }

  /** `trim` leaves a contiguous piece of `s` with no white space at either end,
      and everything it cut off is white space. */
  lemma TrimProperties(s: string)
    ensures Trim(s) == [] || (!IsSpace(Trim(s)[0]) && !IsSpace(Trim(s)[|Trim(s)| - 1]))
    ensures exists k :: 0 <= k <= |s| && Trim(s) <= s[k..]
              && (forall i :: 0 <= i < k ==> IsSpace(s[i]))
              && (forall i :: k + |Trim(s)| <= i < |s| ==> IsSpace(s[i]))
    ensures Trim(s) == [] <==> forall i :: 0 <= i < |s| ==> IsSpace(s[i])
  {
    var a := TrimStart(s);
    var k := |s| - |a|;
    assert a == s[k..];
    var r := TrimEnd(a);
    assert s[k..k + |r|] == r;
    forall i | k + |r| <= i < |s| ensures IsSpace(s[i]) {
      assert s[i] == a[i - k];
    }
    if r == [] {
      assert a == [];
    } else {
      assert a[0] == r[0];
    }
  }

  lemma {:induction false} TrimStartOfTrimmed(s: string)
    requires s == [] || !IsSpace(s[0])
    ensures TrimStart(s) == s
  {
  }

  lemma {:induction false} TrimEndKeepsStart(s: string)
    requires s == [] || !IsSpace(s[0])
    ensures TrimEnd(s) == [] || !IsSpace(TrimEnd(s)[0])
  {
    if s != [] && IsSpace(s[|s| - 1]) {
      TrimEndKeepsStart(s[..|s| - 1]);
    }
  }

  /** Trimming twice is trimming once. */
  lemma {:induction false} TrimIdempotent(s: string)
    ensures Trim(Trim(s)) == Trim(s)
  {
    var a := TrimStart(s);
    var r := TrimEnd(a);
    TrimEndKeepsStart(a);
    TrimStartOfTrimmed(r);
  }

  lemma TrimOfLower(s: string)
    ensures ToLower(Trim(s)) == Trim(ToLower(s))
  {
    TrimOfLowerStart(s);
    TrimOfLowerEnd(TrimStart(s));
  }

  lemma {:induction false} TrimOfLowerStart(s: string)
    ensures ToLower(TrimStart(s)) == TrimStart(ToLower(s))
  {
    if s != [] {
      assert ToLower(s)[1..] == ToLower(s[1..]);
      if IsSpace(s[0]) {
        TrimOfLowerStart(s[1..]);
      }
    }
  }

  lemma {:induction false} TrimOfLowerEnd(s: string)
    ensures ToLower(TrimEnd(s)) == TrimEnd(ToLower(s))
  {
    if s != [] {
      assert ToLower(s)[..|s| - 1] == ToLower(s[..|s| - 1]);
      if IsSpace(s[|s| - 1]) {
        TrimOfLowerEnd(s[..|s| - 1]);
      }
    }
  }

  /** `s.includes(q)`: `q` occurs in `s` as a contiguous piece. */
  function Contains(s: string, q: string): (r: bool)
    ensures r <==> exists i :: 0 <= i <= |s| && q <= s[i..]
    decreases |s|
  {
    if q <= s then
      assert s[0..] == s;
      true
    else if s == [] then
      false
    else
      var r := Contains(s[1..], q);
      assert forall i :: 1 <= i <= |s| ==> s[i..] == s[1..][i - 1..];
      assert s[0..] == s;
      r
  }

  lemma ContainsEmpty(s: string)
    ensures Contains(s, [])
  {
  }

  /** The longest prefix of `s` with no white space. */
  function WordPrefix(s: string): (r: string)
    ensures r <= s
    ensures forall i :: 0 <= i < |r| ==> !IsSpace(r[i])
    ensures |r| == |s| || IsSpace(s[|r|])
  {
    if s == [] || IsSpace(s[0]) then [] else [s[0]] + WordPrefix(s[1..])
  }

  /** Index `i` begins a word: a non-space character at the start of `s` or
      right after white space. */
  predicate IsWordStart(s: string, i: int)
    requires 0 <= i < |s|
  {
    !IsSpace(s[i]) && (i == 0 || IsSpace(s[i - 1]))
  }

  /** The number of word starts among the first `n` characters of `s`. */
  function WordStarts(s: string, n: nat): nat
    requires n <= |s|
  {
    if n == 0 then 0 else WordStarts(s, n - 1) + (if IsWordStart(s, n - 1) then 1 else 0)
  }

  /** `s.split(/\s+/).filter(Boolean)`: the maximal runs of non-white-space characters. */
  function Tokens(s: string): (r: seq<string>)
    ensures forall t :: t in r ==> t != [] && forall i :: 0 <= i < |t| ==> !IsSpace(t[i])
    decreases |s|
  {
    if s == [] then []
    else if IsSpace(s[0]) then Tokens(s[1..])
    else
      var w := WordPrefix(s);
      [w] + Tokens(s[|w|..])
  }

  /** There is one token per word start, so no run of non-space characters
      is ever split in two: the tokens are the maximal runs. */
  lemma {:induction false} TokensAreMaximalRuns(s: string)
    ensures |Tokens(s)| == WordStarts(s, |s|)
    decreases |s|
  {
    if s == [] {
    } else if IsSpace(s[0]) {
      TokensAreMaximalRuns(s[1..]);
      SpaceStep(s);
    } else {
      var w := WordPrefix(s);
      TokensAreMaximalRuns(s[|w|..]);
      WordStep(s);
    }
  }

  lemma {:induction false} SpaceStep(s: string)
    requires s != [] && IsSpace(s[0])
    ensures Tokens(s) == Tokens(s[1..])
    ensures WordStarts(s, |s|) == WordStarts(s[1..], |s| - 1)
  {
    WordStartsSplit(s, 1, |s| - 1);
  }

  lemma {:induction false} WordStep(s: string)
    requires s != [] && !IsSpace(s[0])
    ensures 0 < |WordPrefix(s)|
    ensures Tokens(s) == [WordPrefix(s)] + Tokens(s[|WordPrefix(s)|..])
    ensures WordStarts(s, |s|) == 1 + WordStarts(s[|WordPrefix(s)|..], |s| - |WordPrefix(s)|)
  {
    var w := WordPrefix(s);
    var k := |w|;
    assert forall i :: 0 <= i < k ==> s[i] == w[i];
    WordStartsOfWord(s, k);
    WordStartsSplit(s, k, |s| - k);
  }

  /** A word prefix of length `k` holds exactly one word start. */
  lemma {:induction false} WordStartsOfWord(s: string, k: nat)
    requires 0 < k <= |s|
    requires forall i :: 0 <= i < k ==> !IsSpace(s[i])
    ensures WordStarts(s, k) == 1
  {
    if k > 1 {
      WordStartsOfWord(s, k - 1);
    }
  }

  /** Counting word starts across a cut at `j`, where the character at `j`
      starts a word of `s` exactly when it starts one of `s[j..]`. */
  lemma {:induction false} WordStartsSplit(s: string, j: nat, m: nat)
    requires 0 < j <= |s| && j + m <= |s|
    requires j == |s| || IsSpace(s[j - 1]) || IsSpace(s[j])
    ensures WordStarts(s, j + m) == WordStarts(s, j) + WordStarts(s[j..], m)
  {
    if m > 0 {
      WordStartsSplit(s, j, m - 1);
      var i := j + m - 1;
      assert s[j..][m - 1] == s[i];
      if m > 1 {
        assert s[j..][m - 2] == s[i - 1];
      }
      assert IsWordStart(s, i) == IsWordStart(s[j..], m - 1);
    }
  }

  function Concat(ts: seq<string>): string
  {
    if ts == [] then [] else ts[0] + Concat(ts[1..])
  }

  function NotSpace(c: char): bool { !IsSpace(c) }

  /** Gluing the tokens back together gives `s` with its white space removed,
      so no character other than white space is lost or invented. */
  lemma {:induction false} TokensCoverText(s: string)
    ensures Concat(Tokens(s)) == Seqs.Filter(s, NotSpace)
    decreases |s|
  {
    if s != [] {
      if IsSpace(s[0]) {
        TokensCoverText(s[1..]);
      } else {
        var w := WordPrefix(s);
        TokensCoverText(s[|w|..]);
        assert s == w + s[|w|..];
        Seqs.FilterConcat(w, s[|w|..], NotSpace);
        FilterOfWord(w);
        assert Tokens(s) == [w] + Tokens(s[|w|..]);
      }
    }
  }

  lemma {:induction false} FilterOfWord(w: string)
    requires forall i :: 0 <= i < |w| ==> !IsSpace(w[i])
    ensures Seqs.Filter(w, NotSpace) == w
  {
    if w != [] {
      FilterOfWord(w[1..]);
    }
  }

  function DigitChar(d: nat): (c: char)
    requires d < 10
    ensures '0' <= c <= '9'
  {
    ('0' as int + d) as char
  }

  /** The number a string of decimal digits denotes. */
  function DigitsValue(r: string): int
  {
    if r == [] then 0 else 10 * DigitsValue(r[..|r| - 1]) + (r[|r| - 1] as int - '0' as int)
  }

  /** The decimal notation of `n`, as template literals print a non-negative integer. */
  function NatToString(n: nat): (r: string)
    ensures DigitsValue(r) == n
    ensures r != []
    ensures forall i :: 0 <= i < |r| ==> '0' <= r[i] <= '9'
    ensures n >= 10 ==> r[0] != '0'
    ensures (n < 10) == (|r| == 1)
  {
    if n < 10 then
      assert [DigitChar(n)][..0] == [];
      [DigitChar(n)]
    else
      var high := NatToString(n / 10);
      assert (high + [DigitChar(n % 10)])[..|high|] == high;
      high + [DigitChar(n % 10)]
  }
}
