/** The two string helpers of the lexer: `trim` and `split` on the line separator. */
module Text {

  /** The characters `trim` removes: space, tab, newline, carriage return, vertical tab, form feed. */
  predicate IsWhitespace(c: char)
  {
    c == ' ' || c == '\t' || c == '\n' || c == '\r' || c == '\U{000B}' || c == '\U{000C}'
  }

  predicate AllWhitespace(s: string)
  {
    forall k :: 0 <= k < |s| ==> IsWhitespace(s[k])
  }

  /** `find_first_not_of`: the index of the first non-whitespace character at or after `i`, or |s|. */
  function FirstNonWhitespace(s: string, i: nat): (k: nat)
    requires i <= |s|
    ensures i <= k <= |s|
    decreases |s| - i
  {
    if i == |s| || !IsWhitespace(s[i]) then i else FirstNonWhitespace(s, i + 1)
  }

  /** `find_last_not_of` plus one: the end of the text before trailing whitespace, searching below `n`. */
  function EndOfNonWhitespace(s: string, n: nat): (k: nat)
    requires n <= |s|
    ensures k <= n
  {
    if n == 0 || !IsWhitespace(s[n - 1]) then n else EndOfNonWhitespace(s, n - 1)
  }

  lemma {:induction false} FirstNonWhitespaceSpec(s: string, i: nat)
    requires i <= |s|
    ensures var k := FirstNonWhitespace(s, i);
      i <= k <= |s| && (forall j :: i <= j < k ==> IsWhitespace(s[j])) && (k < |s| ==> !IsWhitespace(s[k]))
    decreases |s| - i
  {
    if i < |s| && IsWhitespace(s[i]) {
      FirstNonWhitespaceSpec(s, i + 1);
    }
  }

  lemma {:induction false} EndOfNonWhitespaceSpec(s: string, n: nat)
    requires n <= |s|
    ensures var k := EndOfNonWhitespace(s, n);
      k <= n && (forall j :: k <= j < n ==> IsWhitespace(s[j])) && (k > 0 ==> !IsWhitespace(s[k - 1]))
  {
    if n > 0 && IsWhitespace(s[n - 1]) {
      EndOfNonWhitespaceSpec(s, n - 1);
    }
  }

  /**
   * `trim`: the text between the first and the last non-whitespace character,
   * or "" when the string is empty or all whitespace.
   */
  function Trim(s: string): string
  {
    var first := FirstNonWhitespace(s, 0);
    if first == |s| then ""
    else
      var last := EndOfNonWhitespace(s, |s|);
      if first < last then s[first..last] else ""
  }

  /**
   * What `trim` returns: "" exactly for empty or all-whitespace text; otherwise the
   * contiguous slice of the input that starts and ends with non-whitespace and leaves
   * only whitespace around it.
   */
  lemma TrimSpec(s: string)
    ensures var r := Trim(s);
      (r == [] <==> AllWhitespace(s)) &&
      (r != [] ==> !IsWhitespace(r[0]) && !IsWhitespace(r[|r| - 1])) &&
      exists i :: 0 <= i && i + |r| <= |s| && r == s[i..i + |r|] && AllWhitespace(s[..i]) && AllWhitespace(s[i + |r|..])
  {
    var first := FirstNonWhitespace(s, 0);
    FirstNonWhitespaceSpec(s, 0);
    EndOfNonWhitespaceSpec(s, |s|);
    var last := EndOfNonWhitespace(s, |s|);
    var r := Trim(s);
    if first == |s| {
      assert AllWhitespace(s[..0]) && AllWhitespace(s[0..]);
      assert r == s[0..0];
    } else {
      assert first < last by {
        if last <= first { assert false; }
      }
      assert r == s[first..last];
      assert !AllWhitespace(s) by { assert !IsWhitespace(s[first]); }
      assert AllWhitespace(s[..first]) by {
        forall k | 0 <= k < first ensures IsWhitespace(s[..first][k]) { assert s[..first][k] == s[k]; }
      }
      assert AllWhitespace(s[last..]) by {
        forall k | 0 <= k < |s| - last ensures IsWhitespace(s[last..][k]) { assert s[last..][k] == s[last + k]; }
      }
      assert first + |r| == last;
    }
  }

  /** Trimming twice is trimming once. */
  lemma TrimIdempotent(s: string)
    ensures Trim(Trim(s)) == Trim(s)
  {
    TrimSpec(s);
    TrimUnpadded(Trim(s));
  }

  /** Text with no whitespace at either end is its own trim. */
  lemma TrimUnpadded(s: string)
    requires s != [] ==> !IsWhitespace(s[0]) && !IsWhitespace(s[|s| - 1])
    ensures Trim(s) == s
  {
    if s != [] {
      assert FirstNonWhitespace(s, 0) == 0;
      assert EndOfNonWhitespace(s, |s|) == |s|;
      assert s[0..|s|] == s;
    }
  }

  /** All the pieces between '\n' separators, including an empty last piece after a final '\n'. */
  function SplitAll(s: string): (r: seq<string>)
    ensures |r| >= 1
    ensures forall k :: 0 <= k < |r| ==> '\n' !in r[k]
  {
    if s == [] then [""]
    else
      var rest := SplitAll(s[1..]);
      if s[0] == '\n' then [""] + rest
      else [[s[0]] + rest[0]] + rest[1..]
  }

  /** The pieces glued back together with '\n' between neighbours. */
  function JoinLines(ps: seq<string>): string
    requires |ps| >= 1
  {
    if |ps| == 1 then ps[0] else ps[0] + "\n" + JoinLines(ps[1..])
  }

  /** Gluing the pieces of `SplitAll` gives back the original text. */
  lemma {:induction false} JoinSplitAll(s: string)
    ensures JoinLines(SplitAll(s)) == s
  {
    if s != [] {
      JoinSplitAll(s[1..]);
      var rest := SplitAll(s[1..]);
      if s[0] != '\n' {
        var r := SplitAll(s);
        assert r[1..] == rest[1..];
        if |rest| > 1 {
          assert JoinLines(r) == [s[0]] + rest[0] + "\n" + JoinLines(rest[1..]);
        }
      }
    }
  }

  /** Splitting glued pieces that hold no '\n' gives back the pieces. */
  lemma {:induction false} SplitAllJoin(ps: seq<string>)
    requires |ps| >= 1
    requires forall k :: 0 <= k < |ps| ==> '\n' !in ps[k]
    ensures SplitAll(JoinLines(ps)) == ps
    decreases |ps|, |ps[0]|
  {
    if |ps[0]| > 0 {
      var ps' := [ps[0][1..]] + ps[1..];
      SplitAllJoin(ps');
      assert JoinLines(ps)[1..] == JoinLines(ps') by {
        if |ps| > 1 {
          assert JoinLines(ps') == ps[0][1..] + "\n" + JoinLines(ps'[1..]);
          assert ps'[1..] == ps[1..];
        }
      }
      assert JoinLines(ps)[0] == ps[0][0];
      assert ps[0] == [ps[0][0]] + ps[0][1..];
    } else if |ps| > 1 {
      SplitAllJoin(ps[1..]);
      assert JoinLines(ps)[1..] == JoinLines(ps[1..]);
    }
  }

  predicate EndsWithNewline(s: string)
  {
    |s| > 0 && s[|s| - 1] == '\n'
  }

  /**
   * `split(s, "\n")` as a token iterator over the separator produces it: the pieces in
   * order, except that the empty piece after a final separator is not produced.
   */
  function Split(s: string): (r: seq<string>)
    ensures |r| >= 1
    ensures forall k :: 0 <= k < |r| ==> '\n' !in r[k]
  {
    var ps := SplitAll(s);
    if |ps| > 1 && ps[|ps| - 1] == "" then ps[..|ps| - 1] else ps
  }

  /** The last piece of `SplitAll` is empty exactly when there are several and the text ends in '\n'. */
  lemma {:induction false} SplitAllLastEmpty(s: string)
    ensures var ps := SplitAll(s);
      (|ps| > 1 && ps[|ps| - 1] == "") <==> EndsWithNewline(s)
  {
    if s != [] {
      SplitAllLastEmpty(s[1..]);
      var rest := SplitAll(s[1..]);
      if |s| == 1 {
        assert s[1..] == [];
      } else {
        assert s[1..][|s[1..]| - 1] == s[|s| - 1];
      }
    }
  }

  /** The lines of `Split` glued with '\n' give back the text, less one final '\n'. */
  lemma SplitRoundTrip(s: string)
    ensures EndsWithNewline(s) ==> JoinLines(Split(s)) + "\n" == s
    ensures !EndsWithNewline(s) ==> JoinLines(Split(s)) == s
  {
    JoinSplitAll(s);
    SplitAllLastEmpty(s);
    var ps := SplitAll(s);
    if |ps| > 1 && ps[|ps| - 1] == "" {
      JoinDropLastEmpty(ps);
    }
  }

  lemma {:induction false} JoinDropLastEmpty(ps: seq<string>)
    requires |ps| > 1 && ps[|ps| - 1] == ""
    ensures JoinLines(ps) == JoinLines(ps[..|ps| - 1]) + "\n"
  {
    if |ps| > 2 {
      JoinDropLastEmpty(ps[1..]);
      assert ps[1..][..|ps| - 2] == ps[..|ps| - 1][1..];
    }
  }

  /** Decimal rendering of an integer, as `std::to_string` writes it. */
  function IntToString(i: int): string
  {
    if i < 0 then "-" + NatToString(-i) else NatToString(i)
  }

  function NatToString(n: nat): string
  {
    if n < 10 then [DigitChar(n)] else NatToString(n / 10) + [DigitChar(n % 10)]
  }

  function DigitChar(d: nat): char
    requires d < 10
  {
    ['0', '1', '2', '3', '4', '5', '6', '7', '8', '9'][d]
  }
}
