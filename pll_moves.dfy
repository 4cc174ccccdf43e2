/**
  String helpers of the PLL data generator: inverting a move and a whole
  algorithm written in cube notation, and stripping the grouping
  parentheses from a formula. Splitting and stripping follow Python's
  str.split() and str.strip() with no arguments.
 */
module PllMoves {

  /** Python's str.isspace for one character: the separators split() and strip() drop. */
  predicate IsSpace(c: char)
  {
    var n := c as int;
    || (0x09 <= n <= 0x0D) || (0x1C <= n <= 0x20) || n == 0x85 || n == 0xA0 || n == 0x1680
    || (0x2000 <= n <= 0x200A) || n == 0x2028 || n == 0x2029 || n == 0x202F || n == 0x205F || n == 0x3000
  }

  /** A string with no whitespace in it. */
  predicate NoSpace(s: string)
  {
    forall k :: 0 <= k < |s| ==> !IsSpace(s[k])
  }

  // Stripping

  /** s without its leading whitespace. */
  function TrimStart(s: string): (r: string)
    ensures |r| <= |s|
  {
    if s != [] && IsSpace(s[0]) then TrimStart(s[1..]) else s
  }

  /** s without its trailing whitespace. */
  function TrimEnd(s: string): (r: string)
    ensures |r| <= |s|
  {
    if s != [] && IsSpace(s[|s| - 1]) then TrimEnd(s[..|s| - 1]) else s
  }

  /** Python's str.strip(): s without leading and trailing whitespace. */
  function Strip(s: string): (r: string)
    ensures |r| <= |s|
    ensures r == [] || (!IsSpace(r[0]) && !IsSpace(r[|r| - 1]))
  {
    var t := TrimStart(s);
    TrimStartDropsLeadingSpace(s);
    TrimEndDropsTrailingSpace(t);
    assert TrimEnd(t) == [] || TrimEnd(t)[0] == t[0];
    TrimEnd(t)
  }

  /** TrimStart drops exactly the leading run of whitespace. */
  lemma {:induction false} TrimStartDropsLeadingSpace(s: string)
    ensures |TrimStart(s)| <= |s| && TrimStart(s) == s[|s| - |TrimStart(s)|..]
    ensures TrimStart(s) == [] || !IsSpace(TrimStart(s)[0])
    ensures forall k :: 0 <= k < |s| - |TrimStart(s)| ==> IsSpace(s[k])
  {
    if s != [] && IsSpace(s[0]) {
      var rest := s[1..];
      TrimStartDropsLeadingSpace(rest);
      var t := TrimStart(rest);
      assert TrimStart(s) == t;
      var lo := |rest| - |t|;
      assert t == rest[lo..] == s[lo + 1..];
      forall k | 0 <= k < lo + 1
        ensures IsSpace(s[k])
      {
        if k > 0 {
          assert s[k] == rest[k - 1];
        }
      }
    }
  }

  /** TrimEnd drops exactly the trailing run of whitespace. */
  lemma {:induction false} TrimEndDropsTrailingSpace(s: string)
    ensures |TrimEnd(s)| <= |s| && TrimEnd(s) == s[..|TrimEnd(s)|]
    ensures TrimEnd(s) == [] || !IsSpace(TrimEnd(s)[|TrimEnd(s)| - 1])
    ensures forall k :: |TrimEnd(s)| <= k < |s| ==> IsSpace(s[k])
  {
    if s != [] && IsSpace(s[|s| - 1]) {
      TrimEndDropsTrailingSpace(s[..|s| - 1]);
    }
  }

  /**
    Strip keeps a contiguous part of s that neither starts nor ends with
    whitespace, and everything it drops is whitespace.
   */
  lemma StripDropsEdgeSpace(s: string)
    ensures var r, lo := Strip(s), |s| - |TrimStart(s)|;
      && 0 <= lo && lo + |r| <= |s| && r == s[lo..lo + |r|]
      && (r == [] || (!IsSpace(r[0]) && !IsSpace(r[|r| - 1])))
      && (forall k :: 0 <= k < lo ==> IsSpace(s[k]))
      && (forall k :: lo + |r| <= k < |s| ==> IsSpace(s[k]))
  {
    var t := TrimStart(s);
    var lo := |s| - |t|;
    var r := Strip(s);
    assert t == s[lo..] && forall k :: 0 <= k < lo ==> IsSpace(s[k]) by {
      TrimStartDropsLeadingSpace(s);
    }
    assert r == t[..|r|] && forall k :: |r| <= k < |t| ==> IsSpace(t[k]) by {
      TrimEndDropsTrailingSpace(t);
    }
    assert r == s[lo..lo + |r|];
    forall k | lo + |r| <= k < |s|
      ensures IsSpace(s[k])
    {
      assert s[k] == t[k - lo];
    }
  }

  /** A string without whitespace is its own strip. */
  lemma StripNoSpace(s: string)
    requires NoSpace(s)
    ensures Strip(s) == s
  {
    if s != [] {
      assert !IsSpace(s[0]) && !IsSpace(s[|s| - 1]);
    }
  }

  // Inverting a move

  /**
    The inverse of one move: a blank move stays blank, a half turn ("R2")
    is its own inverse, a prime is dropped ("R'" becomes "R") and any
    other move gains one ("R" becomes "R'").
   */
  function InvertMove(move: string): (r: string)
    ensures |r| <= |move| + 1
  {
    InvertStripped(Strip(move))
  }

  /** The inverse of a move that has already been stripped. */
  function InvertStripped(m: string): string
  {
    if m == "" then ""
    else if m[|m| - 1] == '2' then m
    else if m[|m| - 1] == '\'' then m[..|m| - 1]
    else m + "'"
  }

  /**
    A move that inverting twice gives back: anything but a prime that
    follows nothing, a '2' or another prime ("'", "R2'", "R''").
   */
  predicate Invertible(m: string)
  {
    !(|m| > 0 && m[|m| - 1] == '\'' && (|m| == 1 || m[|m| - 2] == '2' || m[|m| - 2] == '\''))
  }

  /** A move without whitespace is inverted as it stands. */
  lemma InvertWord(m: string)
    requires NoSpace(m)
    ensures InvertMove(m) == InvertStripped(m)
    ensures NoSpace(InvertMove(m))
  {
    StripNoSpace(m);
  }

  /** Inverting a stripped move twice gives it back exactly when it is invertible. */
  lemma InvertStrippedTwice(m: string)
    ensures InvertStripped(InvertStripped(m)) == m <==> Invertible(m)
  {
    var once := InvertStripped(m);
    if m != "" && m[|m| - 1] == '\'' {
      if |m| >= 2 && m[|m| - 2] != '2' && m[|m| - 2] != '\'' {
        assert once + "'" == m;
      }
    } else if m != "" && m[|m| - 1] != '2' {
      assert once[..|once| - 1] == m;
    }
  }

  /** For a move without whitespace, inverting twice gives it back exactly when it is invertible. */
  lemma InvertMoveTwice(m: string)
    requires NoSpace(m)
    ensures InvertMove(InvertMove(m)) == m <==> Invertible(m)
  {
    InvertWord(m);
    InvertWord(InvertMove(m));
    InvertStrippedTwice(m);
  }

  /** A plain turn, its prime and its half turn ("R", "R'", "R2") all come back after two inversions. */
  lemma InvertMoveTwiceTurns(b: string, suffix: string)
    requires b != "" && NoSpace(b) && b[|b| - 1] != '2' && b[|b| - 1] != '\''
    requires suffix == "" || suffix == "'" || suffix == "2"
    ensures InvertMove(InvertMove(b + suffix)) == b + suffix
  {
    var m := b + suffix;
    assert NoSpace(m) by {
      assert forall k :: |b| <= k < |m| ==> m[k] == suffix[k - |b|];
    }
    assert m[|m| - 1] == '\'' ==> m[|m| - 2] == b[|b| - 1];
    InvertMoveTwice(m);
  }

  /** Inverting a word other than a lone prime gives a non-empty word. */
  lemma InvertMoveWord(t: string)
    requires t != "" && NoSpace(t) && t != "'"
    ensures InvertMove(t) != "" && NoSpace(InvertMove(t))
    ensures Invertible(t) ==> InvertMove(t) != "'"
  {
    InvertWord(t);
  }

  // Splitting and joining

  /** The length of the run of non-whitespace characters s starts with. */
  function WordLength(s: string): (n: nat)
    ensures n <= |s|
    ensures forall k :: 0 <= k < n ==> !IsSpace(s[k])
    ensures n == |s| || IsSpace(s[n])
  {
    if s == [] || IsSpace(s[0]) then 0 else 1 + WordLength(s[1..])
  }

  /** Python's str.split() with no separator: the maximal runs of non-whitespace characters. */
  function Split(s: string): (tokens: seq<string>)
    ensures Words(tokens)
    decreases |s|
  {
    if s == [] then []
    else if IsSpace(s[0]) then Split(s[1..])
    else
      var n := WordLength(s);
      [s[..n]] + Split(s[n..])
  }

  /** Python's ' '.join: the tokens with one space between neighbours. */
  function Join(tokens: seq<string>): (r: string)
    ensures Words(tokens) ==> (r == "" <==> |tokens| == 0)
  {
    if |tokens| == 0 then ""
    else if |tokens| == 1 then tokens[0]
    else tokens[0] + " " + Join(tokens[1..])
  }

  /** Tokens that split() could produce: non-empty and without whitespace. */
  predicate Words(tokens: seq<string>)
  {
    forall k :: 0 <= k < |tokens| ==> tokens[k] != "" && NoSpace(tokens[k])
  }

  /** A word followed by nothing or by whitespace splits off as the first token. */
  lemma SplitWord(t: string, rest: string)
    requires t != "" && NoSpace(t) && (rest == "" || IsSpace(rest[0]))
    ensures Split(t + rest) == [t] + Split(rest)
  {
    var s := t + rest;
    var n := WordLength(s);
    assert forall k :: 0 <= k < |t| ==> s[k] == t[k];
    assert s[|t|..] == rest;
    assert n == |t|;
    assert s[..n] == t && s[n..] == rest;
  }

  /** Splitting words joined by single spaces gives back the words. */
  lemma {:induction false} SplitJoin(tokens: seq<string>)
    requires Words(tokens)
    ensures Split(Join(tokens)) == tokens
  {
    if |tokens| == 1 {
      SplitWord(tokens[0], "");
      assert tokens[0] + "" == tokens[0];
    } else if |tokens| > 1 {
      var rest := " " + Join(tokens[1..]);
      assert Join(tokens) == tokens[0] + rest;
      SplitWord(tokens[0], rest);
      assert Split(rest) == Split(Join(tokens[1..]));
      SplitJoin(tokens[1..]);
    }
  }

  // Inverting an algorithm

  /** The tokens that are not empty, in order. */
  function DropEmpty(tokens: seq<string>): (r: seq<string>)
    ensures forall t :: t in r ==> t in tokens && t != ""
  {
    if |tokens| == 0 then []
    else (if tokens[0] == "" then [] else [tokens[0]]) + DropEmpty(tokens[1..])
  }

  /** Filtering out empty tokens changes nothing when there are none. */
  lemma {:induction false} DropEmptyOfWords(tokens: seq<string>)
    requires forall k :: 0 <= k < |tokens| ==> tokens[k] != ""
    ensures DropEmpty(tokens) == tokens
  {
    if |tokens| > 0 {
      DropEmptyOfWords(tokens[1..]);
    }
  }

  /** The tokens in reverse order, each inverted. */
  function InvertReversed(tokens: seq<string>): (r: seq<string>)
    ensures |r| == |tokens|
  {
    seq(|tokens|, i requires 0 <= i < |tokens| => InvertMove(tokens[|tokens| - 1 - i]))
  }

  /** The inverse of an algorithm: its moves in reverse order, each inverted. */
  function InvertAlgorithm(alg: string): string
  {
    Join(InvertReversed(DropEmpty(Split(alg))))
  }

  /** Reversing and inverting words other than a lone prime gives words. */
  lemma InvertReversedWords(tokens: seq<string>)
    requires Words(tokens)
    requires forall k :: 0 <= k < |tokens| ==> tokens[k] != "'"
    ensures Words(InvertReversed(tokens))
  {
    var inverted := InvertReversed(tokens);
    forall k | 0 <= k < |inverted|
      ensures inverted[k] != "" && NoSpace(inverted[k])
    {
      InvertMoveWord(tokens[|tokens| - 1 - k]);
    }
  }

  /** Reversing and inverting invertible words twice gives them back. */
  lemma InvertReversedTwice(tokens: seq<string>)
    requires Words(tokens)
    requires forall k :: 0 <= k < |tokens| ==> Invertible(tokens[k])
    ensures InvertReversed(InvertReversed(tokens)) == tokens
  {
    var once := InvertReversed(tokens);
    var twice := InvertReversed(once);
    forall k | 0 <= k < |tokens|
      ensures twice[k] == tokens[k]
    {
      var j := |tokens| - 1 - k;
      assert once[j] == InvertMove(tokens[k]);
      InvertMoveTwice(tokens[k]);
    }
  }

  /**
    When no move is a lone prime, the output's tokens are the input's
    tokens reversed and inverted: output token i inverts input token n-1-i.
   */
  lemma InvertAlgorithmTokens(alg: string)
    requires forall t :: t in Split(alg) ==> t != "'"
    ensures Split(InvertAlgorithm(alg)) == InvertReversed(Split(alg))
  {
    var tokens := Split(alg);
    DropEmptyOfWords(tokens);
    forall k | 0 <= k < |tokens|
      ensures tokens[k] != "'"
    {
      assert tokens[k] in tokens;
    }
    InvertReversedWords(tokens);
    SplitJoin(InvertReversed(tokens));
  }

  /**
    Inverting an algorithm of invertible moves twice gives back its moves
    joined by single spaces.
   */
  lemma InvertAlgorithmTwice(alg: string)
    requires forall t :: t in Split(alg) ==> Invertible(t)
    ensures InvertAlgorithm(InvertAlgorithm(alg)) == Join(Split(alg))
  {
    var tokens := Split(alg);
    forall k | 0 <= k < |tokens|
      ensures tokens[k] != "'" && Invertible(tokens[k])
    {
      assert tokens[k] in tokens;
    }
    InvertAlgorithmTokens(alg);
    var once := InvertReversed(tokens);
    InvertReversedWords(tokens);
    DropEmptyOfWords(once);
    InvertReversedTwice(tokens);
  }

  // Removing parentheses

  /** Python's s.replace(c, ''): s with every c removed. */
  function RemoveChar(s: string, c: char): (r: string)
    ensures c !in r
    ensures forall x :: x in r ==> x in s
  {
    if s == [] then []
    else (if s[0] == c then [] else [s[0]]) + RemoveChar(s[1..], c)
  }

  /** The formula with its grouping parentheses removed. */
  function SanitizeFormula(raw: string): (r: string)
    ensures '(' !in r && ')' !in r
    ensures forall x :: x in r ==> x in raw
  {
    RemoveChar(RemoveChar(raw, '('), ')')
  }

  /** The characters of s other than parentheses, in order. */
  function KeepNonParen(s: string): string
  {
    if s == [] then []
    else (if s[0] == '(' || s[0] == ')' then [] else [s[0]]) + KeepNonParen(s[1..])
  }

  /** Sanitizing removes every parenthesis and keeps every other character, in order. */
  lemma {:induction false} SanitizeKeepsOthers(raw: string)
    ensures SanitizeFormula(raw) == KeepNonParen(raw)
    ensures '(' !in SanitizeFormula(raw) && ')' !in SanitizeFormula(raw)
  {
    if raw != [] {
      SanitizeKeepsOthers(raw[1..]);
      assert RemoveChar(raw, '(') == (if raw[0] == '(' then [] else [raw[0]]) + RemoveChar(raw[1..], '(');
      var once := RemoveChar(raw[1..], '(');
      if raw[0] != '(' {
        var r1 := [raw[0]] + once;
        assert RemoveChar(raw, '(') == r1;
        assert r1[0] == raw[0] && r1[1..] == once;
        assert RemoveChar(r1, ')') == (if raw[0] == ')' then [] else [raw[0]]) + RemoveChar(once, ')');
      } else {
        assert RemoveChar(raw, '(') == once;
        assert KeepNonParen(raw) == KeepNonParen(raw[1..]);
      }
    }
  }

  /** Removing a character that does not occur changes nothing. */
  lemma {:induction false} RemoveAbsent(s: string, c: char)
    requires c !in s
    ensures RemoveChar(s, c) == s
  {
    if s != [] {
      RemoveAbsent(s[1..], c);
      assert [s[0]] + s[1..] == s;
    }
  }

  /** Sanitizing a sanitized formula changes nothing. */
  lemma SanitizeIdempotent(raw: string)
    ensures SanitizeFormula(SanitizeFormula(raw)) == SanitizeFormula(raw)
  {
    var clean := SanitizeFormula(raw);
    SanitizeKeepsOthers(raw);
    RemoveAbsent(clean, '(');
    RemoveAbsent(clean, ')');
  }
}
