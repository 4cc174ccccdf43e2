/**
  Renaming the stickers of a PLL side pattern by order of first appearance:
  the first colour seen becomes 'A', the next new colour 'B', and so on, so
  that two patterns that differ only by a renaming of colours get the same
  normal form.
 */
module PllNormalize {

  /** Codes run from 'A' upwards and must stay below the surrogate block of char. */
  const MaxLength: nat := 0xD800 - 0x41

  /** The n-th code: 'A' + n. */
  function Code(n: nat): (c: char)
    requires n < MaxLength
    ensures c as int == 'A' as int + n
  {
    (0x41 + n) as char
  }

  /** The index of the first occurrence of c in p. */
  function IndexOf(p: string, c: char): (r: nat)
    requires c in p
    ensures r < |p| && p[r] == c
    ensures forall m :: 0 <= m < r ==> p[m] != c
  {
    if p[0] == c then 0 else 1 + IndexOf(p[1..], c)
  }

  /** Position k holds the first occurrence of its symbol. */
  predicate IsNew(p: string, k: nat)
    requires k < |p|
  {
    IndexOf(p, p[k]) == k
  }

  /** How many of the positions before k hold a first occurrence: the codes handed out so far. */
  function NewCount(p: string, k: nat): (r: nat)
    requires k <= |p|
    ensures r <= k
  {
    if k == 0 then 0 else NewCount(p, k - 1) + (if IsNew(p, k - 1) then 1 else 0)
  }

  /** The code of symbol c: the number of first occurrences before its own. */
  function CodeOf(p: string, c: char): char
    requires |p| <= MaxLength && c in p
  {
    Code(NewCount(p, IndexOf(p, c)))
  }

  /** Each symbol is written as the code of its first occurrence. */
  function Normalized(p: string): (r: string)
    requires |p| <= MaxLength
  {
    seq(|p|, i requires 0 <= i < |p| => CodeOf(p, p[i]))
  }

  /**
    Walks the pattern once, handing the next code to every symbol not seen
    before and writing each symbol as the code it was handed.
   */
  method Normalize(pattern: string) returns (result: string)
    requires |pattern| <= MaxLength
    ensures result == Normalized(pattern)
  {
    var mapping: map<char, char> := map[];
    var nextCode: nat := 'A' as nat;
    var normalized: string := [];
    for i := 0 to |pattern|
      invariant nextCode == 'A' as int + NewCount(pattern, i)
      invariant Handed(pattern, i, mapping)
      invariant |normalized| == i
      invariant forall k {:trigger normalized[k]} :: 0 <= k < i ==> normalized[k] == CodeOf(pattern, pattern[k])
    {
      var ch := pattern[i];
      if ch !in mapping {
        HandOut(pattern, i, mapping);
        mapping := mapping[ch := Code(nextCode - 'A' as nat)];
        nextCode := nextCode + 1;
      } else {
        Reuse(pattern, i, mapping);
      }
      normalized := normalized + [mapping[ch]];
    }
    result := normalized;
  }

  /**
    After i steps the mapping holds exactly the symbols seen so far, each
    with the code of its first occurrence.
   */
  ghost predicate Handed(p: string, i: nat, mapping: map<char, char>)
    requires i <= |p| <= MaxLength
  {
    && (forall c {:trigger mapping[c]} :: c in mapping ==> c in p && IndexOf(p, c) < i && mapping[c] == CodeOf(p, c))
    && (forall k {:trigger p[k] in mapping} :: 0 <= k < i ==> p[k] in mapping)
  }

  /** A symbol missing from the mapping is seen for the first time and gets the next code. */
  lemma HandOut(p: string, i: nat, mapping: map<char, char>)
    requires i < |p| <= MaxLength && Handed(p, i, mapping) && p[i] !in mapping
    ensures NewCount(p, i + 1) == NewCount(p, i) + 1
    ensures CodeOf(p, p[i]) == Code(NewCount(p, i))
    ensures Handed(p, i + 1, mapping[p[i] := Code(NewCount(p, i))])
  {
    assert IsNew(p, i);
  }

  /** A symbol already in the mapping keeps its code, and no new code is handed out. */
  lemma Reuse(p: string, i: nat, mapping: map<char, char>)
    requires i < |p| <= MaxLength && Handed(p, i, mapping) && p[i] in mapping
    ensures NewCount(p, i + 1) == NewCount(p, i)
    ensures mapping[p[i]] == CodeOf(p, p[i])
    ensures Handed(p, i + 1, mapping)
  {
    assert !IsNew(p, i) by {
      assert IndexOf(p, p[i]) < i;
    }
  }

  /** Position i holds a first occurrence exactly when its symbol does not appear before i. */
  lemma FirstSeen(p: string, i: nat)
    requires i < |p|
    ensures IsNew(p, i) <==> p[i] !in p[..i]
  {
    var m := IndexOf(p, p[i]);
    if m < i {
      assert p[..i][m] == p[i];
    }
  }

  // Properties of the normal form

  /** Counting first occurrences never goes down. */
  lemma {:induction false} NewCountMonotone(p: string, a: nat, b: nat)
    requires a <= b <= |p|
    ensures NewCount(p, a) <= NewCount(p, b)
    decreases b - a
  {
    if a < b {
      NewCountMonotone(p, a, b - 1);
    }
  }

  /** A later first occurrence gets a larger code. */
  lemma NewCountStrict(p: string, a: nat, b: nat)
    requires a < b <= |p| && IsNew(p, a)
    ensures NewCount(p, a) < NewCount(p, b)
  {
    NewCountMonotone(p, a + 1, b);
  }

  /** The normal form has the pattern's length, and two positions agree in it exactly when they agree in the pattern. */
  lemma SameSymbols(p: string, i: nat, j: nat)
    requires |p| <= MaxLength && i < |p| && j < |p|
    ensures |Normalized(p)| == |p|
    ensures Normalized(p)[i] == Normalized(p)[j] <==> p[i] == p[j]
  {
    var a, b := IndexOf(p, p[i]), IndexOf(p, p[j]);
    if p[i] != p[j] {
      assert a != b;
      assert IsNew(p, a) && IsNew(p, b);
      if a < b {
        NewCountStrict(p, a, b);
      } else {
        NewCountStrict(p, b, a);
      }
    }
  }

  /** The normal form of a non-empty pattern starts with 'A'. */
  lemma StartsWithA(p: string)
    requires 0 < |p| <= MaxLength
    ensures Normalized(p)[0] == 'A'
  {
    assert IndexOf(p, p[0]) == 0;
  }

  /** The distinct symbols of a string. */
  function Symbols(s: string): set<char>
  {
    set c | c in s
  }

  /** The first occurrences before k are as many as the distinct symbols before k. */
  lemma {:induction false} NewCountCountsSymbols(p: string, k: nat)
    requires k <= |p|
    ensures NewCount(p, k) == |Symbols(p[..k])|
  {
    if k > 0 {
      NewCountCountsSymbols(p, k - 1);
      var before := p[..k - 1];
      assert p[..k] == before + [p[k - 1]];
      FirstSeen(p, k - 1);
      if p[k - 1] in before {
        assert Symbols(p[..k]) == Symbols(before);
      } else {
        assert Symbols(p[..k]) == Symbols(before) + {p[k - 1]};
      }
    }
  }

  /**
    A symbol seen for the first time at position i gets the code after the
    codes already handed out: 'A' plus the number of distinct symbols before i.
   */
  lemma NewSymbolGetsNextCode(p: string, i: nat)
    requires i < |p| <= MaxLength && p[i] !in p[..i]
    ensures Normalized(p)[i] as int == 'A' as int + |Symbols(p[..i])|
  {
    FirstSeen(p, i);
    NewCountCountsSymbols(p, i);
  }

  /** Every code below n is handed out at some first occurrence before k. */
  lemma {:induction false} CodesHandedOut(p: string, k: nat, n: nat)
    requires k <= |p| && n < NewCount(p, k)
    ensures exists f :: 0 <= f < k && IsNew(p, f) && NewCount(p, f) == n
  {
    if n < NewCount(p, k - 1) {
      CodesHandedOut(p, k - 1, n);
    } else {
      assert IsNew(p, k - 1) && NewCount(p, k - 1) == n;
    }
  }

  /**
    The codes used form the contiguous run 'A', 'B', ... with one code per
    distinct symbol of the pattern.
   */
  lemma CodesAreContiguous(p: string)
    requires |p| <= MaxLength
    ensures |Symbols(p)| <= |p|
    ensures Symbols(Normalized(p)) == set n | 0 <= n < |Symbols(p)| :: Code(n)
  {
    var r := Normalized(p);
    NewCountCountsSymbols(p, |p|);
    assert p[..|p|] == p;
    forall c | c in Symbols(r)
      ensures exists n :: 0 <= n < |Symbols(p)| && c == Code(n)
    {
      var i :| 0 <= i < |r| && r[i] == c;
      var f := IndexOf(p, p[i]);
      NewCountStrict(p, f, |p|);
    }
    forall n | 0 <= n < |Symbols(p)|
      ensures Code(n) in Symbols(r)
    {
      CodesHandedOut(p, |p|, n);
      var f :| 0 <= f < |p| && IsNew(p, f) && NewCount(p, f) == n;
      assert r[f] == Code(n);
    }
  }

  /** Two strings of the same length whose positions agree exactly in the same places. */
  predicate SamePattern(p: string, q: string)
  {
    |p| == |q| && forall i, j :: 0 <= i < |p| && 0 <= j < |p| ==> (p[i] == p[j] <==> q[i] == q[j])
  }

  /** Strings with the same pattern have the same first occurrences. */
  lemma SamePatternSameIndex(p: string, q: string, i: nat)
    requires SamePattern(p, q) && i < |p|
    ensures IndexOf(p, p[i]) == IndexOf(q, q[i])
  {
    var a, b := IndexOf(p, p[i]), IndexOf(q, q[i]);
    assert q[a] == q[i];
    assert p[b] == p[i];
  }

  /** Strings with the same pattern hand out the same number of codes before k. */
  lemma {:induction false} SamePatternSameCount(p: string, q: string, k: nat)
    requires SamePattern(p, q) && k <= |p|
    ensures NewCount(p, k) == NewCount(q, k)
  {
    if k > 0 {
      SamePatternSameCount(p, q, k - 1);
      SamePatternSameIndex(p, q, k - 1);
    }
  }

  /** The normal form depends only on which positions hold equal symbols. */
  lemma SamePatternSameNormal(p: string, q: string)
    requires SamePattern(p, q) && |p| <= MaxLength
    ensures Normalized(p) == Normalized(q)
  {
    forall i | 0 <= i < |p|
      ensures Normalized(p)[i] == Normalized(q)[i]
    {
      SamePatternSameIndex(p, q, i);
      SamePatternSameCount(p, q, IndexOf(p, p[i]));
    }
  }

  /** Conversely, two patterns with the same normal form have equal symbols in the same places. */
  lemma SameNormalSamePattern(p: string, q: string)
    requires |p| <= MaxLength && |q| <= MaxLength && Normalized(p) == Normalized(q)
    ensures SamePattern(p, q)
  {
    forall i, j | 0 <= i < |p| && 0 <= j < |p|
      ensures p[i] == p[j] <==> q[i] == q[j]
    {
      SameSymbols(p, i, j);
      SameSymbols(q, i, j);
    }
  }

  /** Normalizing a normal form changes nothing. */
  lemma NormalizeIdempotent(p: string)
    requires |p| <= MaxLength
    ensures Normalized(Normalized(p)) == Normalized(p)
  {
    var r := Normalized(p);
    forall i, j | 0 <= i < |p| && 0 <= j < |p|
      ensures r[i] == r[j] <==> p[i] == p[j]
    {
      SameSymbols(p, i, j);
    }
    SamePatternSameNormal(r, p);
  }

  /** The pattern with every symbol renamed by f. */
  function Relabel(f: char -> char, p: string): (r: string)
  {
    seq(|p|, i requires 0 <= i < |p| => f(p[i]))
  }

  /** Renaming the symbols one-to-one leaves the normal form unchanged. */
  lemma RelabelInvariant(f: char -> char, p: string)
    requires |p| <= MaxLength
    requires forall a, b :: f(a) == f(b) ==> a == b
    ensures Normalized(Relabel(f, p)) == Normalized(p)
  {
    SamePatternSameNormal(Relabel(f, p), p);
  }
}
