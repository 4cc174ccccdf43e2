/**
  The OLL case catalog and the matcher that recognises a state code against it
  under all four quarter turns.
 */
module OllCatalog {
  import opened OllRotation

  datatype Option<T> = None | Some(value: T)

  /**
    One named OLL case: its reference top and edge codes, and a solution
    formula that is only carried through.
   */
  datatype OllCase = OllCase(name: string, topPattern: TopCode, edgePattern: EdgeCode, formula: string)

  /** The 57 OLL cases, in the order the matcher tries them. */
  function OllCases(): seq<OllCase>
  {
    Cases01To10() + Cases11To20() + Cases21To30() + Cases31To40() + Cases41To50() + Cases51To57()
  }

  /** OLL01 to OLL10. */
  function Cases01To10(): seq<OllCase>
  {
    [Oll01, Oll02, Oll03, Oll04, Oll05, Oll06, Oll07, Oll08, Oll09, Oll10]
  }

  /** OLL11 to OLL20. */
  function Cases11To20(): seq<OllCase>
  {
    [Oll11, Oll12, Oll13, Oll14, Oll15, Oll16, Oll17, Oll18, Oll19, Oll20]
  }

  /** OLL21 to OLL30. */
  function Cases21To30(): seq<OllCase>
  {
    [Oll21, Oll22, Oll23, Oll24, Oll25, Oll26, Oll27, Oll28, Oll29, Oll30]
  }

  /** OLL31 to OLL40. */
  function Cases31To40(): seq<OllCase>
  {
    [Oll31, Oll32, Oll33, Oll34, Oll35, Oll36, Oll37, Oll38, Oll39, Oll40]
  }

  /** OLL41 to OLL50. */
  function Cases41To50(): seq<OllCase>
  {
    [Oll41, Oll42, Oll43, Oll44, Oll45, Oll46, Oll47, Oll48, Oll49, Oll50]
  }

  /** OLL51 to OLL57. */
  function Cases51To57(): seq<OllCase>
  {
    [Oll51, Oll52, Oll53, Oll54, Oll55, Oll56, Oll57]
  }

  const Oll01 := OllCase("OLL01", "00000000", "010111111010", "R U2 R2 F R F' U2 R' F R F'")
  const Oll02 := OllCase("OLL02", "00000000", "011111010011", "F R U R' U' S R U R' U' Fw'")
  const Oll03 := OllCase("OLL03", "00000001", "110011110010", "Fw R U R' U' Fw' U' F R U R' U' F'")
  const Oll04 := OllCase("OLL04", "00100000", "010110011110", "Fw R U R' U' Fw' U F R U R' U' F'")
  const Oll05 := OllCase("OLL05", "00001011", "110011100000", "Rw' U2 R U R' U Rw")
  const Oll06 := OllCase("OLL06", "01101000", "000110001110", "Rw U2 R' U' R U' Rw'")
  const Oll07 := OllCase("OLL07", "01010100", "100000110011", "Rw U R' U R U2 Rw'")
  const Oll08 := OllCase("OLL08", "10010010", "011000011100", "Rw' U' R U' R' U2 Rw")
  const Oll09 := OllCase("OLL09", "01010001", "001100010110", "R U R' U' R' F R2 U R' U' F'")
  const Oll10 := OllCase("OLL10", "00110010", "110001010001", "R U R' U R' F R F' R U2 R'")
  const Oll11 := OllCase("OLL11", "00001110", "110010100001", "Rw' R2 U R' U R U2 R' U M'")
  const Oll12 := OllCase("OLL12", "00010011", "011100010100", "Lw L2 U' L U' L' U2 L U' M'")
  const Oll13 := OllCase("OLL13", "00011100", "110000100011", "F U R U' R2 F' R U R U' R'")
  const Oll14 := OllCase("OLL14", "00011001", "011100000110", "R' F R U R' F' R y' R U' R'")
  const Oll15 := OllCase("OLL15", "00011001", "110001100010", "Rw' U' Rw R' U' R U Rw' U Rw")
  const Oll16 := OllCase("OLL16", "00111000", "010100001110", "Rw U Rw' R U R' U' Rw U' Rw'")
  const Oll17 := OllCase("OLL17", "10000001", "011011010010", "R U R' U R' F R F' U2 R' F R F'")
  const Oll18 := OllCase("OLL18", "00100001", "010111010010", "R U2 R2 F R F' U2 M' U R U' Rw'")
  const Oll19 := OllCase("OLL19", "10100000", "010011011010", "M U R U R' U' M' R' F R F'")
  const Oll20 := OllCase("OLL20", "10100101", "010010010010", "Rw U R' U' M2 U R U' R' U' M'")
  const Oll21 := OllCase("OLL21", "01011010", "101000000101", "R U2 R' U' R U R' U' R U' R'")
  const Oll22 := OllCase("OLL22", "01011010", "001101000001", "R U2 R2 U' R2 U' R2 U2 R")
  const Oll23 := OllCase("OLL23", "01011111", "101000000000", "R2 D' R U2 R' D R U2 R")
  const Oll24 := OllCase("OLL24", "11111010", "000001001000", "R' U' R' D' R U R' D R2")
  const Oll25 := OllCase("OLL25", "11011011", "000000100100", "R U2 R D R' U2 R D' R2")
  const Oll26 := OllCase("OLL26", "11011010", "001000001100", "R' U' R U' R' U2 R")
  const Oll27 := OllCase("OLL27", "01111010", "100001000001", "L U L' U L U2 L'")
  const Oll28 := OllCase("OLL28", "11110101", "000000010010", "Rw U R' U' M U R U' R'")
  const Oll29 := OllCase("OLL29", "01110001", "100000010110", "R U R' U' R U' R' F' U' F R U R'")
  const Oll30 := OllCase("OLL30", "01010101", "000100110010", "F R' F R2 U' R' U' R U R' F2")
  const Oll31 := OllCase("OLL31", "01101001", "100010000110", "R' U' F U R U' R' F' R")
  const Oll32 := OllCase("OLL32", "00101011", "110010000100", "R U2 R' U' F' U F R U' R'")
  const Oll33 := OllCase("OLL33", "00111001", "110000000110", "R U R' U' R' F R F'")
  const Oll34 := OllCase("OLL34", "00011101", "010100100010", "R U R2 U' R' F R U R U' F'")
  const Oll35 := OllCase("OLL35", "10001011", "010010100100", "R U2 R2 F R F' R U2 R'")
  const Oll36 := OllCase("OLL36", "11001001", "001011000010", "L' U' L U' L' U L U L F' L' F")
  const Oll37 := OllCase("OLL37", "11010001", "000000110110", "F R U' R' U' R U R' F'")
  const Oll38 := OllCase("OLL38", "01110100", "100000011010", "R U R' U R U' R' U' R' F R F'")
  const Oll39 := OllCase("OLL39", "00111100", "010100000011", "R U R' F' U' F U R U2 R'")
  const Oll40 := OllCase("OLL40", "10011001", "011001000010", "R' F R U R' U' F' U R")
  const Oll41 := OllCase("OLL41", "01010101", "101000010010", "R U R' U R U2 R' F R U R' U' F'")
  const Oll42 := OllCase("OLL42", "10110010", "010000010101", "R' U' R U' R' U2 R F R U R' U' F'")
  const Oll43 := OllCase("OLL43", "11110000", "000000010111", "R' U' F' U F R")
  const Oll44 := OllCase("OLL44", "00101001", "010111000000", "Fw R U R' U' Fw'")
  const Oll45 := OllCase("OLL45", "00111001", "010101000010", "F R U R' U' F'")
  const Oll46 := OllCase("OLL46", "11000110", "000010111000", "R' U' R' F R F' U R")
  const Oll47 := OllCase("OLL47", "01001000", "100010101110", "F' L' U' L U L' U' L U F")
  const Oll48 := OllCase("OLL48", "01010000", "001101010011", "F R U R' U' R U R' U' F'")
  const Oll49 := OllCase("OLL49", "01001000", "001111000011", "Rw U' Rw2 U Rw2 U Rw2 U' Rw")
  const Oll50 := OllCase("OLL50", "00001010", "011111000001", "Rw' U Rw2 U' Rw2 U' Rw2 U Rw'")
  const Oll51 := OllCase("OLL51", "00011000", "110000101110", "F U R U' R' U R U' R' F'")
  const Oll52 := OllCase("OLL52", "01000010", "001111010001", "R' F' U' F U' R U R' U R")
  const Oll53 := OllCase("OLL53", "00001010", "010111101000", "Rw' U' R U' R' U R U' R' U2 Rw")
  const Oll54 := OllCase("OLL54", "01001000", "000111101010", "Rw U R' U R U' R' U R U2 Rw'")
  const Oll55 := OllCase("OLL55", "00011000", "111000000111", "R' F R U R U' R2 F' R2 U' R' U R U R'")
  const Oll56 := OllCase("OLL56", "00011000", "010101101010", "Rw U Rw' U R U' R' U R U' R' Rw U' Rw'")
  const Oll57 := OllCase("OLL57", "10111101", "010000000010", "R U R' U' M' U R U' Rw'")

  // ---------------------------------------------------------------------------
  // What a match is
  // ---------------------------------------------------------------------------

  /** Turning the case's reference codes i times gives the observed codes. */
  predicate MatchesAt(c: OllCase, top: string, edge: string, i: nat)
  {
    TopTurns(c.topPattern, i) == top && EdgeTurns(c.edgePattern, i) == edge
  }

  /** One rotation index from 0 to 3, the same for both parts, turns the case's codes into the observed ones. */
  predicate Matches(c: OllCase, top: string, edge: string)
  {
    exists i :: 0 <= i < 4 && MatchesAt(c, top, edge, i)
  }

  /** The first case at index j or later that matches the observed codes. */
  function FirstMatchFrom(cases: seq<OllCase>, top: string, edge: string, j: nat): Option<OllCase>
    decreases |cases| - j
  {
    if j >= |cases| then None
    else if Matches(cases[j], top, edge) then Some(cases[j])
    else FirstMatchFrom(cases, top, edge, j + 1)
  }

  /** The first case of the catalog that matches the observed codes, if any. */
  function FirstMatch(cases: seq<OllCase>, top: string, edge: string): Option<OllCase>
  {
    FirstMatchFrom(cases, top, edge, 0)
  }

  // ---------------------------------------------------------------------------
  // The matcher
  // ---------------------------------------------------------------------------

  /**
    Splits the state code into its top part (characters 0..8) and edge part
    (characters 8..20), then tries the cases in order and, for each, the
    rotation indices 0 to 3, returning the first case whose i-th top variant
    and i-th edge variant both equal the observed parts.
   */
  method DetectOllCase(cases: seq<OllCase>, stateCode: string) returns (found: Option<OllCase>)
    ensures found == FirstMatch(cases, Slice(stateCode, 0, 8), Slice(stateCode, 8, 20))
    ensures found.None? <==>
      forall j :: 0 <= j < |cases| ==> !Matches(cases[j], Slice(stateCode, 0, 8), Slice(stateCode, 8, 20))
    ensures found.Some? ==>
      exists j :: 0 <= j < |cases| && found.value == cases[j] &&
        Matches(cases[j], Slice(stateCode, 0, 8), Slice(stateCode, 8, 20)) &&
        forall k :: 0 <= k < j ==> !Matches(cases[k], Slice(stateCode, 0, 8), Slice(stateCode, 8, 20))
  {
    var topCode := Slice(stateCode, 0, 8);
    var edgeCode := Slice(stateCode, 8, 20);
    var j := 0;
    while j < |cases|
      invariant 0 <= j <= |cases|
      invariant forall k :: 0 <= k < j ==> !Matches(cases[k], topCode, edgeCode)
      invariant FirstMatchFrom(cases, topCode, edgeCode, j) == FirstMatch(cases, topCode, edgeCode)
    {
      var oll := cases[j];
      var topVariants := AllTopRotations(oll.topPattern);
      var edgeVariants := AllEdgeRotations(oll.edgePattern);
      var i := 0;
      while i < 4
        invariant 0 <= i <= 4
        invariant forall i' :: 0 <= i' < i ==> !MatchesAt(oll, topCode, edgeCode, i')
      {
        if topVariants[i] == topCode && edgeVariants[i] == edgeCode {
          assert MatchesAt(oll, topCode, edgeCode, i);
          return Some(oll);
        }
        i := i + 1;
      }
      j := j + 1;
    }
    return None;
  }

  // ---------------------------------------------------------------------------
  // Laws of the matcher
  // ---------------------------------------------------------------------------

  /** FirstMatch gives the first matching case in catalog order, and nothing only when no case matches. */
  lemma {:induction false} FirstMatchFromIsFirst(cases: seq<OllCase>, top: string, edge: string, j: nat)
    requires j <= |cases|
    ensures FirstMatchFrom(cases, top, edge, j).None? <==>
      forall k :: j <= k < |cases| ==> !Matches(cases[k], top, edge)
    ensures FirstMatchFrom(cases, top, edge, j).Some? ==>
      exists k :: j <= k < |cases| && FirstMatchFrom(cases, top, edge, j) == Some(cases[k]) &&
        Matches(cases[k], top, edge) && forall m :: j <= m < k ==> !Matches(cases[m], top, edge)
    decreases |cases| - j
  {
    if j < |cases| {
      if Matches(cases[j], top, edge) {
        assert FirstMatchFrom(cases, top, edge, j) == Some(cases[j]);
      } else {
        FirstMatchFromIsFirst(cases, top, edge, j + 1);
        if FirstMatchFrom(cases, top, edge, j + 1).Some? {
          var k :| j + 1 <= k < |cases| && FirstMatchFrom(cases, top, edge, j + 1) == Some(cases[k]) &&
            Matches(cases[k], top, edge) && forall m :: j + 1 <= m < k ==> !Matches(cases[m], top, edge);
          assert forall m :: j <= m < k ==> !Matches(cases[m], top, edge);
        }
      }
    }
  }

  /** Cases that do not match can be skipped. */
  lemma {:induction false} SkipNonMatching(cases: seq<OllCase>, top: string, edge: string, lo: nat, hi: nat)
    requires lo <= hi <= |cases|
    requires forall k :: lo <= k < hi ==> !Matches(cases[k], top, edge)
    ensures FirstMatchFrom(cases, top, edge, lo) == FirstMatchFrom(cases, top, edge, hi)
    decreases hi - lo
  {
    if lo < hi {
      SkipNonMatching(cases, top, edge, lo + 1, hi);
    }
  }

  /** Turning a code a times and then b times turns it a + b times. */
  lemma {:induction false} TopTurnsAdd(p: TopCode, a: nat, b: nat)
    ensures TopTurns(TopTurns(p, a), b) == TopTurns(p, a + b)
  {
    if b > 0 {
      TopTurnsAdd(p, a, b - 1);
    }
  }

  /** The same for edge codes. */
  lemma {:induction false} EdgeTurnsAdd(p: EdgeCode, a: nat, b: nat)
    ensures EdgeTurns(EdgeTurns(p, a), b) == EdgeTurns(p, a + b)
  {
    if b > 0 {
      EdgeTurnsAdd(p, a, b - 1);
    }
  }

  /** A quarter turn loses nothing: different top codes stay different. */
  lemma RotateTopInjective(a: TopCode, b: TopCode)
    requires RotateTop(a) == RotateTop(b)
    ensures a == b
  {
    RotateTopFourTimes(a);
    RotateTopFourTimes(b);
  }

  /** A quarter turn loses nothing: different edge codes stay different. */
  lemma RotateEdgeInjective(a: EdgeCode, b: EdgeCode)
    requires RotateEdge(a) == RotateEdge(b)
    ensures a == b
  {
    RotateEdgeFourTimes(a);
    RotateEdgeFourTimes(b);
  }

  /** A match at index i becomes a match at the next index once the observed codes are turned. */
  lemma MatchesAtNext(c: OllCase, top: TopCode, edge: EdgeCode, i: nat)
    requires i < 4 && MatchesAt(c, top, edge, i)
    ensures MatchesAt(c, RotateTop(top), RotateEdge(edge), (i + 1) % 4)
  {
    var t, e := c.topPattern, c.edgePattern;
    assert TopTurns(t, i + 1) == RotateTop(TopTurns(t, i));
    assert EdgeTurns(e, i + 1) == RotateEdge(EdgeTurns(e, i));
    if i == 3 {
      TopTurnsPeriodic(t, 0);
      EdgeTurnsPeriodic(e, 0);
    }
  }

  /** A match of the turned observed codes at index i is a match of the observed codes one index earlier. */
  lemma MatchesAtPrevious(c: OllCase, top: TopCode, edge: EdgeCode, i: nat)
    requires i < 4 && MatchesAt(c, RotateTop(top), RotateEdge(edge), i)
    ensures MatchesAt(c, top, edge, (i + 3) % 4)
  {
    var t, e := c.topPattern, c.edgePattern;
    if i == 0 {
      RotateTopFourTimes(top);
      RotateEdgeFourTimes(edge);
      assert TopTurns(t, 1) == RotateTop(t);
      assert TopTurns(t, 2) == RotateTop(TopTurns(t, 1));
      assert TopTurns(t, 3) == RotateTop(TopTurns(t, 2));
      assert EdgeTurns(e, 1) == RotateEdge(e);
      assert EdgeTurns(e, 2) == RotateEdge(EdgeTurns(e, 1));
      assert EdgeTurns(e, 3) == RotateEdge(EdgeTurns(e, 2));
    } else {
      assert TopTurns(t, i) == RotateTop(TopTurns(t, i - 1));
      assert EdgeTurns(e, i) == RotateEdge(EdgeTurns(e, i - 1));
      RotateTopInjective(TopTurns(t, i - 1), top);
      RotateEdgeInjective(EdgeTurns(e, i - 1), edge);
    }
  }

  /** Turning the observed codes a quarter turn does not change which cases match them. */
  lemma MatchesIgnoresTurn(c: OllCase, top: TopCode, edge: EdgeCode)
    ensures Matches(c, RotateTop(top), RotateEdge(edge)) <==> Matches(c, top, edge)
  {
    if Matches(c, top, edge) {
      var i :| 0 <= i < 4 && MatchesAt(c, top, edge, i);
      MatchesAtNext(c, top, edge, i);
    }
    if Matches(c, RotateTop(top), RotateEdge(edge)) {
      var i :| 0 <= i < 4 && MatchesAt(c, RotateTop(top), RotateEdge(edge), i);
      MatchesAtPrevious(c, top, edge, i);
    }
  }

  /** Turning the observed codes a quarter turn does not change what the matcher finds. */
  lemma {:induction false} FirstMatchIgnoresTurn(cases: seq<OllCase>, top: TopCode, edge: EdgeCode, j: nat)
    ensures FirstMatchFrom(cases, RotateTop(top), RotateEdge(edge), j) == FirstMatchFrom(cases, top, edge, j)
    decreases |cases| - j
  {
    if j < |cases| {
      MatchesIgnoresTurn(cases[j], top, edge);
      FirstMatchIgnoresTurn(cases, top, edge, j + 1);
    }
  }

  /** The matcher finds the same case for the observed codes turned any number of times. */
  lemma {:induction false} FirstMatchIgnoresTurns(cases: seq<OllCase>, top: TopCode, edge: EdgeCode, k: nat)
    ensures FirstMatch(cases, TopTurns(top, k), EdgeTurns(edge, k)) == FirstMatch(cases, top, edge)
  {
    if k > 0 {
      FirstMatchIgnoresTurns(cases, top, edge, k - 1);
      FirstMatchIgnoresTurn(cases, TopTurns(top, k - 1), EdgeTurns(edge, k - 1), 0);
    }
  }

  /**
    Any rotation of a case's own reference codes is recognised, as that case
    or as one stored before it.
   */
  lemma RotatedCaseIsRecognised(cases: seq<OllCase>, j: nat, k: nat)
    requires j < |cases|
    ensures var found := FirstMatch(cases, TopTurns(cases[j].topPattern, k), EdgeTurns(cases[j].edgePattern, k));
      exists m :: 0 <= m <= j && found == Some(cases[m])
  {
    var c := cases[j];
    FirstMatchIgnoresTurns(cases, c.topPattern, c.edgePattern, k);
    assert MatchesAt(c, c.topPattern, c.edgePattern, 0);
    FirstMatchFromIsFirst(cases, c.topPattern, c.edgePattern, 0);
  }

  /** The four rotations of the observed codes, as (top, edge) pairs, at indices 0 to 3. */
  function Turns(top: TopCode, edge: EdgeCode): (orbit: seq<(TopCode, EdgeCode)>)
  {
    [(top, edge), (TopTurns(top, 1), EdgeTurns(edge, 1)),
     (TopTurns(top, 2), EdgeTurns(edge, 2)), (TopTurns(top, 3), EdgeTurns(edge, 3))]
  }

  /** i turns followed by 4 - i turns give back the starting code. */
  lemma TurnsUndone(t: TopCode, e: EdgeCode, i: nat)
    requires i <= 4
    ensures TopTurns(TopTurns(t, i), 4 - i) == t && EdgeTurns(EdgeTurns(e, i), 4 - i) == e
  {
    TopTurnsUndone(t, i);
    EdgeTurnsUndone(e, i);
  }

  /** i turns of a top code followed by 4 - i turns give it back. */
  lemma TopTurnsUndone(t: TopCode, i: nat)
    requires i <= 4
    ensures TopTurns(TopTurns(t, i), 4 - i) == t
  {
    TopTurnsAdd(t, i, 4 - i);
    TopTurnsPeriodic(t, 0);
  }

  /** i turns of an edge code followed by 4 - i turns give it back. */
  lemma EdgeTurnsUndone(e: EdgeCode, i: nat)
    requires i <= 4
    ensures EdgeTurns(EdgeTurns(e, i), 4 - i) == e
  {
    EdgeTurnsAdd(e, i, 4 - i);
    EdgeTurnsPeriodic(e, 0);
  }

  /**
    A case matches the observed codes exactly when its reference codes are
    among the four rotations of the observed codes.
   */
  lemma MatchesIffInTurns(c: OllCase, top: TopCode, edge: EdgeCode)
    ensures Matches(c, top, edge) <==> (c.topPattern, c.edgePattern) in Turns(top, edge)
  {
    var t, e, orbit := c.topPattern, c.edgePattern, Turns(top, edge);
    if Matches(c, top, edge) {
      var i :| 0 <= i < 4 && MatchesAt(c, top, edge, i);
      TurnsUndone(t, e, i);
      if i == 0 {
        assert orbit[0] == (t, e);
      } else if i == 1 {
        assert orbit[3] == (t, e);
      } else if i == 2 {
        assert orbit[2] == (t, e);
      } else {
        assert orbit[1] == (t, e);
      }
    }
    if (t, e) in orbit {
      var m :| 0 <= m < 4 && orbit[m] == (t, e);
      if m == 0 {
        assert MatchesAt(c, top, edge, 0);
      } else {
        TurnsUndone(top, edge, m);
        assert MatchesAt(c, top, edge, 4 - m);
      }
    }
  }

  /** Cases none of whose codes are among the observed rotations do not match. */
  lemma NoneMatch(cases: seq<OllCase>, hi: nat, top: TopCode, edge: EdgeCode, orbit: seq<(TopCode, EdgeCode)>)
    requires hi <= |cases| && orbit == Turns(top, edge)
    requires forall k :: 0 <= k < hi ==> (cases[k].topPattern, cases[k].edgePattern) !in orbit
    ensures forall k :: 0 <= k < hi ==> !Matches(cases[k], top, edge)
  {
    forall k | 0 <= k < hi
      ensures !Matches(cases[k], top, edge)
    {
      MatchesIffInTurns(cases[k], top, edge);
    }
  }

  // ---------------------------------------------------------------------------
  // Worked examples
  // ---------------------------------------------------------------------------

  /** Where the worked examples sit in the catalog. */
  lemma OllCasesLayout()
    ensures |OllCases()| == 57 && OllCases()[21] == Oll22 && OllCases()[32] == Oll33
  {
    assert Cases21To30()[1] == Oll22;
    assert Cases31To40()[2] == Oll33;
  }

  /** Turning the blank codes gives the blank codes again. */
  lemma BlankTurns()
    ensures Turns("00000000", "000000000000") == [("00000000", "000000000000")] + [("00000000", "000000000000")] + [("00000000", "000000000000")] + [("00000000", "000000000000")]
  {
    assert RotateTop("00000000") == "00000000";
    assert RotateEdge("000000000000") == "000000000000";
  }

  /** Every case of the catalog has at least one marked sticker. */
  lemma BlankNotInCatalog()
    ensures forall k :: 0 <= k < |OllCases()| ==> OllCases()[k].edgePattern != "000000000000"
  {
    BlankNotInCases01To30();
    BlankNotInCases31To57();
  }

  /** No case in a group has a blank edge pattern. */
  predicate NoBlankEdges(cases: seq<OllCase>)
  {
    forall k :: 0 <= k < |cases| ==> cases[k].edgePattern != "000000000000"
  }

  /** OLL01 to OLL30 all have a marked edge sticker. */
  lemma BlankNotInCases01To30()
    ensures NoBlankEdges(Cases01To10()) && NoBlankEdges(Cases11To20()) && NoBlankEdges(Cases21To30())
  {
    var g1, g2, g3 := Cases01To10(), Cases11To20(), Cases21To30();
    assert forall k :: 0 <= k < 10 ==> g1[k].edgePattern != "000000000000";
    assert forall k :: 0 <= k < 10 ==> g2[k].edgePattern != "000000000000";
    assert forall k :: 0 <= k < 10 ==> g3[k].edgePattern != "000000000000";
  }

  /** OLL31 to OLL57 all have a marked edge sticker. */
  lemma BlankNotInCases31To57()
    ensures NoBlankEdges(Cases31To40()) && NoBlankEdges(Cases41To50()) && NoBlankEdges(Cases51To57())
  {
    var g4, g5, g6 := Cases31To40(), Cases41To50(), Cases51To57();
    assert forall k :: 0 <= k < 10 ==> g4[k].edgePattern != "000000000000";
    assert forall k :: 0 <= k < 10 ==> g5[k].edgePattern != "000000000000";
    assert forall k :: 0 <= k < 7 ==> g6[k].edgePattern != "000000000000";
  }

  /** The blank state, with no sticker marked, matches no case. */
  lemma BlankNotRecognised()
    ensures FirstMatch(OllCases(), "00000000", "000000000000") == None
  {
    var cases, t, e := OllCases(), "00000000", "000000000000";
    var orbit := Turns(t, e);
    BlankTurns();
    BlankNotInCatalog();
    NoneMatch(cases, |cases|, t, e, orbit);
    FirstMatchFromIsFirst(cases, t, e, 0);
  }
}
