/**
  The orientations of every case of the OLL catalog, and the fact they give:
  no two cases share an orientation, so every rotation of a catalogued case
  is recognised as that very case.
 */
module OllCatalogOrbits {
  import opened OllRotation
  import opened OllCatalog

  /** No case of the group, stored from index lo on, that comes before index j has one of the given orientations. */
  predicate Apart(group: seq<OllCase>, lo: nat, j: nat, orbit: seq<(TopCode, EdgeCode)>)
  {
    forall k :: 0 <= k < |group| && lo + k < j ==> (group[k].topPattern, group[k].edgePattern) !in orbit
  }

  /** The g-th group of the catalog: ten cases each, seven in the last. */
  function Group(g: nat): seq<OllCase>
    requires g < 6
  {
    match g
    case 0 => Cases01To10()
    case 1 => Cases11To20()
    case 2 => Cases21To30()
    case 3 => Cases31To40()
    case 4 => Cases41To50()
    case 5 => Cases51To57()
  }

  /** No case of group g or a later group that comes before index j has one of the given orientations. */
  predicate ApartFrom(g: nat, j: nat, orbit: seq<(TopCode, EdgeCode)>)
    decreases 6 - g
  {
    g >= 6 || (Apart(Group(g), 10 * g, j, orbit) && ApartFrom(g + 1, j, orbit))
  }

  /** The group-by-group reading covers every case before index j. */
  lemma EarlierApart(j: nat, orbit: seq<(TopCode, EdgeCode)>)
    requires j <= |OllCases()| && ApartFrom(0, j, orbit)
    ensures forall m :: 0 <= m < j ==> (OllCases()[m].topPattern, OllCases()[m].edgePattern) !in orbit
  {
    var cases := OllCases();
    assert ApartFrom(1, j, orbit);
    assert ApartFrom(2, j, orbit);
    assert ApartFrom(3, j, orbit);
    assert ApartFrom(4, j, orbit);
    assert ApartFrom(5, j, orbit);
    forall m | 0 <= m < j
      ensures (cases[m].topPattern, cases[m].edgePattern) !in orbit
    {
      if m < 10 {
        assert cases[m] == Group(0)[m];
      } else if m < 20 {
        assert cases[m] == Group(1)[m - 10];
      } else if m < 30 {
        assert cases[m] == Group(2)[m - 20];
      } else if m < 40 {
        assert cases[m] == Group(3)[m - 30];
      } else if m < 50 {
        assert cases[m] == Group(4)[m - 40];
      } else {
        assert cases[m] == Group(5)[m - 50];
      }
    }
  }

  /**
    Every rotation of every catalogued case is recognised as that same case:
    the catalog holds no two cases that are rotations of each other.
   */
  lemma CaseRecognisedAsItself(j: nat, k: nat)
    requires j < |OllCases()|
    ensures FirstMatch(OllCases(), TopTurns(OllCases()[j].topPattern, k), EdgeTurns(OllCases()[j].edgePattern, k))
      == Some(OllCases()[j])
  {
    var cases := OllCases();
    var c := cases[j];
    var orbit := Turns(c.topPattern, c.edgePattern);
    CaseOrbitApart(j);
    EarlierApart(j, orbit);
    NoneMatch(cases, j, c.topPattern, c.edgePattern, orbit);
    SkipNonMatching(cases, c.topPattern, c.edgePattern, 0, j);
    assert MatchesAt(c, c.topPattern, c.edgePattern, 0);
    FirstMatchIgnoresTurns(cases, c.topPattern, c.edgePattern, k);
  }

  /** OLL33 is recognised from each of its four orientations. */
  lemma Oll33Recognised(k: nat)
    ensures FirstMatch(OllCases(), TopTurns("00111001", k), EdgeTurns("110000000110", k)) == Some(Oll33)
  {
    OllCasesLayout();
    CaseRecognisedAsItself(32, k);
  }

  /** OLL22 is recognised from each of its four orientations, including the 90 degree one 01011010 / 101001001000. */
  lemma Oll22Recognised(k: nat)
    ensures FirstMatch(OllCases(), TopTurns("01011010", k), EdgeTurns("001101000001", k)) == Some(Oll22)
  {
    OllCasesLayout();
    CaseRecognisedAsItself(21, k);
  }

  /** The orientations of the case at index j are apart from every case before it. */
  lemma CaseOrbitApart(j: nat)
    requires j < |OllCases()|
    ensures ApartFrom(0, j, Turns(OllCases()[j].topPattern, OllCases()[j].edgePattern))
  {
    var cases := OllCases();
    if j < 10 {
      Orbits01To10Apart(j);
      assert cases[j] == Cases01To10()[j];
    } else if j < 20 {
      Orbits11To20Apart(j);
      assert cases[j] == Cases11To20()[j - 10];
    } else if j < 30 {
      Orbits21To30Apart(j);
      assert cases[j] == Cases21To30()[j - 20];
    } else if j < 40 {
      Orbits31To40Apart(j);
      assert cases[j] == Cases31To40()[j - 30];
    } else if j < 50 {
      Orbits41To50Apart(j);
      assert cases[j] == Cases41To50()[j - 40];
    } else {
      Orbits51To57Apart(j);
      assert cases[j] == Cases51To57()[j - 50];
    }
  }

  /** The orientations of each of OLL01 to OLL10 are apart from every case before it. */
  lemma Orbits01To10Apart(j: nat)
    requires 0 <= j < 10
    ensures ApartFrom(0, j, Turns(Cases01To10()[j].topPattern, Cases01To10()[j].edgePattern))
  {
    if j == 0 {
      Oll01Apart(j);
    } else if j == 1 {
      Oll02Apart(j);
    } else if j == 2 {
      Oll03Apart(j);
    } else if j == 3 {
      Oll04Apart(j);
    } else if j == 4 {
      Oll05Apart(j);
    } else if j == 5 {
      Oll06Apart(j);
    } else if j == 6 {
      Oll07Apart(j);
    } else if j == 7 {
      Oll08Apart(j);
    } else if j == 8 {
      Oll09Apart(j);
    } else {
      Oll10Apart(j);
    }
  }

  /** The orientations of each of OLL11 to OLL20 are apart from every case before it. */
  lemma Orbits11To20Apart(j: nat)
    requires 10 <= j < 20
    ensures ApartFrom(0, j, Turns(Cases11To20()[j - 10].topPattern, Cases11To20()[j - 10].edgePattern))
  {
    if j == 10 {
      Oll11Apart(j);
    } else if j == 11 {
      Oll12Apart(j);
    } else if j == 12 {
      Oll13Apart(j);
    } else if j == 13 {
      Oll14Apart(j);
    } else if j == 14 {
      Oll15Apart(j);
    } else if j == 15 {
      Oll16Apart(j);
    } else if j == 16 {
      Oll17Apart(j);
    } else if j == 17 {
      Oll18Apart(j);
    } else if j == 18 {
      Oll19Apart(j);
    } else {
      Oll20Apart(j);
    }
  }

  /** The orientations of each of OLL21 to OLL30 are apart from every case before it. */
  lemma Orbits21To30Apart(j: nat)
    requires 20 <= j < 30
    ensures ApartFrom(0, j, Turns(Cases21To30()[j - 20].topPattern, Cases21To30()[j - 20].edgePattern))
  {
    if j == 20 {
      Oll21Apart(j);
    } else if j == 21 {
      Oll22Apart(j);
    } else if j == 22 {
      Oll23Apart(j);
    } else if j == 23 {
      Oll24Apart(j);
    } else if j == 24 {
      Oll25Apart(j);
    } else if j == 25 {
      Oll26Apart(j);
    } else if j == 26 {
      Oll27Apart(j);
    } else if j == 27 {
      Oll28Apart(j);
    } else if j == 28 {
      Oll29Apart(j);
    } else {
      Oll30Apart(j);
    }
  }

  /** The orientations of each of OLL31 to OLL40 are apart from every case before it. */
  lemma Orbits31To40Apart(j: nat)
    requires 30 <= j < 40
    ensures ApartFrom(0, j, Turns(Cases31To40()[j - 30].topPattern, Cases31To40()[j - 30].edgePattern))
  {
    if j == 30 {
      Oll31Apart(j);
    } else if j == 31 {
      Oll32Apart(j);
    } else if j == 32 {
      Oll33Apart(j);
    } else if j == 33 {
      Oll34Apart(j);
    } else if j == 34 {
      Oll35Apart(j);
    } else if j == 35 {
      Oll36Apart(j);
    } else if j == 36 {
      Oll37Apart(j);
    } else if j == 37 {
      Oll38Apart(j);
    } else if j == 38 {
      Oll39Apart(j);
    } else {
      Oll40Apart(j);
    }
  }

  /** The orientations of each of OLL41 to OLL50 are apart from every case before it. */
  lemma Orbits41To50Apart(j: nat)
    requires 40 <= j < 50
    ensures ApartFrom(0, j, Turns(Cases41To50()[j - 40].topPattern, Cases41To50()[j - 40].edgePattern))
  {
    if j == 40 {
      Oll41Apart(j);
    } else if j == 41 {
      Oll42Apart(j);
    } else if j == 42 {
      Oll43Apart(j);
    } else if j == 43 {
      Oll44Apart(j);
    } else if j == 44 {
      Oll45Apart(j);
    } else if j == 45 {
      Oll46Apart(j);
    } else if j == 46 {
      Oll47Apart(j);
    } else if j == 47 {
      Oll48Apart(j);
    } else if j == 48 {
      Oll49Apart(j);
    } else {
      Oll50Apart(j);
    }
  }

  /** The orientations of each of OLL51 to OLL57 are apart from every case before it. */
  lemma Orbits51To57Apart(j: nat)
    requires 50 <= j < 57
    ensures ApartFrom(0, j, Turns(Cases51To57()[j - 50].topPattern, Cases51To57()[j - 50].edgePattern))
  {
    if j == 50 {
      Oll51Apart(j);
    } else if j == 51 {
      Oll52Apart(j);
    } else if j == 52 {
      Oll53Apart(j);
    } else if j == 53 {
      Oll54Apart(j);
    } else if j == 54 {
      Oll55Apart(j);
    } else if j == 55 {
      Oll56Apart(j);
    } else {
      Oll57Apart(j);
    }
  }

  // ---------------------------------------------------------------------------
  // The orientations of each case
  // ---------------------------------------------------------------------------

  /** The four orientations of OLL01, at 0, 90, 180 and 270 degrees. */
  lemma Orbit01IsTurns()
    ensures Turns(Oll01.topPattern, Oll01.edgePattern) ==
      [("00000000", "010111111010"), ("00000000", "111010010111"),
       ("00000000", "010111111010"), ("00000000", "111010010111")]
  {
    assert RotateTop("00000000") == "00000000";
    assert RotateEdge("010111111010") == "111010010111";
    assert RotateEdge("111010010111") == "010111111010";
  }

  /** No case before OLL01 has one of its orientations. */
  lemma Oll01Apart(j: nat)
    requires j == 0
    ensures ApartFrom(0, j, Turns(Cases01To10()[j].topPattern, Cases01To10()[j].edgePattern))
  {
    var orbit := Turns(Cases01To10()[j].topPattern, Cases01To10()[j].edgePattern);
    assert ApartFrom(5, j, orbit);
    assert ApartFrom(4, j, orbit);
    assert ApartFrom(3, j, orbit);
    assert ApartFrom(2, j, orbit);
    assert ApartFrom(1, j, orbit);
    assert ApartFrom(0, j, orbit);
  }

  /** The four orientations of OLL02, at 0, 90, 180 and 270 degrees. */
  lemma Orbit02IsTurns()
    ensures Turns(Oll02.topPattern, Oll02.edgePattern) ==
      [("00000000", "011111010011"), ("00000000", "111011011010"),
       ("00000000", "110010111110"), ("00000000", "010110110111")]
  {
    assert RotateTop("00000000") == "00000000";
    assert RotateEdge("011111010011") == "111011011010";
    assert RotateEdge("111011011010") == "110010111110";
    assert RotateEdge("110010111110") == "010110110111";
  }

  /** No case of OLL01 to OLL01 before OLL02 has one of its orientations. */
  lemma Orbit02EarlyApart()
    ensures forall k :: 0 <= k < 1 ==>
      (Cases01To10()[k].topPattern, Cases01To10()[k].edgePattern) !in
      [("00000000", "011111010011"), ("00000000", "111011011010"),
       ("00000000", "110010111110"), ("00000000", "010110110111")]
  {
  }

  /** OLL02's orientations, read off the first three groups of the catalog. */
  lemma Oll02EarlyApart(j: nat)
    requires j == 1
    ensures Apart(Group(0), 0, j, Turns(Cases01To10()[j].topPattern, Cases01To10()[j].edgePattern))
    ensures Apart(Group(1), 10, j, Turns(Cases01To10()[j].topPattern, Cases01To10()[j].edgePattern))
    ensures Apart(Group(2), 20, j, Turns(Cases01To10()[j].topPattern, Cases01To10()[j].edgePattern))
  {
    assert Cases01To10()[j] == Oll02;
    Orbit02IsTurns();
    Orbit02EarlyApart();
  }

  /** No case before OLL02 has one of its orientations. */
  lemma Oll02Apart(j: nat)
    requires j == 1
    ensures ApartFrom(0, j, Turns(Cases01To10()[j].topPattern, Cases01To10()[j].edgePattern))
  {
    Oll02EarlyApart(j);
    var orbit := Turns(Cases01To10()[j].topPattern, Cases01To10()[j].edgePattern);
    assert ApartFrom(5, j, orbit);
    assert ApartFrom(4, j, orbit);
    assert ApartFrom(3, j, orbit);
    assert ApartFrom(2, j, orbit);
    assert ApartFrom(1, j, orbit);
    assert ApartFrom(0, j, orbit);
  }

  /** The four orientations of OLL03, at 0, 90, 180 and 270 degrees. */
  lemma Orbit03IsTurns()
    ensures Turns(Oll03.topPattern, Oll03.edgePattern) ==
      [("00000001", "110011110010"), ("00000100", "110010110011"),
       ("10000000", "010011110011"), ("00100000", "110011010011")]
  {
    assert RotateTop("00000001") == "00000100";
    assert RotateEdge("110011110010") == "110010110011";
    assert RotateTop("00000100") == "10000000";
    assert RotateEdge("110010110011") == "010011110011";
    assert RotateTop("10000000") == "00100000";
    assert RotateEdge("010011110011") == "110011010011";
  }

  /** No case of OLL01 to OLL02 before OLL03 has one of its orientations. */
  lemma Orbit03EarlyApart()
    ensures forall k :: 0 <= k < 2 ==>
      (Cases01To10()[k].topPattern, Cases01To10()[k].edgePattern) !in
      [("00000001", "110011110010"), ("00000100", "110010110011"),
       ("10000000", "010011110011"), ("00100000", "110011010011")]
  {
  }

  /** OLL03's orientations, read off the first three groups of the catalog. */
  lemma Oll03EarlyApart(j: nat)
    requires j == 2
    ensures Apart(Group(0), 0, j, Turns(Cases01To10()[j].topPattern, Cases01To10()[j].edgePattern))
    ensures Apart(Group(1), 10, j, Turns(Cases01To10()[j].topPattern, Cases01To10()[j].edgePattern))
    ensures Apart(Group(2), 20, j, Turns(Cases01To10()[j].topPattern, Cases01To10()[j].edgePattern))
  {
    assert Cases01To10()[j] == Oll03;
    Orbit03IsTurns();
    Orbit03EarlyApart();
  }

  /** No case before OLL03 has one of its orientations. */
  lemma Oll03Apart(j: nat)
    requires j == 2
    ensures ApartFrom(0, j, Turns(Cases01To10()[j].topPattern, Cases01To10()[j].edgePattern))
  {
    Oll03EarlyApart(j);
    var orbit := Turns(Cases01To10()[j].topPattern, Cases01To10()[j].edgePattern);
    assert ApartFrom(5, j, orbit);
    assert ApartFrom(4, j, orbit);
    assert ApartFrom(3, j, orbit);
    assert ApartFrom(2, j, orbit);
    assert ApartFrom(1, j, orbit);
    assert ApartFrom(0, j, orbit);
  }

  /** The four orientations of OLL04, at 0, 90, 180 and 270 degrees. */
  lemma Orbit04IsTurns()
    ensures Turns(Oll04.topPattern, Oll04.edgePattern) ==
      [("00100000", "010110011110"), ("00000001", "011110010110"),
       ("00000100", "011110011010"), ("10000000", "011010011110")]
  {
    assert RotateTop("00100000") == "00000001";
    assert RotateEdge("010110011110") == "011110010110";
    assert RotateTop("00000001") == "00000100";
    assert RotateEdge("011110010110") == "011110011010";
    assert RotateTop("00000100") == "10000000";
    assert RotateEdge("011110011010") == "011010011110";
  }

  /** No case of OLL01 to OLL03 before OLL04 has one of its orientations. */
  lemma Orbit04EarlyApart()
    ensures forall k :: 0 <= k < 3 ==>
      (Cases01To10()[k].topPattern, Cases01To10()[k].edgePattern) !in
      [("00100000", "010110011110"), ("00000001", "011110010110"),
       ("00000100", "011110011010"), ("10000000", "011010011110")]
  {
  }

  /** OLL04's orientations, read off the first three groups of the catalog. */
  lemma Oll04EarlyApart(j: nat)
    requires j == 3
    ensures Apart(Group(0), 0, j, Turns(Cases01To10()[j].topPattern, Cases01To10()[j].edgePattern))
    ensures Apart(Group(1), 10, j, Turns(Cases01To10()[j].topPattern, Cases01To10()[j].edgePattern))
    ensures Apart(Group(2), 20, j, Turns(Cases01To10()[j].topPattern, Cases01To10()[j].edgePattern))
  {
    assert Cases01To10()[j] == Oll04;
    Orbit04IsTurns();
    Orbit04EarlyApart();
  }

  /** No case before OLL04 has one of its orientations. */
  lemma Oll04Apart(j: nat)
    requires j == 3
    ensures ApartFrom(0, j, Turns(Cases01To10()[j].topPattern, Cases01To10()[j].edgePattern))
  {
    Oll04EarlyApart(j);
    var orbit := Turns(Cases01To10()[j].topPattern, Cases01To10()[j].edgePattern);
    assert ApartFrom(5, j, orbit);
    assert ApartFrom(4, j, orbit);
    assert ApartFrom(3, j, orbit);
    assert ApartFrom(2, j, orbit);
    assert ApartFrom(1, j, orbit);
    assert ApartFrom(0, j, orbit);
  }

  /** The four orientations of OLL05, at 0, 90, 180 and 270 degrees. */
  lemma Orbit05IsTurns()
    ensures Turns(Oll05.topPattern, Oll05.edgePattern) ==
      [("00001011", "110011100000"), ("00010110", "110000110001"),
       ("11010000", "000001110011"), ("01101000", "100011000011")]
  {
    assert RotateTop("00001011") == "00010110";
    assert RotateEdge("110011100000") == "110000110001";
    assert RotateTop("00010110") == "11010000";
    assert RotateEdge("110000110001") == "000001110011";
    assert RotateTop("11010000") == "01101000";
    assert RotateEdge("000001110011") == "100011000011";
  }

  /** No case of OLL01 to OLL04 before OLL05 has one of its orientations. */
  lemma Orbit05EarlyApart()
    ensures forall k :: 0 <= k < 4 ==>
      (Cases01To10()[k].topPattern, Cases01To10()[k].edgePattern) !in
      [("00001011", "110011100000"), ("00010110", "110000110001"),
       ("11010000", "000001110011"), ("01101000", "100011000011")]
  {
  }

  /** OLL05's orientations, read off the first three groups of the catalog. */
  lemma Oll05EarlyApart(j: nat)
    requires j == 4
    ensures Apart(Group(0), 0, j, Turns(Cases01To10()[j].topPattern, Cases01To10()[j].edgePattern))
    ensures Apart(Group(1), 10, j, Turns(Cases01To10()[j].topPattern, Cases01To10()[j].edgePattern))
    ensures Apart(Group(2), 20, j, Turns(Cases01To10()[j].topPattern, Cases01To10()[j].edgePattern))
  {
    assert Cases01To10()[j] == Oll05;
    Orbit05IsTurns();
    Orbit05EarlyApart();
  }

  /** No case before OLL05 has one of its orientations. */
  lemma Oll05Apart(j: nat)
    requires j == 4
    ensures ApartFrom(0, j, Turns(Cases01To10()[j].topPattern, Cases01To10()[j].edgePattern))
  {
    Oll05EarlyApart(j);
    var orbit := Turns(Cases01To10()[j].topPattern, Cases01To10()[j].edgePattern);
    assert ApartFrom(5, j, orbit);
    assert ApartFrom(4, j, orbit);
    assert ApartFrom(3, j, orbit);
    assert ApartFrom(2, j, orbit);
    assert ApartFrom(1, j, orbit);
    assert ApartFrom(0, j, orbit);
  }

  /** The four orientations of OLL06, at 0, 90, 180 and 270 degrees. */
  lemma Orbit06IsTurns()
    ensures Turns(Oll06.topPattern, Oll06.edgePattern) ==
      [("01101000", "000110001110"), ("00001011", "011110000100"),
       ("00010110", "011100011000"), ("11010000", "001000011110")]
  {
    assert RotateTop("01101000") == "00001011";
    assert RotateEdge("000110001110") == "011110000100";
    assert RotateTop("00001011") == "00010110";
    assert RotateEdge("011110000100") == "011100011000";
    assert RotateTop("00010110") == "11010000";
    assert RotateEdge("011100011000") == "001000011110";
  }

  /** No case of OLL01 to OLL05 before OLL06 has one of its orientations. */
  lemma Orbit06EarlyApart()
    ensures forall k :: 0 <= k < 5 ==>
      (Cases01To10()[k].topPattern, Cases01To10()[k].edgePattern) !in
      [("01101000", "000110001110"), ("00001011", "011110000100"),
       ("00010110", "011100011000"), ("11010000", "001000011110")]
  {
  }

  /** OLL06's orientations, read off the first three groups of the catalog. */
  lemma Oll06EarlyApart(j: nat)
    requires j == 5
    ensures Apart(Group(0), 0, j, Turns(Cases01To10()[j].topPattern, Cases01To10()[j].edgePattern))
    ensures Apart(Group(1), 10, j, Turns(Cases01To10()[j].topPattern, Cases01To10()[j].edgePattern))
    ensures Apart(Group(2), 20, j, Turns(Cases01To10()[j].topPattern, Cases01To10()[j].edgePattern))
  {
    assert Cases01To10()[j] == Oll06;
    Orbit06IsTurns();
    Orbit06EarlyApart();
  }

  /** No case before OLL06 has one of its orientations. */
  lemma Oll06Apart(j: nat)
    requires j == 5
    ensures ApartFrom(0, j, Turns(Cases01To10()[j].topPattern, Cases01To10()[j].edgePattern))
  {
    Oll06EarlyApart(j);
    var orbit := Turns(Cases01To10()[j].topPattern, Cases01To10()[j].edgePattern);
    assert ApartFrom(5, j, orbit);
    assert ApartFrom(4, j, orbit);
    assert ApartFrom(3, j, orbit);
    assert ApartFrom(2, j, orbit);
    assert ApartFrom(1, j, orbit);
    assert ApartFrom(0, j, orbit);
  }

  /** The four orientations of OLL07, at 0, 90, 180 and 270 degrees. */
  lemma Orbit07IsTurns()
    ensures Turns(Oll07.topPattern, Oll07.edgePattern) ==
      [("01010100", "100000110011"), ("11001000", "000011100011"),
       ("00101010", "110011000001"), ("00010011", "110001110000")]
  {
    assert RotateTop("01010100") == "11001000";
    assert RotateEdge("100000110011") == "000011100011";
    assert RotateTop("11001000") == "00101010";
    assert RotateEdge("000011100011") == "110011000001";
    assert RotateTop("00101010") == "00010011";
    assert RotateEdge("110011000001") == "110001110000";
  }

  /** No case of OLL01 to OLL06 before OLL07 has one of its orientations. */
  lemma Orbit07EarlyApart()
    ensures forall k :: 0 <= k < 6 ==>
      (Cases01To10()[k].topPattern, Cases01To10()[k].edgePattern) !in
      [("01010100", "100000110011"), ("11001000", "000011100011"),
       ("00101010", "110011000001"), ("00010011", "110001110000")]
  {
  }

  /** OLL07's orientations, read off the first three groups of the catalog. */
  lemma Oll07EarlyApart(j: nat)
    requires j == 6
    ensures Apart(Group(0), 0, j, Turns(Cases01To10()[j].topPattern, Cases01To10()[j].edgePattern))
    ensures Apart(Group(1), 10, j, Turns(Cases01To10()[j].topPattern, Cases01To10()[j].edgePattern))
    ensures Apart(Group(2), 20, j, Turns(Cases01To10()[j].topPattern, Cases01To10()[j].edgePattern))
  {
    assert Cases01To10()[j] == Oll07;
    Orbit07IsTurns();
    Orbit07EarlyApart();
  }

  /** No case before OLL07 has one of its orientations. */
  lemma Oll07Apart(j: nat)
    requires j == 6
    ensures ApartFrom(0, j, Turns(Cases01To10()[j].topPattern, Cases01To10()[j].edgePattern))
  {
    Oll07EarlyApart(j);
    var orbit := Turns(Cases01To10()[j].topPattern, Cases01To10()[j].edgePattern);
    assert ApartFrom(5, j, orbit);
    assert ApartFrom(4, j, orbit);
    assert ApartFrom(3, j, orbit);
    assert ApartFrom(2, j, orbit);
    assert ApartFrom(1, j, orbit);
    assert ApartFrom(0, j, orbit);
  }

  /** The four orientations of OLL08, at 0, 90, 180 and 270 degrees. */
  lemma Orbit08IsTurns()
    ensures Turns(Oll08.topPattern, Oll08.edgePattern) ==
      [("10010010", "011000011100"), ("01110000", "000100011110"),
       ("01001001", "001110000110"), ("00001110", "011110001000")]
  {
    assert RotateTop("10010010") == "01110000";
    assert RotateEdge("011000011100") == "000100011110";
    assert RotateTop("01110000") == "01001001";
    assert RotateEdge("000100011110") == "001110000110";
    assert RotateTop("01001001") == "00001110";
    assert RotateEdge("001110000110") == "011110001000";
  }

  /** No case of OLL01 to OLL07 before OLL08 has one of its orientations. */
  lemma Orbit08EarlyApart()
    ensures forall k :: 0 <= k < 7 ==>
      (Cases01To10()[k].topPattern, Cases01To10()[k].edgePattern) !in
      [("10010010", "011000011100"), ("01110000", "000100011110"),
       ("01001001", "001110000110"), ("00001110", "011110001000")]
  {
  }

  /** OLL08's orientations, read off the first three groups of the catalog. */
  lemma Oll08EarlyApart(j: nat)
    requires j == 7
    ensures Apart(Group(0), 0, j, Turns(Cases01To10()[j].topPattern, Cases01To10()[j].edgePattern))
    ensures Apart(Group(1), 10, j, Turns(Cases01To10()[j].topPattern, Cases01To10()[j].edgePattern))
    ensures Apart(Group(2), 20, j, Turns(Cases01To10()[j].topPattern, Cases01To10()[j].edgePattern))
  {
    assert Cases01To10()[j] == Oll08;
    Orbit08IsTurns();
    Orbit08EarlyApart();
  }

  /** No case before OLL08 has one of its orientations. */
  lemma Oll08Apart(j: nat)
    requires j == 7
    ensures ApartFrom(0, j, Turns(Cases01To10()[j].topPattern, Cases01To10()[j].edgePattern))
  {
    Oll08EarlyApart(j);
    var orbit := Turns(Cases01To10()[j].topPattern, Cases01To10()[j].edgePattern);
    assert ApartFrom(5, j, orbit);
    assert ApartFrom(4, j, orbit);
    assert ApartFrom(3, j, orbit);
    assert ApartFrom(2, j, orbit);
    assert ApartFrom(1, j, orbit);
    assert ApartFrom(0, j, orbit);
  }

  /** The four orientations of OLL09, at 0, 90, 180 and 270 degrees. */
  lemma Orbit09IsTurns()
    ensures Turns(Oll09.topPattern, Oll09.edgePattern) ==
      [("01010001", "001100010110"), ("01001100", "001110001010"),
       ("10001010", "011010001100"), ("00110010", "010100011100")]
  {
    assert RotateTop("01010001") == "01001100";
    assert RotateEdge("001100010110") == "001110001010";
    assert RotateTop("01001100") == "10001010";
    assert RotateEdge("001110001010") == "011010001100";
    assert RotateTop("10001010") == "00110010";
    assert RotateEdge("011010001100") == "010100011100";
  }

  /** No case of OLL01 to OLL08 before OLL09 has one of its orientations. */
  lemma Orbit09EarlyApart()
    ensures forall k :: 0 <= k < 8 ==>
      (Cases01To10()[k].topPattern, Cases01To10()[k].edgePattern) !in
      [("01010001", "001100010110"), ("01001100", "001110001010"),
       ("10001010", "011010001100"), ("00110010", "010100011100")]
  {
  }

  /** OLL09's orientations, read off the first three groups of the catalog. */
  lemma Oll09EarlyApart(j: nat)
    requires j == 8
    ensures Apart(Group(0), 0, j, Turns(Cases01To10()[j].topPattern, Cases01To10()[j].edgePattern))
    ensures Apart(Group(1), 10, j, Turns(Cases01To10()[j].topPattern, Cases01To10()[j].edgePattern))
    ensures Apart(Group(2), 20, j, Turns(Cases01To10()[j].topPattern, Cases01To10()[j].edgePattern))
  {
    assert Cases01To10()[j] == Oll09;
    Orbit09IsTurns();
    Orbit09EarlyApart();
  }

  /** No case before OLL09 has one of its orientations. */
  lemma Oll09Apart(j: nat)
    requires j == 8
    ensures ApartFrom(0, j, Turns(Cases01To10()[j].topPattern, Cases01To10()[j].edgePattern))
  {
    Oll09EarlyApart(j);
    var orbit := Turns(Cases01To10()[j].topPattern, Cases01To10()[j].edgePattern);
    assert ApartFrom(5, j, orbit);
    assert ApartFrom(4, j, orbit);
    assert ApartFrom(3, j, orbit);
    assert ApartFrom(2, j, orbit);
    assert ApartFrom(1, j, orbit);
    assert ApartFrom(0, j, orbit);
  }

  /** The four orientations of OLL10, at 0, 90, 180 and 270 degrees. */
  lemma Orbit10IsTurns()
    ensures Turns(Oll10.topPattern, Oll10.edgePattern) ==
      [("00110010", "110001010001"), ("01010001", "100001110010"),
       ("01001100", "100010100011"), ("10001010", "010011100001")]
  {
    assert RotateTop("00110010") == "01010001";
    assert RotateEdge("110001010001") == "100001110010";
    assert RotateTop("01010001") == "01001100";
    assert RotateEdge("100001110010") == "100010100011";
    assert RotateTop("01001100") == "10001010";
    assert RotateEdge("100010100011") == "010011100001";
  }

  /** No case of OLL01 to OLL09 before OLL10 has one of its orientations. */
  lemma Orbit10EarlyApart()
    ensures forall k :: 0 <= k < 9 ==>
      (Cases01To10()[k].topPattern, Cases01To10()[k].edgePattern) !in
      [("00110010", "110001010001"), ("01010001", "100001110010"),
       ("01001100", "100010100011"), ("10001010", "010011100001")]
  {
  }

  /** OLL10's orientations, read off the first three groups of the catalog. */
  lemma Oll10EarlyApart(j: nat)
    requires j == 9
    ensures Apart(Group(0), 0, j, Turns(Cases01To10()[j].topPattern, Cases01To10()[j].edgePattern))
    ensures Apart(Group(1), 10, j, Turns(Cases01To10()[j].topPattern, Cases01To10()[j].edgePattern))
    ensures Apart(Group(2), 20, j, Turns(Cases01To10()[j].topPattern, Cases01To10()[j].edgePattern))
  {
    assert Cases01To10()[j] == Oll10;
    Orbit10IsTurns();
    Orbit10EarlyApart();
  }

  /** No case before OLL10 has one of its orientations. */
  lemma Oll10Apart(j: nat)
    requires j == 9
    ensures ApartFrom(0, j, Turns(Cases01To10()[j].topPattern, Cases01To10()[j].edgePattern))
  {
    Oll10EarlyApart(j);
    var orbit := Turns(Cases01To10()[j].topPattern, Cases01To10()[j].edgePattern);
    assert ApartFrom(5, j, orbit);
    assert ApartFrom(4, j, orbit);
    assert ApartFrom(3, j, orbit);
    assert ApartFrom(2, j, orbit);
    assert ApartFrom(1, j, orbit);
    assert ApartFrom(0, j, orbit);
  }

  /** The four orientations of OLL11, at 0, 90, 180 and 270 degrees. */
  lemma Orbit11IsTurns()
    ensures Turns(Oll11.topPattern, Oll11.edgePattern) ==
      [("00001110", "110010100001"), ("10010010", "010001110001"),
       ("01110000", "100001010011"), ("01001001", "100011100010")]
  {
    assert RotateTop("00001110") == "10010010";
    assert RotateEdge("110010100001") == "010001110001";
    assert RotateTop("10010010") == "01110000";
    assert RotateEdge("010001110001") == "100001010011";
    assert RotateTop("01110000") == "01001001";
    assert RotateEdge("100001010011") == "100011100010";
  }

  /** No case of OLL01 to OLL10 before OLL11 has one of its orientations. */
  lemma Orbit11EarlyApart()
    ensures forall k :: 0 <= k < 10 ==>
      (Cases01To10()[k].topPattern, Cases01To10()[k].edgePattern) !in
      [("00001110", "110010100001"), ("10010010", "010001110001"),
       ("01110000", "100001010011"), ("01001001", "100011100010")]
  {
  }

  /** OLL11's orientations, read off the first three groups of the catalog. */
  lemma Oll11EarlyApart(j: nat)
    requires j == 10
    ensures Apart(Group(0), 0, j, Turns(Cases11To20()[j - 10].topPattern, Cases11To20()[j - 10].edgePattern))
    ensures Apart(Group(1), 10, j, Turns(Cases11To20()[j - 10].topPattern, Cases11To20()[j - 10].edgePattern))
    ensures Apart(Group(2), 20, j, Turns(Cases11To20()[j - 10].topPattern, Cases11To20()[j - 10].edgePattern))
  {
    assert Cases11To20()[j - 10] == Oll11;
    Orbit11IsTurns();
    Orbit11EarlyApart();
  }

  /** No case before OLL11 has one of its orientations. */
  lemma Oll11Apart(j: nat)
    requires j == 10
    ensures ApartFrom(0, j, Turns(Cases11To20()[j - 10].topPattern, Cases11To20()[j - 10].edgePattern))
  {
    Oll11EarlyApart(j);
    var orbit := Turns(Cases11To20()[j - 10].topPattern, Cases11To20()[j - 10].edgePattern);
    assert ApartFrom(5, j, orbit);
    assert ApartFrom(4, j, orbit);
    assert ApartFrom(3, j, orbit);
    assert ApartFrom(2, j, orbit);
    assert ApartFrom(1, j, orbit);
    assert ApartFrom(0, j, orbit);
  }

  /** The four orientations of OLL12, at 0, 90, 180 and 270 degrees. */
  lemma Orbit12IsTurns()
    ensures Turns(Oll12.topPattern, Oll12.edgePattern) ==
      [("00010011", "011100010100"), ("01010100", "001100011010"),
       ("11001000", "001010001110"), ("00101010", "010110001100")]
  {
    assert RotateTop("00010011") == "01010100";
    assert RotateEdge("011100010100") == "001100011010";
    assert RotateTop("01010100") == "11001000";
    assert RotateEdge("001100011010") == "001010001110";
    assert RotateTop("11001000") == "00101010";
    assert RotateEdge("001010001110") == "010110001100";
  }

  /** No case of OLL01 to OLL11 before OLL12 has one of its orientations. */
  lemma Orbit12EarlyApart()
    ensures forall k :: 0 <= k < 10 ==>
      (Cases01To10()[k].topPattern, Cases01To10()[k].edgePattern) !in
      [("00010011", "011100010100"), ("01010100", "001100011010"),
       ("11001000", "001010001110"), ("00101010", "010110001100")]
    ensures forall k :: 0 <= k < 1 ==>
      (Cases11To20()[k].topPattern, Cases11To20()[k].edgePattern) !in
      [("00010011", "011100010100"), ("01010100", "001100011010"),
       ("11001000", "001010001110"), ("00101010", "010110001100")]
  {
  }

  /** OLL12's orientations, read off the first three groups of the catalog. */
  lemma Oll12EarlyApart(j: nat)
    requires j == 11
    ensures Apart(Group(0), 0, j, Turns(Cases11To20()[j - 10].topPattern, Cases11To20()[j - 10].edgePattern))
    ensures Apart(Group(1), 10, j, Turns(Cases11To20()[j - 10].topPattern, Cases11To20()[j - 10].edgePattern))
    ensures Apart(Group(2), 20, j, Turns(Cases11To20()[j - 10].topPattern, Cases11To20()[j - 10].edgePattern))
  {
    assert Cases11To20()[j - 10] == Oll12;
    Orbit12IsTurns();
    Orbit12EarlyApart();
  }

  /** No case before OLL12 has one of its orientations. */
  lemma Oll12Apart(j: nat)
    requires j == 11
    ensures ApartFrom(0, j, Turns(Cases11To20()[j - 10].topPattern, Cases11To20()[j - 10].edgePattern))
  {
    Oll12EarlyApart(j);
    var orbit := Turns(Cases11To20()[j - 10].topPattern, Cases11To20()[j - 10].edgePattern);
    assert ApartFrom(5, j, orbit);
    assert ApartFrom(4, j, orbit);
    assert ApartFrom(3, j, orbit);
    assert ApartFrom(2, j, orbit);
    assert ApartFrom(1, j, orbit);
    assert ApartFrom(0, j, orbit);
  }

  /** The four orientations of OLL13, at 0, 90, 180 and 270 degrees. */
  lemma Orbit13IsTurns()
    ensures Turns(Oll13.topPattern, Oll13.edgePattern) ==
      [("00011100", "110000100011"), ("11000010", "000011110001"),
       ("00111000", "110001000011"), ("01000011", "100011110000")]
  {
    assert RotateTop("00011100") == "11000010";
    assert RotateEdge("110000100011") == "000011110001";
    assert RotateTop("11000010") == "00111000";
    assert RotateEdge("000011110001") == "110001000011";
    assert RotateTop("00111000") == "01000011";
    assert RotateEdge("110001000011") == "100011110000";
  }

  /** No case of OLL01 to OLL12 before OLL13 has one of its orientations. */
  lemma Orbit13EarlyApart()
    ensures forall k :: 0 <= k < 10 ==>
      (Cases01To10()[k].topPattern, Cases01To10()[k].edgePattern) !in
      [("00011100", "110000100011"), ("11000010", "000011110001"),
       ("00111000", "110001000011"), ("01000011", "100011110000")]
    ensures forall k :: 0 <= k < 2 ==>
      (Cases11To20()[k].topPattern, Cases11To20()[k].edgePattern) !in
      [("00011100", "110000100011"), ("11000010", "000011110001"),
       ("00111000", "110001000011"), ("01000011", "100011110000")]
  {
  }

  /** OLL13's orientations, read off the first three groups of the catalog. */
  lemma Oll13EarlyApart(j: nat)
    requires j == 12
    ensures Apart(Group(0), 0, j, Turns(Cases11To20()[j - 10].topPattern, Cases11To20()[j - 10].edgePattern))
    ensures Apart(Group(1), 10, j, Turns(Cases11To20()[j - 10].topPattern, Cases11To20()[j - 10].edgePattern))
    ensures Apart(Group(2), 20, j, Turns(Cases11To20()[j - 10].topPattern, Cases11To20()[j - 10].edgePattern))
  {
    assert Cases11To20()[j - 10] == Oll13;
    Orbit13IsTurns();
    Orbit13EarlyApart();
  }

  /** No case before OLL13 has one of its orientations. */
  lemma Oll13Apart(j: nat)
    requires j == 12
    ensures ApartFrom(0, j, Turns(Cases11To20()[j - 10].topPattern, Cases11To20()[j - 10].edgePattern))
  {
    Oll13EarlyApart(j);
    var orbit := Turns(Cases11To20()[j - 10].topPattern, Cases11To20()[j - 10].edgePattern);
    assert ApartFrom(5, j, orbit);
    assert ApartFrom(4, j, orbit);
    assert ApartFrom(3, j, orbit);
    assert ApartFrom(2, j, orbit);
    assert ApartFrom(1, j, orbit);
    assert ApartFrom(0, j, orbit);
  }

  /** The four orientations of OLL14, at 0, 90, 180 and 270 degrees. */
  lemma Orbit14IsTurns()
    ensures Turns(Oll14.topPattern, Oll14.edgePattern) ==
      [("00011001", "011100000110"), ("01000110", "001110011000"),
       ("10011000", "011000001110"), ("01100010", "000110011100")]
  {
    assert RotateTop("00011001") == "01000110";
    assert RotateEdge("011100000110") == "001110011000";
    assert RotateTop("01000110") == "10011000";
    assert RotateEdge("001110011000") == "011000001110";
    assert RotateTop("10011000") == "01100010";
    assert RotateEdge("011000001110") == "000110011100";
  }

  /** No case of OLL01 to OLL13 before OLL14 has one of its orientations. */
  lemma Orbit14EarlyApart()
    ensures forall k :: 0 <= k < 10 ==>
      (Cases01To10()[k].topPattern, Cases01To10()[k].edgePattern) !in
      [("00011001", "011100000110"), ("01000110", "001110011000"),
       ("10011000", "011000001110"), ("01100010", "000110011100")]
    ensures forall k :: 0 <= k < 3 ==>
      (Cases11To20()[k].topPattern, Cases11To20()[k].edgePattern) !in
      [("00011001", "011100000110"), ("01000110", "001110011000"),
       ("10011000", "011000001110"), ("01100010", "000110011100")]
  {
  }

  /** OLL14's orientations, read off the first three groups of the catalog. */
  lemma Oll14EarlyApart(j: nat)
    requires j == 13
    ensures Apart(Group(0), 0, j, Turns(Cases11To20()[j - 10].topPattern, Cases11To20()[j - 10].edgePattern))
    ensures Apart(Group(1), 10, j, Turns(Cases11To20()[j - 10].topPattern, Cases11To20()[j - 10].edgePattern))
    ensures Apart(Group(2), 20, j, Turns(Cases11To20()[j - 10].topPattern, Cases11To20()[j - 10].edgePattern))
  {
    assert Cases11To20()[j - 10] == Oll14;
    Orbit14IsTurns();
    Orbit14EarlyApart();
  }

  /** No case before OLL14 has one of its orientations. */
  lemma Oll14Apart(j: nat)
    requires j == 13
    ensures ApartFrom(0, j, Turns(Cases11To20()[j - 10].topPattern, Cases11To20()[j - 10].edgePattern))
  {
    Oll14EarlyApart(j);
    var orbit := Turns(Cases11To20()[j - 10].topPattern, Cases11To20()[j - 10].edgePattern);
    assert ApartFrom(5, j, orbit);
    assert ApartFrom(4, j, orbit);
    assert ApartFrom(3, j, orbit);
    assert ApartFrom(2, j, orbit);
    assert ApartFrom(1, j, orbit);
    assert ApartFrom(0, j, orbit);
  }

  /** The four orientations of OLL15, at 0, 90, 180 and 270 degrees. */
  lemma Orbit15IsTurns()
    ensures Turns(Oll15.topPattern, Oll15.edgePattern) ==
      [("00011001", "110001100010"), ("01000110", "100010110001"),
       ("10011000", "010001100011"), ("01100010", "100011010001")]
  {
    assert RotateTop("00011001") == "01000110";
    assert RotateEdge("110001100010") == "100010110001";
    assert RotateTop("01000110") == "10011000";
    assert RotateEdge("100010110001") == "010001100011";
    assert RotateTop("10011000") == "01100010";
    assert RotateEdge("010001100011") == "100011010001";
  }

  /** No case of OLL01 to OLL14 before OLL15 has one of its orientations. */
  lemma Orbit15EarlyApart()
    ensures forall k :: 0 <= k < 10 ==>
      (Cases01To10()[k].topPattern, Cases01To10()[k].edgePattern) !in
      [("00011001", "110001100010"), ("01000110", "100010110001"),
       ("10011000", "010001100011"), ("01100010", "100011010001")]
    ensures forall k :: 0 <= k < 4 ==>
      (Cases11To20()[k].topPattern, Cases11To20()[k].edgePattern) !in
      [("00011001", "110001100010"), ("01000110", "100010110001"),
       ("10011000", "010001100011"), ("01100010", "100011010001")]
  {
  }

  /** OLL15's orientations, read off the first three groups of the catalog. */
  lemma Oll15EarlyApart(j: nat)
    requires j == 14
    ensures Apart(Group(0), 0, j, Turns(Cases11To20()[j - 10].topPattern, Cases11To20()[j - 10].edgePattern))
    ensures Apart(Group(1), 10, j, Turns(Cases11To20()[j - 10].topPattern, Cases11To20()[j - 10].edgePattern))
    ensures Apart(Group(2), 20, j, Turns(Cases11To20()[j - 10].topPattern, Cases11To20()[j - 10].edgePattern))
  {
    assert Cases11To20()[j - 10] == Oll15;
    Orbit15IsTurns();
    Orbit15EarlyApart();
  }

  /** No case before OLL15 has one of its orientations. */
  lemma Oll15Apart(j: nat)
    requires j == 14
    ensures ApartFrom(0, j, Turns(Cases11To20()[j - 10].topPattern, Cases11To20()[j - 10].edgePattern))
  {
    Oll15EarlyApart(j);
    var orbit := Turns(Cases11To20()[j - 10].topPattern, Cases11To20()[j - 10].edgePattern);
    assert ApartFrom(5, j, orbit);
    assert ApartFrom(4, j, orbit);
    assert ApartFrom(3, j, orbit);
    assert ApartFrom(2, j, orbit);
    assert ApartFrom(1, j, orbit);
    assert ApartFrom(0, j, orbit);
  }

  /** The four orientations of OLL16, at 0, 90, 180 and 270 degrees. */
  lemma Orbit16IsTurns()
    ensures Turns(Oll16.topPattern, Oll16.edgePattern) ==
      [("00111000", "010100001110"), ("01000011", "001110010100"),
       ("00011100", "011100001010"), ("11000010", "001010011100")]
  {
    assert RotateTop("00111000") == "01000011";
    assert RotateEdge("010100001110") == "001110010100";
    assert RotateTop("01000011") == "00011100";
    assert RotateEdge("001110010100") == "011100001010";
    assert RotateTop("00011100") == "11000010";
    assert RotateEdge("011100001010") == "001010011100";
  }

  /** No case of OLL01 to OLL15 before OLL16 has one of its orientations. */
  lemma Orbit16EarlyApart()
    ensures forall k :: 0 <= k < 10 ==>
      (Cases01To10()[k].topPattern, Cases01To10()[k].edgePattern) !in
      [("00111000", "010100001110"), ("01000011", "001110010100"),
       ("00011100", "011100001010"), ("11000010", "001010011100")]
    ensures forall k :: 0 <= k < 5 ==>
      (Cases11To20()[k].topPattern, Cases11To20()[k].edgePattern) !in
      [("00111000", "010100001110"), ("01000011", "001110010100"),
       ("00011100", "011100001010"), ("11000010", "001010011100")]
  {
  }

  /** OLL16's orientations, read off the first three groups of the catalog. */
  lemma Oll16EarlyApart(j: nat)
    requires j == 15
    ensures Apart(Group(0), 0, j, Turns(Cases11To20()[j - 10].topPattern, Cases11To20()[j - 10].edgePattern))
    ensures Apart(Group(1), 10, j, Turns(Cases11To20()[j - 10].topPattern, Cases11To20()[j - 10].edgePattern))
    ensures Apart(Group(2), 20, j, Turns(Cases11To20()[j - 10].topPattern, Cases11To20()[j - 10].edgePattern))
  {
    assert Cases11To20()[j - 10] == Oll16;
    Orbit16IsTurns();
    Orbit16EarlyApart();
  }

  /** No case before OLL16 has one of its orientations. */
  lemma Oll16Apart(j: nat)
    requires j == 15
    ensures ApartFrom(0, j, Turns(Cases11To20()[j - 10].topPattern, Cases11To20()[j - 10].edgePattern))
  {
    Oll16EarlyApart(j);
    var orbit := Turns(Cases11To20()[j - 10].topPattern, Cases11To20()[j - 10].edgePattern);
    assert ApartFrom(5, j, orbit);
    assert ApartFrom(4, j, orbit);
    assert ApartFrom(3, j, orbit);
    assert ApartFrom(2, j, orbit);
    assert ApartFrom(1, j, orbit);
    assert ApartFrom(0, j, orbit);
  }

  /** The four orientations of OLL17, at 0, 90, 180 and 270 degrees. */
  lemma Orbit17IsTurns()
    ensures Turns(Oll17.topPattern, Oll17.edgePattern) ==
      [("10000001", "011011010010"), ("00100100", "110010011010"),
       ("10000001", "010010110110"), ("00100100", "010110010011")]
  {
    assert RotateTop("10000001") == "00100100";
    assert RotateEdge("011011010010") == "110010011010";
    assert RotateTop("00100100") == "10000001";
    assert RotateEdge("110010011010") == "010010110110";
    assert RotateEdge("010010110110") == "010110010011";
  }

  /** No case of OLL01 to OLL16 before OLL17 has one of its orientations. */
  lemma Orbit17EarlyApart()
    ensures forall k :: 0 <= k < 10 ==>
      (Cases01To10()[k].topPattern, Cases01To10()[k].edgePattern) !in
      [("10000001", "011011010010"), ("00100100", "110010011010"),
       ("10000001", "010010110110"), ("00100100", "010110010011")]
    ensures forall k :: 0 <= k < 6 ==>
      (Cases11To20()[k].topPattern, Cases11To20()[k].edgePattern) !in
      [("10000001", "011011010010"), ("00100100", "110010011010"),
       ("10000001", "010010110110"), ("00100100", "010110010011")]
  {
  }

  /** OLL17's orientations, read off the first three groups of the catalog. */
  lemma Oll17EarlyApart(j: nat)
    requires j == 16
    ensures Apart(Group(0), 0, j, Turns(Cases11To20()[j - 10].topPattern, Cases11To20()[j - 10].edgePattern))
    ensures Apart(Group(1), 10, j, Turns(Cases11To20()[j - 10].topPattern, Cases11To20()[j - 10].edgePattern))
    ensures Apart(Group(2), 20, j, Turns(Cases11To20()[j - 10].topPattern, Cases11To20()[j - 10].edgePattern))
  {
    assert Cases11To20()[j - 10] == Oll17;
    Orbit17IsTurns();
    Orbit17EarlyApart();
  }

  /** No case before OLL17 has one of its orientations. */
  lemma Oll17Apart(j: nat)
    requires j == 16
    ensures ApartFrom(0, j, Turns(Cases11To20()[j - 10].topPattern, Cases11To20()[j - 10].edgePattern))
  {
    Oll17EarlyApart(j);
    var orbit := Turns(Cases11To20()[j - 10].topPattern, Cases11To20()[j - 10].edgePattern);
    assert ApartFrom(5, j, orbit);
    assert ApartFrom(4, j, orbit);
    assert ApartFrom(3, j, orbit);
    assert ApartFrom(2, j, orbit);
    assert ApartFrom(1, j, orbit);
    assert ApartFrom(0, j, orbit);
  }

  /** The four orientations of OLL18, at 0, 90, 180 and 270 degrees. */
  lemma Orbit18IsTurns()
    ensures Turns(Oll18.topPattern, Oll18.edgePattern) ==
      [("00100001", "010111010010"), ("00000101", "111010010010"),
       ("10000100", "010010111010"), ("10100000", "010010010111")]
  {
    assert RotateTop("00100001") == "00000101";
    assert RotateEdge("010111010010") == "111010010010";
    assert RotateTop("00000101") == "10000100";
    assert RotateEdge("111010010010") == "010010111010";
    assert RotateTop("10000100") == "10100000";
    assert RotateEdge("010010111010") == "010010010111";
  }

  /** No case of OLL01 to OLL17 before OLL18 has one of its orientations. */
  lemma Orbit18EarlyApart()
    ensures forall k :: 0 <= k < 10 ==>
      (Cases01To10()[k].topPattern, Cases01To10()[k].edgePattern) !in
      [("00100001", "010111010010"), ("00000101", "111010010010"),
       ("10000100", "010010111010"), ("10100000", "010010010111")]
    ensures forall k :: 0 <= k < 7 ==>
      (Cases11To20()[k].topPattern, Cases11To20()[k].edgePattern) !in
      [("00100001", "010111010010"), ("00000101", "111010010010"),
       ("10000100", "010010111010"), ("10100000", "010010010111")]
  {
  }

  /** OLL18's orientations, read off the first three groups of the catalog. */
  lemma Oll18EarlyApart(j: nat)
    requires j == 17
    ensures Apart(Group(0), 0, j, Turns(Cases11To20()[j - 10].topPattern, Cases11To20()[j - 10].edgePattern))
    ensures Apart(Group(1), 10, j, Turns(Cases11To20()[j - 10].topPattern, Cases11To20()[j - 10].edgePattern))
    ensures Apart(Group(2), 20, j, Turns(Cases11To20()[j - 10].topPattern, Cases11To20()[j - 10].edgePattern))
  {
    assert Cases11To20()[j - 10] == Oll18;
    Orbit18IsTurns();
    Orbit18EarlyApart();
  }

  /** No case before OLL18 has one of its orientations. */
  lemma Oll18Apart(j: nat)
    requires j == 17
    ensures ApartFrom(0, j, Turns(Cases11To20()[j - 10].topPattern, Cases11To20()[j - 10].edgePattern))
  {
    Oll18EarlyApart(j);
    var orbit := Turns(Cases11To20()[j - 10].topPattern, Cases11To20()[j - 10].edgePattern);
    assert ApartFrom(5, j, orbit);
    assert ApartFrom(4, j, orbit);
    assert ApartFrom(3, j, orbit);
    assert ApartFrom(2, j, orbit);
    assert ApartFrom(1, j, orbit);
    assert ApartFrom(0, j, orbit);
  }

  /** The four orientations of OLL19, at 0, 90, 180 and 270 degrees. */
  lemma Orbit19IsTurns()
    ensures Turns(Oll19.topPattern, Oll19.edgePattern) ==
      [("10100000", "010011011010"), ("00100001", "110010010110"),
       ("00000101", "010110110010"), ("10000100", "011010010011")]
  {
    assert RotateTop("10100000") == "00100001";
    assert RotateEdge("010011011010") == "110010010110";
    assert RotateTop("00100001") == "00000101";
    assert RotateEdge("110010010110") == "010110110010";
    assert RotateTop("00000101") == "10000100";
    assert RotateEdge("010110110010") == "011010010011";
  }

  /** No case of OLL01 to OLL18 before OLL19 has one of its orientations. */
  lemma Orbit19EarlyApart()
    ensures forall k :: 0 <= k < 10 ==>
      (Cases01To10()[k].topPattern, Cases01To10()[k].edgePattern) !in
      [("10100000", "010011011010"), ("00100001", "110010010110"),
       ("00000101", "010110110010"), ("10000100", "011010010011")]
    ensures forall k :: 0 <= k < 8 ==>
      (Cases11To20()[k].topPattern, Cases11To20()[k].edgePattern) !in
      [("10100000", "010011011010"), ("00100001", "110010010110"),
       ("00000101", "010110110010"), ("10000100", "011010010011")]
  {
  }

  /** OLL19's orientations, read off the first three groups of the catalog. */
  lemma Oll19EarlyApart(j: nat)
    requires j == 18
    ensures Apart(Group(0), 0, j, Turns(Cases11To20()[j - 10].topPattern, Cases11To20()[j - 10].edgePattern))
    ensures Apart(Group(1), 10, j, Turns(Cases11To20()[j - 10].topPattern, Cases11To20()[j - 10].edgePattern))
    ensures Apart(Group(2), 20, j, Turns(Cases11To20()[j - 10].topPattern, Cases11To20()[j - 10].edgePattern))
  {
    assert Cases11To20()[j - 10] == Oll19;
    Orbit19IsTurns();
    Orbit19EarlyApart();
  }

  /** No case before OLL19 has one of its orientations. */
  lemma Oll19Apart(j: nat)
    requires j == 18
    ensures ApartFrom(0, j, Turns(Cases11To20()[j - 10].topPattern, Cases11To20()[j - 10].edgePattern))
  {
    Oll19EarlyApart(j);
    var orbit := Turns(Cases11To20()[j - 10].topPattern, Cases11To20()[j - 10].edgePattern);
    assert ApartFrom(5, j, orbit);
    assert ApartFrom(4, j, orbit);
    assert ApartFrom(3, j, orbit);
    assert ApartFrom(2, j, orbit);
    assert ApartFrom(1, j, orbit);
    assert ApartFrom(0, j, orbit);
  }

  /** The four orientations of OLL20, at 0, 90, 180 and 270 degrees. */
  lemma Orbit20IsTurns()
    ensures Turns(Oll20.topPattern, Oll20.edgePattern) ==
      [("10100101", "010010010010"), ("10100101", "010010010010"),
       ("10100101", "010010010010"), ("10100101", "010010010010")]
  {
    assert RotateTop("10100101") == "10100101";
    assert RotateEdge("010010010010") == "010010010010";
  }

  /** No case of OLL01 to OLL19 before OLL20 has one of its orientations. */
  lemma Orbit20EarlyApart()
    ensures forall k :: 0 <= k < 10 ==>
      (Cases01To10()[k].topPattern, Cases01To10()[k].edgePattern) !in
      [("10100101", "010010010010"), ("10100101", "010010010010"),
       ("10100101", "010010010010"), ("10100101", "010010010010")]
    ensures forall k :: 0 <= k < 9 ==>
      (Cases11To20()[k].topPattern, Cases11To20()[k].edgePattern) !in
      [("10100101", "010010010010"), ("10100101", "010010010010"),
       ("10100101", "010010010010"), ("10100101", "010010010010")]
  {
  }

  /** OLL20's orientations, read off the first three groups of the catalog. */
  lemma Oll20EarlyApart(j: nat)
    requires j == 19
    ensures Apart(Group(0), 0, j, Turns(Cases11To20()[j - 10].topPattern, Cases11To20()[j - 10].edgePattern))
    ensures Apart(Group(1), 10, j, Turns(Cases11To20()[j - 10].topPattern, Cases11To20()[j - 10].edgePattern))
    ensures Apart(Group(2), 20, j, Turns(Cases11To20()[j - 10].topPattern, Cases11To20()[j - 10].edgePattern))
  {
    assert Cases11To20()[j - 10] == Oll20;
    Orbit20IsTurns();
    Orbit20EarlyApart();
  }

  /** No case before OLL20 has one of its orientations. */
  lemma Oll20Apart(j: nat)
    requires j == 19
    ensures ApartFrom(0, j, Turns(Cases11To20()[j - 10].topPattern, Cases11To20()[j - 10].edgePattern))
  {
    Oll20EarlyApart(j);
    var orbit := Turns(Cases11To20()[j - 10].topPattern, Cases11To20()[j - 10].edgePattern);
    assert ApartFrom(5, j, orbit);
    assert ApartFrom(4, j, orbit);
    assert ApartFrom(3, j, orbit);
    assert ApartFrom(2, j, orbit);
    assert ApartFrom(1, j, orbit);
    assert ApartFrom(0, j, orbit);
  }

  /** The four orientations of OLL21, at 0, 90, 180 and 270 degrees. */
  lemma Orbit21IsTurns()
    ensures Turns(Oll21.topPattern, Oll21.edgePattern) ==
      [("01011010", "101000000101"), ("01011010", "000101101000"),
       ("01011010", "101000000101"), ("01011010", "000101101000")]
  {
    assert RotateTop("01011010") == "01011010";
    assert RotateEdge("101000000101") == "000101101000";
    assert RotateEdge("000101101000") == "101000000101";
  }

  /** No case of OLL01 to OLL20 before OLL21 has one of its orientations. */
  lemma Orbit21EarlyApart()
    ensures forall k :: 0 <= k < 10 ==>
      (Cases01To10()[k].topPattern, Cases01To10()[k].edgePattern) !in
      [("01011010", "101000000101"), ("01011010", "000101101000"),
       ("01011010", "101000000101"), ("01011010", "000101101000")]
    ensures forall k :: 0 <= k < 10 ==>
      (Cases11To20()[k].topPattern, Cases11To20()[k].edgePattern) !in
      [("01011010", "101000000101"), ("01011010", "000101101000"),
       ("01011010", "101000000101"), ("01011010", "000101101000")]
  {
  }

  /** OLL21's orientations, read off the first three groups of the catalog. */
  lemma Oll21EarlyApart(j: nat)
    requires j == 20
    ensures Apart(Group(0), 0, j, Turns(Cases21To30()[j - 20].topPattern, Cases21To30()[j - 20].edgePattern))
    ensures Apart(Group(1), 10, j, Turns(Cases21To30()[j - 20].topPattern, Cases21To30()[j - 20].edgePattern))
    ensures Apart(Group(2), 20, j, Turns(Cases21To30()[j - 20].topPattern, Cases21To30()[j - 20].edgePattern))
  {
    assert Cases21To30()[j - 20] == Oll21;
    Orbit21IsTurns();
    Orbit21EarlyApart();
  }

  /** No case before OLL21 has one of its orientations. */
  lemma Oll21Apart(j: nat)
    requires j == 20
    ensures ApartFrom(0, j, Turns(Cases21To30()[j - 20].topPattern, Cases21To30()[j - 20].edgePattern))
  {
    Oll21EarlyApart(j);
    var orbit := Turns(Cases21To30()[j - 20].topPattern, Cases21To30()[j - 20].edgePattern);
    assert ApartFrom(5, j, orbit);
    assert ApartFrom(4, j, orbit);
    assert ApartFrom(3, j, orbit);
    assert ApartFrom(2, j, orbit);
    assert ApartFrom(1, j, orbit);
    assert ApartFrom(0, j, orbit);
  }

  /** The four orientations of OLL22, at 0, 90, 180 and 270 degrees. */
  lemma Orbit22IsTurns()
    ensures Turns(Oll22.topPattern, Oll22.edgePattern) ==
      [("01011010", "001101000001"), ("01011010", "101001001000"),
       ("01011010", "100000101100"), ("01011010", "000100100101")]
  {
    assert RotateTop("01011010") == "01011010";
    assert RotateEdge("001101000001") == "101001001000";
    assert RotateEdge("101001001000") == "100000101100";
    assert RotateEdge("100000101100") == "000100100101";
  }

  /** No case of OLL01 to OLL21 before OLL22 has one of its orientations. */
  lemma Orbit22EarlyApart()
    ensures forall k :: 0 <= k < 10 ==>
      (Cases01To10()[k].topPattern, Cases01To10()[k].edgePattern) !in
      [("01011010", "001101000001"), ("01011010", "101001001000"),
       ("01011010", "100000101100"), ("01011010", "000100100101")]
    ensures forall k :: 0 <= k < 10 ==>
      (Cases11To20()[k].topPattern, Cases11To20()[k].edgePattern) !in
      [("01011010", "001101000001"), ("01011010", "101001001000"),
       ("01011010", "100000101100"), ("01011010", "000100100101")]
    ensures forall k :: 0 <= k < 1 ==>
      (Cases21To30()[k].topPattern, Cases21To30()[k].edgePattern) !in
      [("01011010", "001101000001"), ("01011010", "101001001000"),
       ("01011010", "100000101100"), ("01011010", "000100100101")]
  {
  }

  /** OLL22's orientations, read off the first three groups of the catalog. */
  lemma Oll22EarlyApart(j: nat)
    requires j == 21
    ensures Apart(Group(0), 0, j, Turns(Cases21To30()[j - 20].topPattern, Cases21To30()[j - 20].edgePattern))
    ensures Apart(Group(1), 10, j, Turns(Cases21To30()[j - 20].topPattern, Cases21To30()[j - 20].edgePattern))
    ensures Apart(Group(2), 20, j, Turns(Cases21To30()[j - 20].topPattern, Cases21To30()[j - 20].edgePattern))
  {
    assert Cases21To30()[j - 20] == Oll22;
    Orbit22IsTurns();
    Orbit22EarlyApart();
  }

  /** No case before OLL22 has one of its orientations. */
  lemma Oll22Apart(j: nat)
    requires j == 21
    ensures ApartFrom(0, j, Turns(Cases21To30()[j - 20].topPattern, Cases21To30()[j - 20].edgePattern))
  {
    Oll22EarlyApart(j);
    var orbit := Turns(Cases21To30()[j - 20].topPattern, Cases21To30()[j - 20].edgePattern);
    assert ApartFrom(5, j, orbit);
    assert ApartFrom(4, j, orbit);
    assert ApartFrom(3, j, orbit);
    assert ApartFrom(2, j, orbit);
    assert ApartFrom(1, j, orbit);
    assert ApartFrom(0, j, orbit);
  }

  /** The four orientations of OLL23, at 0, 90, 180 and 270 degrees. */
  lemma Orbit23IsTurns()
    ensures Turns(Oll23.topPattern, Oll23.edgePattern) ==
      [("01011111", "101000000000"), ("11011110", "000000101000"),
       ("11111010", "000000000101"), ("01111011", "000101000000")]
  {
    assert RotateTop("01011111") == "11011110";
    assert RotateEdge("101000000000") == "000000101000";
    assert RotateTop("11011110") == "11111010";
    assert RotateEdge("000000101000") == "000000000101";
    assert RotateTop("11111010") == "01111011";
    assert RotateEdge("000000000101") == "000101000000";
  }

  /** No case of OLL01 to OLL22 before OLL23 has one of its orientations. */
  lemma Orbit23EarlyApart()
    ensures forall k :: 0 <= k < 10 ==>
      (Cases01To10()[k].topPattern, Cases01To10()[k].edgePattern) !in
      [("01011111", "101000000000"), ("11011110", "000000101000"),
       ("11111010", "000000000101"), ("01111011", "000101000000")]
    ensures forall k :: 0 <= k < 10 ==>
      (Cases11To20()[k].topPattern, Cases11To20()[k].edgePattern) !in
      [("01011111", "101000000000"), ("11011110", "000000101000"),
       ("11111010", "000000000101"), ("01111011", "000101000000")]
    ensures forall k :: 0 <= k < 2 ==>
      (Cases21To30()[k].topPattern, Cases21To30()[k].edgePattern) !in
      [("01011111", "101000000000"), ("11011110", "000000101000"),
       ("11111010", "000000000101"), ("01111011", "000101000000")]
  {
  }

  /** OLL23's orientations, read off the first three groups of the catalog. */
  lemma Oll23EarlyApart(j: nat)
    requires j == 22
    ensures Apart(Group(0), 0, j, Turns(Cases21To30()[j - 20].topPattern, Cases21To30()[j - 20].edgePattern))
    ensures Apart(Group(1), 10, j, Turns(Cases21To30()[j - 20].topPattern, Cases21To30()[j - 20].edgePattern))
    ensures Apart(Group(2), 20, j, Turns(Cases21To30()[j - 20].topPattern, Cases21To30()[j - 20].edgePattern))
  {
    assert Cases21To30()[j - 20] == Oll23;
    Orbit23IsTurns();
    Orbit23EarlyApart();
  }

  /** No case before OLL23 has one of its orientations. */
  lemma Oll23Apart(j: nat)
    requires j == 22
    ensures ApartFrom(0, j, Turns(Cases21To30()[j - 20].topPattern, Cases21To30()[j - 20].edgePattern))
  {
    Oll23EarlyApart(j);
    var orbit := Turns(Cases21To30()[j - 20].topPattern, Cases21To30()[j - 20].edgePattern);
    assert ApartFrom(5, j, orbit);
    assert ApartFrom(4, j, orbit);
    assert ApartFrom(3, j, orbit);
    assert ApartFrom(2, j, orbit);
    assert ApartFrom(1, j, orbit);
    assert ApartFrom(0, j, orbit);
  }

  /** The four orientations of OLL24, at 0, 90, 180 and 270 degrees. */
  lemma Orbit24IsTurns()
    ensures Turns(Oll24.topPattern, Oll24.edgePattern) ==
      [("11111010", "000001001000"), ("01111011", "100000000100"),
       ("01011111", "000100100000"), ("11011110", "001000000001")]
  {
    assert RotateTop("11111010") == "01111011";
    assert RotateEdge("000001001000") == "100000000100";
    assert RotateTop("01111011") == "01011111";
    assert RotateEdge("100000000100") == "000100100000";
    assert RotateTop("01011111") == "11011110";
    assert RotateEdge("000100100000") == "001000000001";
  }

  /** No case of OLL01 to OLL23 before OLL24 has one of its orientations. */
  lemma Orbit24EarlyApart()
    ensures forall k :: 0 <= k < 10 ==>
      (Cases01To10()[k].topPattern, Cases01To10()[k].edgePattern) !in
      [("11111010", "000001001000"), ("01111011", "100000000100"),
       ("01011111", "000100100000"), ("11011110", "001000000001")]
    ensures forall k :: 0 <= k < 10 ==>
      (Cases11To20()[k].topPattern, Cases11To20()[k].edgePattern) !in
      [("11111010", "000001001000"), ("01111011", "100000000100"),
       ("01011111", "000100100000"), ("11011110", "001000000001")]
    ensures forall k :: 0 <= k < 3 ==>
      (Cases21To30()[k].topPattern, Cases21To30()[k].edgePattern) !in
      [("11111010", "000001001000"), ("01111011", "100000000100"),
       ("01011111", "000100100000"), ("11011110", "001000000001")]
  {
  }

  /** OLL24's orientations, read off the first three groups of the catalog. */
  lemma Oll24EarlyApart(j: nat)
    requires j == 23
    ensures Apart(Group(0), 0, j, Turns(Cases21To30()[j - 20].topPattern, Cases21To30()[j - 20].edgePattern))
    ensures Apart(Group(1), 10, j, Turns(Cases21To30()[j - 20].topPattern, Cases21To30()[j - 20].edgePattern))
    ensures Apart(Group(2), 20, j, Turns(Cases21To30()[j - 20].topPattern, Cases21To30()[j - 20].edgePattern))
  {
    assert Cases21To30()[j - 20] == Oll24;
    Orbit24IsTurns();
    Orbit24EarlyApart();
  }

  /** No case before OLL24 has one of its orientations. */
  lemma Oll24Apart(j: nat)
    requires j == 23
    ensures ApartFrom(0, j, Turns(Cases21To30()[j - 20].topPattern, Cases21To30()[j - 20].edgePattern))
  {
    Oll24EarlyApart(j);
    var orbit := Turns(Cases21To30()[j - 20].topPattern, Cases21To30()[j - 20].edgePattern);
    assert ApartFrom(5, j, orbit);
    assert ApartFrom(4, j, orbit);
    assert ApartFrom(3, j, orbit);
    assert ApartFrom(2, j, orbit);
    assert ApartFrom(1, j, orbit);
    assert ApartFrom(0, j, orbit);
  }

  /** The four orientations of OLL25, at 0, 90, 180 and 270 degrees. */
  lemma Orbit25IsTurns()
    ensures Turns(Oll25.topPattern, Oll25.edgePattern) ==
      [("11011011", "000000100100"), ("01111110", "000100000001"),
       ("11011011", "001001000000"), ("01111110", "100000001000")]
  {
    assert RotateTop("11011011") == "01111110";
    assert RotateEdge("000000100100") == "000100000001";
    assert RotateTop("01111110") == "11011011";
    assert RotateEdge("000100000001") == "001001000000";
    assert RotateEdge("001001000000") == "100000001000";
  }

  /** No case of OLL01 to OLL24 before OLL25 has one of its orientations. */
  lemma Orbit25EarlyApart()
    ensures forall k :: 0 <= k < 10 ==>
      (Cases01To10()[k].topPattern, Cases01To10()[k].edgePattern) !in
      [("11011011", "000000100100"), ("01111110", "000100000001"),
       ("11011011", "001001000000"), ("01111110", "100000001000")]
    ensures forall k :: 0 <= k < 10 ==>
      (Cases11To20()[k].topPattern, Cases11To20()[k].edgePattern) !in
      [("11011011", "000000100100"), ("01111110", "000100000001"),
       ("11011011", "001001000000"), ("01111110", "100000001000")]
    ensures forall k :: 0 <= k < 4 ==>
      (Cases21To30()[k].topPattern, Cases21To30()[k].edgePattern) !in
      [("11011011", "000000100100"), ("01111110", "000100000001"),
       ("11011011", "001001000000"), ("01111110", "100000001000")]
  {
  }

  /** OLL25's orientations, read off the first three groups of the catalog. */
  lemma Oll25EarlyApart(j: nat)
    requires j == 24
    ensures Apart(Group(0), 0, j, Turns(Cases21To30()[j - 20].topPattern, Cases21To30()[j - 20].edgePattern))
    ensures Apart(Group(1), 10, j, Turns(Cases21To30()[j - 20].topPattern, Cases21To30()[j - 20].edgePattern))
    ensures Apart(Group(2), 20, j, Turns(Cases21To30()[j - 20].topPattern, Cases21To30()[j - 20].edgePattern))
  {
    assert Cases21To30()[j - 20] == Oll25;
    Orbit25IsTurns();
    Orbit25EarlyApart();
  }

  /** No case before OLL25 has one of its orientations. */
  lemma Oll25Apart(j: nat)
    requires j == 24
    ensures ApartFrom(0, j, Turns(Cases21To30()[j - 20].topPattern, Cases21To30()[j - 20].edgePattern))
  {
    Oll25EarlyApart(j);
    var orbit := Turns(Cases21To30()[j - 20].topPattern, Cases21To30()[j - 20].edgePattern);
    assert ApartFrom(5, j, orbit);
    assert ApartFrom(4, j, orbit);
    assert ApartFrom(3, j, orbit);
    assert ApartFrom(2, j, orbit);
    assert ApartFrom(1, j, orbit);
    assert ApartFrom(0, j, orbit);
  }

  /** The four orientations of OLL26, at 0, 90, 180 and 270 degrees. */
  lemma Orbit26IsTurns()
    ensures Turns(Oll26.topPattern, Oll26.edgePattern) ==
      [("11011010", "001000001100"), ("01111010", "000100001100"),
       ("01011011", "001100000100"), ("01011110", "001100001000")]
  {
    assert RotateTop("11011010") == "01111010";
    assert RotateEdge("001000001100") == "000100001100";
    assert RotateTop("01111010") == "01011011";
    assert RotateEdge("000100001100") == "001100000100";
    assert RotateTop("01011011") == "01011110";
    assert RotateEdge("001100000100") == "001100001000";
  }

  /** No case of OLL01 to OLL25 before OLL26 has one of its orientations. */
  lemma Orbit26EarlyApart()
    ensures forall k :: 0 <= k < 10 ==>
      (Cases01To10()[k].topPattern, Cases01To10()[k].edgePattern) !in
      [("11011010", "001000001100"), ("01111010", "000100001100"),
       ("01011011", "001100000100"), ("01011110", "001100001000")]
    ensures forall k :: 0 <= k < 10 ==>
      (Cases11To20()[k].topPattern, Cases11To20()[k].edgePattern) !in
      [("11011010", "001000001100"), ("01111010", "000100001100"),
       ("01011011", "001100000100"), ("01011110", "001100001000")]
    ensures forall k :: 0 <= k < 5 ==>
      (Cases21To30()[k].topPattern, Cases21To30()[k].edgePattern) !in
      [("11011010", "001000001100"), ("01111010", "000100001100"),
       ("01011011", "001100000100"), ("01011110", "001100001000")]
  {
  }

  /** OLL26's orientations, read off the first three groups of the catalog. */
  lemma Oll26EarlyApart(j: nat)
    requires j == 25
    ensures Apart(Group(0), 0, j, Turns(Cases21To30()[j - 20].topPattern, Cases21To30()[j - 20].edgePattern))
    ensures Apart(Group(1), 10, j, Turns(Cases21To30()[j - 20].topPattern, Cases21To30()[j - 20].edgePattern))
    ensures Apart(Group(2), 20, j, Turns(Cases21To30()[j - 20].topPattern, Cases21To30()[j - 20].edgePattern))
  {
    assert Cases21To30()[j - 20] == Oll26;
    Orbit26IsTurns();
    Orbit26EarlyApart();
  }

  /** No case before OLL26 has one of its orientations. */
  lemma Oll26Apart(j: nat)
    requires j == 25
    ensures ApartFrom(0, j, Turns(Cases21To30()[j - 20].topPattern, Cases21To30()[j - 20].edgePattern))
  {
    Oll26EarlyApart(j);
    var orbit := Turns(Cases21To30()[j - 20].topPattern, Cases21To30()[j - 20].edgePattern);
    assert ApartFrom(5, j, orbit);
    assert ApartFrom(4, j, orbit);
    assert ApartFrom(3, j, orbit);
    assert ApartFrom(2, j, orbit);
    assert ApartFrom(1, j, orbit);
    assert ApartFrom(0, j, orbit);
  }

  /** The four orientations of OLL27, at 0, 90, 180 and 270 degrees. */
  lemma Orbit27IsTurns()
    ensures Turns(Oll27.topPattern, Oll27.edgePattern) ==
      [("01111010", "100001000001"), ("01011011", "100001100000"),
       ("01011110", "100000100001"), ("11011010", "000001100001")]
  {
    assert RotateTop("01111010") == "01011011";
    assert RotateEdge("100001000001") == "100001100000";
    assert RotateTop("01011011") == "01011110";
    assert RotateEdge("100001100000") == "100000100001";
    assert RotateTop("01011110") == "11011010";
    assert RotateEdge("100000100001") == "000001100001";
  }

  /** No case of OLL01 to OLL26 before OLL27 has one of its orientations. */
  lemma Orbit27EarlyApart()
    ensures forall k :: 0 <= k < 10 ==>
      (Cases01To10()[k].topPattern, Cases01To10()[k].edgePattern) !in
      [("01111010", "100001000001"), ("01011011", "100001100000"),
       ("01011110", "100000100001"), ("11011010", "000001100001")]
    ensures forall k :: 0 <= k < 10 ==>
      (Cases11To20()[k].topPattern, Cases11To20()[k].edgePattern) !in
      [("01111010", "100001000001"), ("01011011", "100001100000"),
       ("01011110", "100000100001"), ("11011010", "000001100001")]
    ensures forall k :: 0 <= k < 6 ==>
      (Cases21To30()[k].topPattern, Cases21To30()[k].edgePattern) !in
      [("01111010", "100001000001"), ("01011011", "100001100000"),
       ("01011110", "100000100001"), ("11011010", "000001100001")]
  {
  }

  /** OLL27's orientations, read off the first three groups of the catalog. */
  lemma Oll27EarlyApart(j: nat)
    requires j == 26
    ensures Apart(Group(0), 0, j, Turns(Cases21To30()[j - 20].topPattern, Cases21To30()[j - 20].edgePattern))
    ensures Apart(Group(1), 10, j, Turns(Cases21To30()[j - 20].topPattern, Cases21To30()[j - 20].edgePattern))
    ensures Apart(Group(2), 20, j, Turns(Cases21To30()[j - 20].topPattern, Cases21To30()[j - 20].edgePattern))
  {
    assert Cases21To30()[j - 20] == Oll27;
    Orbit27IsTurns();
    Orbit27EarlyApart();
  }

  /** No case before OLL27 has one of its orientations. */
  lemma Oll27Apart(j: nat)
    requires j == 26
    ensures ApartFrom(0, j, Turns(Cases21To30()[j - 20].topPattern, Cases21To30()[j - 20].edgePattern))
  {
    Oll27EarlyApart(j);
    var orbit := Turns(Cases21To30()[j - 20].topPattern, Cases21To30()[j - 20].edgePattern);
    assert ApartFrom(5, j, orbit);
    assert ApartFrom(4, j, orbit);
    assert ApartFrom(3, j, orbit);
    assert ApartFrom(2, j, orbit);
    assert ApartFrom(1, j, orbit);
    assert ApartFrom(0, j, orbit);
  }

  /** The four orientations of OLL28, at 0, 90, 180 and 270 degrees. */
  lemma Orbit28IsTurns()
    ensures Turns(Oll28.topPattern, Oll28.edgePattern) ==
      [("11110101", "000000010010"), ("11101101", "000010000010"),
       ("10101111", "010010000000"), ("10110111", "010000010000")]
  {
    assert RotateTop("11110101") == "11101101";
    assert RotateEdge("000000010010") == "000010000010";
    assert RotateTop("11101101") == "10101111";
    assert RotateEdge("000010000010") == "010010000000";
    assert RotateTop("10101111") == "10110111";
    assert RotateEdge("010010000000") == "010000010000";
  }

  /** No case of OLL01 to OLL27 before OLL28 has one of its orientations. */
  lemma Orbit28EarlyApart()
    ensures forall k :: 0 <= k < 10 ==>
      (Cases01To10()[k].topPattern, Cases01To10()[k].edgePattern) !in
      [("11110101", "000000010010"), ("11101101", "000010000010"),
       ("10101111", "010010000000"), ("10110111", "010000010000")]
    ensures forall k :: 0 <= k < 10 ==>
      (Cases11To20()[k].topPattern, Cases11To20()[k].edgePattern) !in
      [("11110101", "000000010010"), ("11101101", "000010000010"),
       ("10101111", "010010000000"), ("10110111", "010000010000")]
    ensures forall k :: 0 <= k < 7 ==>
      (Cases21To30()[k].topPattern, Cases21To30()[k].edgePattern) !in
      [("11110101", "000000010010"), ("11101101", "000010000010"),
       ("10101111", "010010000000"), ("10110111", "010000010000")]
  {
  }

  /** OLL28's orientations, read off the first three groups of the catalog. */
  lemma Oll28EarlyApart(j: nat)
    requires j == 27
    ensures Apart(Group(0), 0, j, Turns(Cases21To30()[j - 20].topPattern, Cases21To30()[j - 20].edgePattern))
    ensures Apart(Group(1), 10, j, Turns(Cases21To30()[j - 20].topPattern, Cases21To30()[j - 20].edgePattern))
    ensures Apart(Group(2), 20, j, Turns(Cases21To30()[j - 20].topPattern, Cases21To30()[j - 20].edgePattern))
  {
    assert Cases21To30()[j - 20] == Oll28;
    Orbit28IsTurns();
    Orbit28EarlyApart();
  }

  /** No case before OLL28 has one of its orientations. */
  lemma Oll28Apart(j: nat)
    requires j == 27
    ensures ApartFrom(0, j, Turns(Cases21To30()[j - 20].topPattern, Cases21To30()[j - 20].edgePattern))
  {
    Oll28EarlyApart(j);
    var orbit := Turns(Cases21To30()[j - 20].topPattern, Cases21To30()[j - 20].edgePattern);
    assert ApartFrom(5, j, orbit);
    assert ApartFrom(4, j, orbit);
    assert ApartFrom(3, j, orbit);
    assert ApartFrom(2, j, orbit);
    assert ApartFrom(1, j, orbit);
    assert ApartFrom(0, j, orbit);
  }

  /** The four orientations of OLL29, at 0, 90, 180 and 270 degrees. */
  lemma Orbit29IsTurns()
    ensures Turns(Oll29.topPattern, Oll29.edgePattern) ==
      [("01110001", "100000010110"), ("01001101", "000110100010"),
       ("10001110", "011010000001"), ("10110010", "010001011000")]
  {
    assert RotateTop("01110001") == "01001101";
    assert RotateEdge("100000010110") == "000110100010";
    assert RotateTop("01001101") == "10001110";
    assert RotateEdge("000110100010") == "011010000001";
    assert RotateTop("10001110") == "10110010";
    assert RotateEdge("011010000001") == "010001011000";
  }

  /** No case of OLL01 to OLL28 before OLL29 has one of its orientations. */
  lemma Orbit29EarlyApart()
    ensures forall k :: 0 <= k < 10 ==>
      (Cases01To10()[k].topPattern, Cases01To10()[k].edgePattern) !in
      [("01110001", "100000010110"), ("01001101", "000110100010"),
       ("10001110", "011010000001"), ("10110010", "010001011000")]
    ensures forall k :: 0 <= k < 10 ==>
      (Cases11To20()[k].topPattern, Cases11To20()[k].edgePattern) !in
      [("01110001", "100000010110"), ("01001101", "000110100010"),
       ("10001110", "011010000001"), ("10110010", "010001011000")]
    ensures forall k :: 0 <= k < 8 ==>
      (Cases21To30()[k].topPattern, Cases21To30()[k].edgePattern) !in
      [("01110001", "100000010110"), ("01001101", "000110100010"),
       ("10001110", "011010000001"), ("10110010", "010001011000")]
  {
  }

  /** OLL29's orientations, read off the first three groups of the catalog. */
  lemma Oll29EarlyApart(j: nat)
    requires j == 28
    ensures Apart(Group(0), 0, j, Turns(Cases21To30()[j - 20].topPattern, Cases21To30()[j - 20].edgePattern))
    ensures Apart(Group(1), 10, j, Turns(Cases21To30()[j - 20].topPattern, Cases21To30()[j - 20].edgePattern))
    ensures Apart(Group(2), 20, j, Turns(Cases21To30()[j - 20].topPattern, Cases21To30()[j - 20].edgePattern))
  {
    assert Cases21To30()[j - 20] == Oll29;
    Orbit29IsTurns();
    Orbit29EarlyApart();
  }

  /** No case before OLL29 has one of its orientations. */
  lemma Oll29Apart(j: nat)
    requires j == 28
    ensures ApartFrom(0, j, Turns(Cases21To30()[j - 20].topPattern, Cases21To30()[j - 20].edgePattern))
  {
    Oll29EarlyApart(j);
    var orbit := Turns(Cases21To30()[j - 20].topPattern, Cases21To30()[j - 20].edgePattern);
    assert ApartFrom(5, j, orbit);
    assert ApartFrom(4, j, orbit);
    assert ApartFrom(3, j, orbit);
    assert ApartFrom(2, j, orbit);
    assert ApartFrom(1, j, orbit);
    assert ApartFrom(0, j, orbit);
  }

  /** The four orientations of OLL30, at 0, 90, 180 and 270 degrees. */
  lemma Orbit30IsTurns()
    ensures Turns(Oll30.topPattern, Oll30.edgePattern) ==
      [("01010101", "000100110010"), ("11001100", "001010000011"),
       ("10101010", "010011001000"), ("00110011", "110000010100")]
  {
    assert RotateTop("01010101") == "11001100";
    assert RotateEdge("000100110010") == "001010000011";
    assert RotateTop("11001100") == "10101010";
    assert RotateEdge("001010000011") == "010011001000";
    assert RotateTop("10101010") == "00110011";
    assert RotateEdge("010011001000") == "110000010100";
  }

  /** No case of OLL01 to OLL29 before OLL30 has one of its orientations. */
  lemma Orbit30EarlyApart()
    ensures forall k :: 0 <= k < 10 ==>
      (Cases01To10()[k].topPattern, Cases01To10()[k].edgePattern) !in
      [("01010101", "000100110010"), ("11001100", "001010000011"),
       ("10101010", "010011001000"), ("00110011", "110000010100")]
    ensures forall k :: 0 <= k < 10 ==>
      (Cases11To20()[k].topPattern, Cases11To20()[k].edgePattern) !in
      [("01010101", "000100110010"), ("11001100", "001010000011"),
       ("10101010", "010011001000"), ("00110011", "110000010100")]
    ensures forall k :: 0 <= k < 9 ==>
      (Cases21To30()[k].topPattern, Cases21To30()[k].edgePattern) !in
      [("01010101", "000100110010"), ("11001100", "001010000011"),
       ("10101010", "010011001000"), ("00110011", "110000010100")]
  {
  }

  /** OLL30's orientations, read off the first three groups of the catalog. */
  lemma Oll30EarlyApart(j: nat)
    requires j == 29
    ensures Apart(Group(0), 0, j, Turns(Cases21To30()[j - 20].topPattern, Cases21To30()[j - 20].edgePattern))
    ensures Apart(Group(1), 10, j, Turns(Cases21To30()[j - 20].topPattern, Cases21To30()[j - 20].edgePattern))
    ensures Apart(Group(2), 20, j, Turns(Cases21To30()[j - 20].topPattern, Cases21To30()[j - 20].edgePattern))
  {
    assert Cases21To30()[j - 20] == Oll30;
    Orbit30IsTurns();
    Orbit30EarlyApart();
  }

  /** No case before OLL30 has one of its orientations. */
  lemma Oll30Apart(j: nat)
    requires j == 29
    ensures ApartFrom(0, j, Turns(Cases21To30()[j - 20].topPattern, Cases21To30()[j - 20].edgePattern))
  {
    Oll30EarlyApart(j);
    var orbit := Turns(Cases21To30()[j - 20].topPattern, Cases21To30()[j - 20].edgePattern);
    assert ApartFrom(5, j, orbit);
    assert ApartFrom(4, j, orbit);
    assert ApartFrom(3, j, orbit);
    assert ApartFrom(2, j, orbit);
    assert ApartFrom(1, j, orbit);
    assert ApartFrom(0, j, orbit);
  }

  /** The four orientations of OLL31, at 0, 90, 180 and 270 degrees. */
  lemma Orbit31IsTurns()
    ensures Turns(Oll31.topPattern, Oll31.edgePattern) ==
      [("01101001", "100010000110"), ("00001111", "010110100000"),
       ("10010110", "011000010001"), ("11110000", "000001011010")]
  {
    assert RotateTop("01101001") == "00001111";
    assert RotateEdge("100010000110") == "010110100000";
    assert RotateTop("00001111") == "10010110";
    assert RotateEdge("010110100000") == "011000010001";
    assert RotateTop("10010110") == "11110000";
    assert RotateEdge("011000010001") == "000001011010";
  }

  /** No case of OLL01 to OLL30 before OLL31 has one of its orientations. */
  lemma Orbit31EarlyApart()
    ensures forall k :: 0 <= k < 10 ==>
      (Cases01To10()[k].topPattern, Cases01To10()[k].edgePattern) !in
      [("01101001", "100010000110"), ("00001111", "010110100000"),
       ("10010110", "011000010001"), ("11110000", "000001011010")]
    ensures forall k :: 0 <= k < 10 ==>
      (Cases11To20()[k].topPattern, Cases11To20()[k].edgePattern) !in
      [("01101001", "100010000110"), ("00001111", "010110100000"),
       ("10010110", "011000010001"), ("11110000", "000001011010")]
    ensures forall k :: 0 <= k < 10 ==>
      (Cases21To30()[k].topPattern, Cases21To30()[k].edgePattern) !in
      [("01101001", "100010000110"), ("00001111", "010110100000"),
       ("10010110", "011000010001"), ("11110000", "000001011010")]
  {
  }

  /** OLL31's orientations, read off the first three groups of the catalog. */
  lemma Oll31EarlyApart(j: nat)
    requires j == 30
    ensures Apart(Group(0), 0, j, Turns(Cases31To40()[j - 30].topPattern, Cases31To40()[j - 30].edgePattern))
    ensures Apart(Group(1), 10, j, Turns(Cases31To40()[j - 30].topPattern, Cases31To40()[j - 30].edgePattern))
    ensures Apart(Group(2), 20, j, Turns(Cases31To40()[j - 30].topPattern, Cases31To40()[j - 30].edgePattern))
  {
    assert Cases31To40()[j - 30] == Oll31;
    Orbit31IsTurns();
    Orbit31EarlyApart();
  }

  /** No case before OLL31 has one of its orientations. */
  lemma Oll31Apart(j: nat)
    requires j == 30
    ensures ApartFrom(0, j, Turns(Cases31To40()[j - 30].topPattern, Cases31To40()[j - 30].edgePattern))
  {
    Oll31EarlyApart(j);
    var orbit := Turns(Cases31To40()[j - 30].topPattern, Cases31To40()[j - 30].edgePattern);
    assert ApartFrom(5, j, orbit);
    assert ApartFrom(4, j, orbit);
    assert ApartFrom(3, j, orbit);
    assert ApartFrom(2, j, orbit);
    assert ApartFrom(1, j, orbit);
    assert ApartFrom(0, j, orbit);
  }

  /** The four orientations of OLL32, at 0, 90, 180 and 270 degrees. */
  lemma Orbit32IsTurns()
    ensures Turns(Oll32.topPattern, Oll32.edgePattern) ==
      [("00101011", "110010000100"), ("00010111", "010100110000"),
       ("11010100", "001000010011"), ("11101000", "000011001010")]
  {
    assert RotateTop("00101011") == "00010111";
    assert RotateEdge("110010000100") == "010100110000";
    assert RotateTop("00010111") == "11010100";
    assert RotateEdge("010100110000") == "001000010011";
    assert RotateTop("11010100") == "11101000";
    assert RotateEdge("001000010011") == "000011001010";
  }

  /** No case of OLL01 to OLL30 before OLL32 has one of its orientations. */
  lemma Orbit32EarlyApart()
    ensures forall k :: 0 <= k < 10 ==>
      (Cases01To10()[k].topPattern, Cases01To10()[k].edgePattern) !in
      [("00101011", "110010000100"), ("00010111", "010100110000"),
       ("11010100", "001000010011"), ("11101000", "000011001010")]
    ensures forall k :: 0 <= k < 10 ==>
      (Cases11To20()[k].topPattern, Cases11To20()[k].edgePattern) !in
      [("00101011", "110010000100"), ("00010111", "010100110000"),
       ("11010100", "001000010011"), ("11101000", "000011001010")]
    ensures forall k :: 0 <= k < 10 ==>
      (Cases21To30()[k].topPattern, Cases21To30()[k].edgePattern) !in
      [("00101011", "110010000100"), ("00010111", "010100110000"),
       ("11010100", "001000010011"), ("11101000", "000011001010")]
  {
  }

  /** No case of OLL31 to OLL31 before OLL32 has one of its orientations. */
  lemma Orbit32LateApart()
    ensures forall k :: 0 <= k < 1 ==>
      (Cases31To40()[k].topPattern, Cases31To40()[k].edgePattern) !in
      [("00101011", "110010000100"), ("00010111", "010100110000"),
       ("11010100", "001000010011"), ("11101000", "000011001010")]
  {
  }

  /** OLL32's orientations, read off the first three groups of the catalog. */
  lemma Oll32EarlyApart(j: nat)
    requires j == 31
    ensures Apart(Group(0), 0, j, Turns(Cases31To40()[j - 30].topPattern, Cases31To40()[j - 30].edgePattern))
    ensures Apart(Group(1), 10, j, Turns(Cases31To40()[j - 30].topPattern, Cases31To40()[j - 30].edgePattern))
    ensures Apart(Group(2), 20, j, Turns(Cases31To40()[j - 30].topPattern, Cases31To40()[j - 30].edgePattern))
  {
    assert Cases31To40()[j - 30] == Oll32;
    Orbit32IsTurns();
    Orbit32EarlyApart();
  }

  /** OLL32's orientations, read off the last three groups of the catalog. */
  lemma Oll32LateApart(j: nat)
    requires j == 31
    ensures Apart(Group(3), 30, j, Turns(Cases31To40()[j - 30].topPattern, Cases31To40()[j - 30].edgePattern))
    ensures Apart(Group(4), 40, j, Turns(Cases31To40()[j - 30].topPattern, Cases31To40()[j - 30].edgePattern))
    ensures Apart(Group(5), 50, j, Turns(Cases31To40()[j - 30].topPattern, Cases31To40()[j - 30].edgePattern))
  {
    assert Cases31To40()[j - 30] == Oll32;
    Orbit32IsTurns();
    Orbit32LateApart();
  }

  /** No case before OLL32 has one of its orientations. */
  lemma Oll32Apart(j: nat)
    requires j == 31
    ensures ApartFrom(0, j, Turns(Cases31To40()[j - 30].topPattern, Cases31To40()[j - 30].edgePattern))
  {
    Oll32EarlyApart(j);
    Oll32LateApart(j);
    var orbit := Turns(Cases31To40()[j - 30].topPattern, Cases31To40()[j - 30].edgePattern);
    assert ApartFrom(5, j, orbit);
    assert ApartFrom(4, j, orbit);
    assert ApartFrom(3, j, orbit);
    assert ApartFrom(2, j, orbit);
    assert ApartFrom(1, j, orbit);
    assert ApartFrom(0, j, orbit);
  }

  /** The four orientations of OLL33, at 0, 90, 180 and 270 degrees. */
  lemma Orbit33IsTurns()
    ensures Turns(Oll33.topPattern, Oll33.edgePattern) ==
      [("00111001", "110000000110"), ("01000111", "000110110000"),
       ("10011100", "011000000011"), ("11100010", "000011011000")]
  {
    assert RotateTop("00111001") == "01000111";
    assert RotateEdge("110000000110") == "000110110000";
    assert RotateTop("01000111") == "10011100";
    assert RotateEdge("000110110000") == "011000000011";
    assert RotateTop("10011100") == "11100010";
    assert RotateEdge("011000000011") == "000011011000";
  }

  /** No case of OLL01 to OLL30 before OLL33 has one of its orientations. */
  lemma Orbit33EarlyApart()
    ensures forall k :: 0 <= k < 10 ==>
      (Cases01To10()[k].topPattern, Cases01To10()[k].edgePattern) !in
      [("00111001", "110000000110"), ("01000111", "000110110000"),
       ("10011100", "011000000011"), ("11100010", "000011011000")]
    ensures forall k :: 0 <= k < 10 ==>
      (Cases11To20()[k].topPattern, Cases11To20()[k].edgePattern) !in
      [("00111001", "110000000110"), ("01000111", "000110110000"),
       ("10011100", "011000000011"), ("11100010", "000011011000")]
    ensures forall k :: 0 <= k < 10 ==>
      (Cases21To30()[k].topPattern, Cases21To30()[k].edgePattern) !in
      [("00111001", "110000000110"), ("01000111", "000110110000"),
       ("10011100", "011000000011"), ("11100010", "000011011000")]
  {
  }

  /** No case of OLL31 to OLL32 before OLL33 has one of its orientations. */
  lemma Orbit33LateApart()
    ensures forall k :: 0 <= k < 2 ==>
      (Cases31To40()[k].topPattern, Cases31To40()[k].edgePattern) !in
      [("00111001", "110000000110"), ("01000111", "000110110000"),
       ("10011100", "011000000011"), ("11100010", "000011011000")]
  {
  }

  /** OLL33's orientations, read off the first three groups of the catalog. */
  lemma Oll33EarlyApart(j: nat)
    requires j == 32
    ensures Apart(Group(0), 0, j, Turns(Cases31To40()[j - 30].topPattern, Cases31To40()[j - 30].edgePattern))
    ensures Apart(Group(1), 10, j, Turns(Cases31To40()[j - 30].topPattern, Cases31To40()[j - 30].edgePattern))
    ensures Apart(Group(2), 20, j, Turns(Cases31To40()[j - 30].topPattern, Cases31To40()[j - 30].edgePattern))
  {
    assert Cases31To40()[j - 30] == Oll33;
    Orbit33IsTurns();
    Orbit33EarlyApart();
  }

  /** OLL33's orientations, read off the last three groups of the catalog. */
  lemma Oll33LateApart(j: nat)
    requires j == 32
    ensures Apart(Group(3), 30, j, Turns(Cases31To40()[j - 30].topPattern, Cases31To40()[j - 30].edgePattern))
    ensures Apart(Group(4), 40, j, Turns(Cases31To40()[j - 30].topPattern, Cases31To40()[j - 30].edgePattern))
    ensures Apart(Group(5), 50, j, Turns(Cases31To40()[j - 30].topPattern, Cases31To40()[j - 30].edgePattern))
  {
    assert Cases31To40()[j - 30] == Oll33;
    Orbit33IsTurns();
    Orbit33LateApart();
  }

  /** No case before OLL33 has one of its orientations. */
  lemma Oll33Apart(j: nat)
    requires j == 32
    ensures ApartFrom(0, j, Turns(Cases31To40()[j - 30].topPattern, Cases31To40()[j - 30].edgePattern))
  {
    Oll33EarlyApart(j);
    Oll33LateApart(j);
    var orbit := Turns(Cases31To40()[j - 30].topPattern, Cases31To40()[j - 30].edgePattern);
    assert ApartFrom(5, j, orbit);
    assert ApartFrom(4, j, orbit);
    assert ApartFrom(3, j, orbit);
    assert ApartFrom(2, j, orbit);
    assert ApartFrom(1, j, orbit);
    assert ApartFrom(0, j, orbit);
  }

  /** The four orientations of OLL34, at 0, 90, 180 and 270 degrees. */
  lemma Orbit34IsTurns()
    ensures Turns(Oll34.topPattern, Oll34.edgePattern) ==
      [("00011101", "010100100010"), ("11000110", "001010010001"),
       ("10111000", "010001001010"), ("01100011", "100010010100")]
  {
    assert RotateTop("00011101") == "11000110";
    assert RotateEdge("010100100010") == "001010010001";
    assert RotateTop("11000110") == "10111000";
    assert RotateEdge("001010010001") == "010001001010";
    assert RotateTop("10111000") == "01100011";
    assert RotateEdge("010001001010") == "100010010100";
  }

  /** No case of OLL01 to OLL30 before OLL34 has one of its orientations. */
  lemma Orbit34EarlyApart()
    ensures forall k :: 0 <= k < 10 ==>
      (Cases01To10()[k].topPattern, Cases01To10()[k].edgePattern) !in
      [("00011101", "010100100010"), ("11000110", "001010010001"),
       ("10111000", "010001001010"), ("01100011", "100010010100")]
    ensures forall k :: 0 <= k < 10 ==>
      (Cases11To20()[k].topPattern, Cases11To20()[k].edgePattern) !in
      [("00011101", "010100100010"), ("11000110", "001010010001"),
       ("10111000", "010001001010"), ("01100011", "100010010100")]
    ensures forall k :: 0 <= k < 10 ==>
      (Cases21To30()[k].topPattern, Cases21To30()[k].edgePattern) !in
      [("00011101", "010100100010"), ("11000110", "001010010001"),
       ("10111000", "010001001010"), ("01100011", "100010010100")]
  {
  }

  /** No case of OLL31 to OLL33 before OLL34 has one of its orientations. */
  lemma Orbit34LateApart()
    ensures forall k :: 0 <= k < 3 ==>
      (Cases31To40()[k].topPattern, Cases31To40()[k].edgePattern) !in
      [("00011101", "010100100010"), ("11000110", "001010010001"),
       ("10111000", "010001001010"), ("01100011", "100010010100")]
  {
  }

  /** OLL34's orientations, read off the first three groups of the catalog. */
  lemma Oll34EarlyApart(j: nat)
    requires j == 33
    ensures Apart(Group(0), 0, j, Turns(Cases31To40()[j - 30].topPattern, Cases31To40()[j - 30].edgePattern))
    ensures Apart(Group(1), 10, j, Turns(Cases31To40()[j - 30].topPattern, Cases31To40()[j - 30].edgePattern))
    ensures Apart(Group(2), 20, j, Turns(Cases31To40()[j - 30].topPattern, Cases31To40()[j - 30].edgePattern))
  {
    assert Cases31To40()[j - 30] == Oll34;
    Orbit34IsTurns();
    Orbit34EarlyApart();
  }

  /** OLL34's orientations, read off the last three groups of the catalog. */
  lemma Oll34LateApart(j: nat)
    requires j == 33
    ensures Apart(Group(3), 30, j, Turns(Cases31To40()[j - 30].topPattern, Cases31To40()[j - 30].edgePattern))
    ensures Apart(Group(4), 40, j, Turns(Cases31To40()[j - 30].topPattern, Cases31To40()[j - 30].edgePattern))
    ensures Apart(Group(5), 50, j, Turns(Cases31To40()[j - 30].topPattern, Cases31To40()[j - 30].edgePattern))
  {
    assert Cases31To40()[j - 30] == Oll34;
    Orbit34IsTurns();
    Orbit34LateApart();
  }

  /** No case before OLL34 has one of its orientations. */
  lemma Oll34Apart(j: nat)
    requires j == 33
    ensures ApartFrom(0, j, Turns(Cases31To40()[j - 30].topPattern, Cases31To40()[j - 30].edgePattern))
  {
    Oll34EarlyApart(j);
    Oll34LateApart(j);
    var orbit := Turns(Cases31To40()[j - 30].topPattern, Cases31To40()[j - 30].edgePattern);
    assert ApartFrom(5, j, orbit);
    assert ApartFrom(4, j, orbit);
    assert ApartFrom(3, j, orbit);
    assert ApartFrom(2, j, orbit);
    assert ApartFrom(1, j, orbit);
    assert ApartFrom(0, j, orbit);
  }

  /** The four orientations of OLL35, at 0, 90, 180 and 270 degrees. */
  lemma Orbit35IsTurns()
    ensures Turns(Oll35.topPattern, Oll35.edgePattern) ==
      [("10001011", "010010100100"), ("00110110", "010100010001"),
       ("11010001", "001001010010"), ("01101100", "100010001010")]
  {
    assert RotateTop("10001011") == "00110110";
    assert RotateEdge("010010100100") == "010100010001";
    assert RotateTop("00110110") == "11010001";
    assert RotateEdge("010100010001") == "001001010010";
    assert RotateTop("11010001") == "01101100";
    assert RotateEdge("001001010010") == "100010001010";
  }

  /** No case of OLL01 to OLL30 before OLL35 has one of its orientations. */
  lemma Orbit35EarlyApart()
    ensures forall k :: 0 <= k < 10 ==>
      (Cases01To10()[k].topPattern, Cases01To10()[k].edgePattern) !in
      [("10001011", "010010100100"), ("00110110", "010100010001"),
       ("11010001", "001001010010"), ("01101100", "100010001010")]
    ensures forall k :: 0 <= k < 10 ==>
      (Cases11To20()[k].topPattern, Cases11To20()[k].edgePattern) !in
      [("10001011", "010010100100"), ("00110110", "010100010001"),
       ("11010001", "001001010010"), ("01101100", "100010001010")]
    ensures forall k :: 0 <= k < 10 ==>
      (Cases21To30()[k].topPattern, Cases21To30()[k].edgePattern) !in
      [("10001011", "010010100100"), ("00110110", "010100010001"),
       ("11010001", "001001010010"), ("01101100", "100010001010")]
  {
  }

  /** No case of OLL31 to OLL34 before OLL35 has one of its orientations. */
  lemma Orbit35LateApart()
    ensures forall k :: 0 <= k < 4 ==>
      (Cases31To40()[k].topPattern, Cases31To40()[k].edgePattern) !in
      [("10001011", "010010100100"), ("00110110", "010100010001"),
       ("11010001", "001001010010"), ("01101100", "100010001010")]
  {
  }

  /** OLL35's orientations, read off the first three groups of the catalog. */
  lemma Oll35EarlyApart(j: nat)
    requires j == 34
    ensures Apart(Group(0), 0, j, Turns(Cases31To40()[j - 30].topPattern, Cases31To40()[j - 30].edgePattern))
    ensures Apart(Group(1), 10, j, Turns(Cases31To40()[j - 30].topPattern, Cases31To40()[j - 30].edgePattern))
    ensures Apart(Group(2), 20, j, Turns(Cases31To40()[j - 30].topPattern, Cases31To40()[j - 30].edgePattern))
  {
    assert Cases31To40()[j - 30] == Oll35;
    Orbit35IsTurns();
    Orbit35EarlyApart();
  }

  /** OLL35's orientations, read off the last three groups of the catalog. */
  lemma Oll35LateApart(j: nat)
    requires j == 34
    ensures Apart(Group(3), 30, j, Turns(Cases31To40()[j - 30].topPattern, Cases31To40()[j - 30].edgePattern))
    ensures Apart(Group(4), 40, j, Turns(Cases31To40()[j - 30].topPattern, Cases31To40()[j - 30].edgePattern))
    ensures Apart(Group(5), 50, j, Turns(Cases31To40()[j - 30].topPattern, Cases31To40()[j - 30].edgePattern))
  {
    assert Cases31To40()[j - 30] == Oll35;
    Orbit35IsTurns();
    Orbit35LateApart();
  }

  /** No case before OLL35 has one of its orientations. */
  lemma Oll35Apart(j: nat)
    requires j == 34
    ensures ApartFrom(0, j, Turns(Cases31To40()[j - 30].topPattern, Cases31To40()[j - 30].edgePattern))
  {
    Oll35EarlyApart(j);
    Oll35LateApart(j);
    var orbit := Turns(Cases31To40()[j - 30].topPattern, Cases31To40()[j - 30].edgePattern);
    assert ApartFrom(5, j, orbit);
    assert ApartFrom(4, j, orbit);
    assert ApartFrom(3, j, orbit);
    assert ApartFrom(2, j, orbit);
    assert ApartFrom(1, j, orbit);
    assert ApartFrom(0, j, orbit);
  }

  /** The four orientations of OLL36, at 0, 90, 180 and 270 degrees. */
  lemma Orbit36IsTurns()
    ensures Turns(Oll36.topPattern, Oll36.edgePattern) ==
      [("11001001", "001011000010"), ("00101110", "110010001000"),
       ("10010011", "010000110100"), ("01110100", "000100010011")]
  {
    assert RotateTop("11001001") == "00101110";
    assert RotateEdge("001011000010") == "110010001000";
    assert RotateTop("00101110") == "10010011";
    assert RotateEdge("110010001000") == "010000110100";
    assert RotateTop("10010011") == "01110100";
    assert RotateEdge("010000110100") == "000100010011";
  }

  /** No case of OLL01 to OLL30 before OLL36 has one of its orientations. */
  lemma Orbit36EarlyApart()
    ensures forall k :: 0 <= k < 10 ==>
      (Cases01To10()[k].topPattern, Cases01To10()[k].edgePattern) !in
      [("11001001", "001011000010"), ("00101110", "110010001000"),
       ("10010011", "010000110100"), ("01110100", "000100010011")]
    ensures forall k :: 0 <= k < 10 ==>
      (Cases11To20()[k].topPattern, Cases11To20()[k].edgePattern) !in
      [("11001001", "001011000010"), ("00101110", "110010001000"),
       ("10010011", "010000110100"), ("01110100", "000100010011")]
    ensures forall k :: 0 <= k < 10 ==>
      (Cases21To30()[k].topPattern, Cases21To30()[k].edgePattern) !in
      [("11001001", "001011000010"), ("00101110", "110010001000"),
       ("10010011", "010000110100"), ("01110100", "000100010011")]
  {
  }

  /** No case of OLL31 to OLL35 before OLL36 has one of its orientations. */
  lemma Orbit36LateApart()
    ensures forall k :: 0 <= k < 5 ==>
      (Cases31To40()[k].topPattern, Cases31To40()[k].edgePattern) !in
      [("11001001", "001011000010"), ("00101110", "110010001000"),
       ("10010011", "010000110100"), ("01110100", "000100010011")]
  {
  }

  /** OLL36's orientations, read off the first three groups of the catalog. */
  lemma Oll36EarlyApart(j: nat)
    requires j == 35
    ensures Apart(Group(0), 0, j, Turns(Cases31To40()[j - 30].topPattern, Cases31To40()[j - 30].edgePattern))
    ensures Apart(Group(1), 10, j, Turns(Cases31To40()[j - 30].topPattern, Cases31To40()[j - 30].edgePattern))
    ensures Apart(Group(2), 20, j, Turns(Cases31To40()[j - 30].topPattern, Cases31To40()[j - 30].edgePattern))
  {
    assert Cases31To40()[j - 30] == Oll36;
    Orbit36IsTurns();
    Orbit36EarlyApart();
  }

  /** OLL36's orientations, read off the last three groups of the catalog. */
  lemma Oll36LateApart(j: nat)
    requires j == 35
    ensures Apart(Group(3), 30, j, Turns(Cases31To40()[j - 30].topPattern, Cases31To40()[j - 30].edgePattern))
    ensures Apart(Group(4), 40, j, Turns(Cases31To40()[j - 30].topPattern, Cases31To40()[j - 30].edgePattern))
    ensures Apart(Group(5), 50, j, Turns(Cases31To40()[j - 30].topPattern, Cases31To40()[j - 30].edgePattern))
  {
    assert Cases31To40()[j - 30] == Oll36;
    Orbit36IsTurns();
    Orbit36LateApart();
  }

  /** No case before OLL36 has one of its orientations. */
  lemma Oll36Apart(j: nat)
    requires j == 35
    ensures ApartFrom(0, j, Turns(Cases31To40()[j - 30].topPattern, Cases31To40()[j - 30].edgePattern))
  {
    Oll36EarlyApart(j);
    Oll36LateApart(j);
    var orbit := Turns(Cases31To40()[j - 30].topPattern, Cases31To40()[j - 30].edgePattern);
    assert ApartFrom(5, j, orbit);
    assert ApartFrom(4, j, orbit);
    assert ApartFrom(3, j, orbit);
    assert ApartFrom(2, j, orbit);
    assert ApartFrom(1, j, orbit);
    assert ApartFrom(0, j, orbit);
  }

  /** The four orientations of OLL37, at 0, 90, 180 and 270 degrees. */
  lemma Orbit37IsTurns()
    ensures Turns(Oll37.topPattern, Oll37.edgePattern) ==
      [("11010001", "000000110110"), ("01101100", "000110000011"),
       ("10001011", "011011000000"), ("00110110", "110000011000")]
  {
    assert RotateTop("11010001") == "01101100";
    assert RotateEdge("000000110110") == "000110000011";
    assert RotateTop("01101100") == "10001011";
    assert RotateEdge("000110000011") == "011011000000";
    assert RotateTop("10001011") == "00110110";
    assert RotateEdge("011011000000") == "110000011000";
  }

  /** No case of OLL01 to OLL30 before OLL37 has one of its orientations. */
  lemma Orbit37EarlyApart()
    ensures forall k :: 0 <= k < 10 ==>
      (Cases01To10()[k].topPattern, Cases01To10()[k].edgePattern) !in
      [("11010001", "000000110110"), ("01101100", "000110000011"),
       ("10001011", "011011000000"), ("00110110", "110000011000")]
    ensures forall k :: 0 <= k < 10 ==>
      (Cases11To20()[k].topPattern, Cases11To20()[k].edgePattern) !in
      [("11010001", "000000110110"), ("01101100", "000110000011"),
       ("10001011", "011011000000"), ("00110110", "110000011000")]
    ensures forall k :: 0 <= k < 10 ==>
      (Cases21To30()[k].topPattern, Cases21To30()[k].edgePattern) !in
      [("11010001", "000000110110"), ("01101100", "000110000011"),
       ("10001011", "011011000000"), ("00110110", "110000011000")]
  {
  }

  /** No case of OLL31 to OLL36 before OLL37 has one of its orientations. */
  lemma Orbit37LateApart()
    ensures forall k :: 0 <= k < 6 ==>
      (Cases31To40()[k].topPattern, Cases31To40()[k].edgePattern) !in
      [("11010001", "000000110110"), ("01101100", "000110000011"),
       ("10001011", "011011000000"), ("00110110", "110000011000")]
  {
  }

  /** OLL37's orientations, read off the first three groups of the catalog. */
  lemma Oll37EarlyApart(j: nat)
    requires j == 36
    ensures Apart(Group(0), 0, j, Turns(Cases31To40()[j - 30].topPattern, Cases31To40()[j - 30].edgePattern))
    ensures Apart(Group(1), 10, j, Turns(Cases31To40()[j - 30].topPattern, Cases31To40()[j - 30].edgePattern))
    ensures Apart(Group(2), 20, j, Turns(Cases31To40()[j - 30].topPattern, Cases31To40()[j - 30].edgePattern))
  {
    assert Cases31To40()[j - 30] == Oll37;
    Orbit37IsTurns();
    Orbit37EarlyApart();
  }

  /** OLL37's orientations, read off the last three groups of the catalog. */
  lemma Oll37LateApart(j: nat)
    requires j == 36
    ensures Apart(Group(3), 30, j, Turns(Cases31To40()[j - 30].topPattern, Cases31To40()[j - 30].edgePattern))
    ensures Apart(Group(4), 40, j, Turns(Cases31To40()[j - 30].topPattern, Cases31To40()[j - 30].edgePattern))
    ensures Apart(Group(5), 50, j, Turns(Cases31To40()[j - 30].topPattern, Cases31To40()[j - 30].edgePattern))
  {
    assert Cases31To40()[j - 30] == Oll37;
    Orbit37IsTurns();
    Orbit37LateApart();
  }

  /** No case before OLL37 has one of its orientations. */
  lemma Oll37Apart(j: nat)
    requires j == 36
    ensures ApartFrom(0, j, Turns(Cases31To40()[j - 30].topPattern, Cases31To40()[j - 30].edgePattern))
  {
    Oll37EarlyApart(j);
    Oll37LateApart(j);
    var orbit := Turns(Cases31To40()[j - 30].topPattern, Cases31To40()[j - 30].edgePattern);
    assert ApartFrom(5, j, orbit);
    assert ApartFrom(4, j, orbit);
    assert ApartFrom(3, j, orbit);
    assert ApartFrom(2, j, orbit);
    assert ApartFrom(1, j, orbit);
    assert ApartFrom(0, j, orbit);
  }

  /** The four orientations of OLL38, at 0, 90, 180 and 270 degrees. */
  lemma Orbit38IsTurns()
    ensures Turns(Oll38.topPattern, Oll38.edgePattern) ==
      [("01110100", "100000011010"), ("11001001", "000010100110"),
       ("00101110", "010110000001"), ("10010011", "011001010000")]
  {
    assert RotateTop("01110100") == "11001001";
    assert RotateEdge("100000011010") == "000010100110";
    assert RotateTop("11001001") == "00101110";
    assert RotateEdge("000010100110") == "010110000001";
    assert RotateTop("00101110") == "10010011";
    assert RotateEdge("010110000001") == "011001010000";
  }

  /** No case of OLL01 to OLL30 before OLL38 has one of its orientations. */
  lemma Orbit38EarlyApart()
    ensures forall k :: 0 <= k < 10 ==>
      (Cases01To10()[k].topPattern, Cases01To10()[k].edgePattern) !in
      [("01110100", "100000011010"), ("11001001", "000010100110"),
       ("00101110", "010110000001"), ("10010011", "011001010000")]
    ensures forall k :: 0 <= k < 10 ==>
      (Cases11To20()[k].topPattern, Cases11To20()[k].edgePattern) !in
      [("01110100", "100000011010"), ("11001001", "000010100110"),
       ("00101110", "010110000001"), ("10010011", "011001010000")]
    ensures forall k :: 0 <= k < 10 ==>
      (Cases21To30()[k].topPattern, Cases21To30()[k].edgePattern) !in
      [("01110100", "100000011010"), ("11001001", "000010100110"),
       ("00101110", "010110000001"), ("10010011", "011001010000")]
  {
  }

  /** No case of OLL31 to OLL37 before OLL38 has one of its orientations. */
  lemma Orbit38LateApart()
    ensures forall k :: 0 <= k < 7 ==>
      (Cases31To40()[k].topPattern, Cases31To40()[k].edgePattern) !in
      [("01110100", "100000011010"), ("11001001", "000010100110"),
       ("00101110", "010110000001"), ("10010011", "011001010000")]
  {
  }

  /** OLL38's orientations, read off the first three groups of the catalog. */
  lemma Oll38EarlyApart(j: nat)
    requires j == 37
    ensures Apart(Group(0), 0, j, Turns(Cases31To40()[j - 30].topPattern, Cases31To40()[j - 30].edgePattern))
    ensures Apart(Group(1), 10, j, Turns(Cases31To40()[j - 30].topPattern, Cases31To40()[j - 30].edgePattern))
    ensures Apart(Group(2), 20, j, Turns(Cases31To40()[j - 30].topPattern, Cases31To40()[j - 30].edgePattern))
  {
    assert Cases31To40()[j - 30] == Oll38;
    Orbit38IsTurns();
    Orbit38EarlyApart();
  }

  /** OLL38's orientations, read off the last three groups of the catalog. */
  lemma Oll38LateApart(j: nat)
    requires j == 37
    ensures Apart(Group(3), 30, j, Turns(Cases31To40()[j - 30].topPattern, Cases31To40()[j - 30].edgePattern))
    ensures Apart(Group(4), 40, j, Turns(Cases31To40()[j - 30].topPattern, Cases31To40()[j - 30].edgePattern))
    ensures Apart(Group(5), 50, j, Turns(Cases31To40()[j - 30].topPattern, Cases31To40()[j - 30].edgePattern))
  {
    assert Cases31To40()[j - 30] == Oll38;
    Orbit38IsTurns();
    Orbit38LateApart();
  }

  /** No case before OLL38 has one of its orientations. */
  lemma Oll38Apart(j: nat)
    requires j == 37
    ensures ApartFrom(0, j, Turns(Cases31To40()[j - 30].topPattern, Cases31To40()[j - 30].edgePattern))
  {
    Oll38EarlyApart(j);
    Oll38LateApart(j);
    var orbit := Turns(Cases31To40()[j - 30].topPattern, Cases31To40()[j - 30].edgePattern);
    assert ApartFrom(5, j, orbit);
    assert ApartFrom(4, j, orbit);
    assert ApartFrom(3, j, orbit);
    assert ApartFrom(2, j, orbit);
    assert ApartFrom(1, j, orbit);
    assert ApartFrom(0, j, orbit);
  }

  /** The four orientations of OLL39, at 0, 90, 180 and 270 degrees. */
  lemma Orbit39IsTurns()
    ensures Turns(Oll39.topPattern, Oll39.edgePattern) ==
      [("00111100", "010100000011"), ("11000011", "001011010000"),
       ("00111100", "110000001010"), ("11000011", "000010110100")]
  {
    assert RotateTop("00111100") == "11000011";
    assert RotateEdge("010100000011") == "001011010000";
    assert RotateTop("11000011") == "00111100";
    assert RotateEdge("001011010000") == "110000001010";
    assert RotateEdge("110000001010") == "000010110100";
  }

  /** No case of OLL01 to OLL30 before OLL39 has one of its orientations. */
  lemma Orbit39EarlyApart()
    ensures forall k :: 0 <= k < 10 ==>
      (Cases01To10()[k].topPattern, Cases01To10()[k].edgePattern) !in
      [("00111100", "010100000011"), ("11000011", "001011010000"),
       ("00111100", "110000001010"), ("11000011", "000010110100")]
    ensures forall k :: 0 <= k < 10 ==>
      (Cases11To20()[k].topPattern, Cases11To20()[k].edgePattern) !in
      [("00111100", "010100000011"), ("11000011", "001011010000"),
       ("00111100", "110000001010"), ("11000011", "000010110100")]
    ensures forall k :: 0 <= k < 10 ==>
      (Cases21To30()[k].topPattern, Cases21To30()[k].edgePattern) !in
      [("00111100", "010100000011"), ("11000011", "001011010000"),
       ("00111100", "110000001010"), ("11000011", "000010110100")]
  {
  }

  /** No case of OLL31 to OLL38 before OLL39 has one of its orientations. */
  lemma Orbit39LateApart()
    ensures forall k :: 0 <= k < 8 ==>
      (Cases31To40()[k].topPattern, Cases31To40()[k].edgePattern) !in
      [("00111100", "010100000011"), ("11000011", "001011010000"),
       ("00111100", "110000001010"), ("11000011", "000010110100")]
  {
  }

  /** OLL39's orientations, read off the first three groups of the catalog. */
  lemma Oll39EarlyApart(j: nat)
    requires j == 38
    ensures Apart(Group(0), 0, j, Turns(Cases31To40()[j - 30].topPattern, Cases31To40()[j - 30].edgePattern))
    ensures Apart(Group(1), 10, j, Turns(Cases31To40()[j - 30].topPattern, Cases31To40()[j - 30].edgePattern))
    ensures Apart(Group(2), 20, j, Turns(Cases31To40()[j - 30].topPattern, Cases31To40()[j - 30].edgePattern))
  {
    assert Cases31To40()[j - 30] == Oll39;
    Orbit39IsTurns();
    Orbit39EarlyApart();
  }

  /** OLL39's orientations, read off the last three groups of the catalog. */
  lemma Oll39LateApart(j: nat)
    requires j == 38
    ensures Apart(Group(3), 30, j, Turns(Cases31To40()[j - 30].topPattern, Cases31To40()[j - 30].edgePattern))
    ensures Apart(Group(4), 40, j, Turns(Cases31To40()[j - 30].topPattern, Cases31To40()[j - 30].edgePattern))
    ensures Apart(Group(5), 50, j, Turns(Cases31To40()[j - 30].topPattern, Cases31To40()[j - 30].edgePattern))
  {
    assert Cases31To40()[j - 30] == Oll39;
    Orbit39IsTurns();
    Orbit39LateApart();
  }

  /** No case before OLL39 has one of its orientations. */
  lemma Oll39Apart(j: nat)
    requires j == 38
    ensures ApartFrom(0, j, Turns(Cases31To40()[j - 30].topPattern, Cases31To40()[j - 30].edgePattern))
  {
    Oll39EarlyApart(j);
    Oll39LateApart(j);
    var orbit := Turns(Cases31To40()[j - 30].topPattern, Cases31To40()[j - 30].edgePattern);
    assert ApartFrom(5, j, orbit);
    assert ApartFrom(4, j, orbit);
    assert ApartFrom(3, j, orbit);
    assert ApartFrom(2, j, orbit);
    assert ApartFrom(1, j, orbit);
    assert ApartFrom(0, j, orbit);
  }

  /** The four orientations of OLL40, at 0, 90, 180 and 270 degrees. */
  lemma Orbit40IsTurns()
    ensures Turns(Oll40.topPattern, Oll40.edgePattern) ==
      [("10011001", "011001000010"), ("01100110", "100010011000"),
       ("10011001", "010000100110"), ("01100110", "000110010001")]
  {
    assert RotateTop("10011001") == "01100110";
    assert RotateEdge("011001000010") == "100010011000";
    assert RotateTop("01100110") == "10011001";
    assert RotateEdge("100010011000") == "010000100110";
    assert RotateEdge("010000100110") == "000110010001";
  }

  /** No case of OLL01 to OLL30 before OLL40 has one of its orientations. */
  lemma Orbit40EarlyApart()
    ensures forall k :: 0 <= k < 10 ==>
      (Cases01To10()[k].topPattern, Cases01To10()[k].edgePattern) !in
      [("10011001", "011001000010"), ("01100110", "100010011000"),
       ("10011001", "010000100110"), ("01100110", "000110010001")]
    ensures forall k :: 0 <= k < 10 ==>
      (Cases11To20()[k].topPattern, Cases11To20()[k].edgePattern) !in
      [("10011001", "011001000010"), ("01100110", "100010011000"),
       ("10011001", "010000100110"), ("01100110", "000110010001")]
    ensures forall k :: 0 <= k < 10 ==>
      (Cases21To30()[k].topPattern, Cases21To30()[k].edgePattern) !in
      [("10011001", "011001000010"), ("01100110", "100010011000"),
       ("10011001", "010000100110"), ("01100110", "000110010001")]
  {
  }

  /** No case of OLL31 to OLL39 before OLL40 has one of its orientations. */
  lemma Orbit40LateApart()
    ensures forall k :: 0 <= k < 9 ==>
      (Cases31To40()[k].topPattern, Cases31To40()[k].edgePattern) !in
      [("10011001", "011001000010"), ("01100110", "100010011000"),
       ("10011001", "010000100110"), ("01100110", "000110010001")]
  {
  }

  /** OLL40's orientations, read off the first three groups of the catalog. */
  lemma Oll40EarlyApart(j: nat)
    requires j == 39
    ensures Apart(Group(0), 0, j, Turns(Cases31To40()[j - 30].topPattern, Cases31To40()[j - 30].edgePattern))
    ensures Apart(Group(1), 10, j, Turns(Cases31To40()[j - 30].topPattern, Cases31To40()[j - 30].edgePattern))
    ensures Apart(Group(2), 20, j, Turns(Cases31To40()[j - 30].topPattern, Cases31To40()[j - 30].edgePattern))
  {
    assert Cases31To40()[j - 30] == Oll40;
    Orbit40IsTurns();
    Orbit40EarlyApart();
  }

  /** OLL40's orientations, read off the last three groups of the catalog. */
  lemma Oll40LateApart(j: nat)
    requires j == 39
    ensures Apart(Group(3), 30, j, Turns(Cases31To40()[j - 30].topPattern, Cases31To40()[j - 30].edgePattern))
    ensures Apart(Group(4), 40, j, Turns(Cases31To40()[j - 30].topPattern, Cases31To40()[j - 30].edgePattern))
    ensures Apart(Group(5), 50, j, Turns(Cases31To40()[j - 30].topPattern, Cases31To40()[j - 30].edgePattern))
  {
    assert Cases31To40()[j - 30] == Oll40;
    Orbit40IsTurns();
    Orbit40LateApart();
  }

  /** No case before OLL40 has one of its orientations. */
  lemma Oll40Apart(j: nat)
    requires j == 39
    ensures ApartFrom(0, j, Turns(Cases31To40()[j - 30].topPattern, Cases31To40()[j - 30].edgePattern))
  {
    Oll40EarlyApart(j);
    Oll40LateApart(j);
    var orbit := Turns(Cases31To40()[j - 30].topPattern, Cases31To40()[j - 30].edgePattern);
    assert ApartFrom(5, j, orbit);
    assert ApartFrom(4, j, orbit);
    assert ApartFrom(3, j, orbit);
    assert ApartFrom(2, j, orbit);
    assert ApartFrom(1, j, orbit);
    assert ApartFrom(0, j, orbit);
  }

  /** The four orientations of OLL41, at 0, 90, 180 and 270 degrees. */
  lemma Orbit41IsTurns()
    ensures Turns(Oll41.topPattern, Oll41.edgePattern) ==
      [("01010101", "101000010010"), ("11001100", "000010101010"),
       ("10101010", "010010000101"), ("00110011", "010101010000")]
  {
    assert RotateTop("01010101") == "11001100";
    assert RotateEdge("101000010010") == "000010101010";
    assert RotateTop("11001100") == "10101010";
    assert RotateEdge("000010101010") == "010010000101";
    assert RotateTop("10101010") == "00110011";
    assert RotateEdge("010010000101") == "010101010000";
  }

  /** No case of OLL01 to OLL30 before OLL41 has one of its orientations. */
  lemma Orbit41EarlyApart()
    ensures forall k :: 0 <= k < 10 ==>
      (Cases01To10()[k].topPattern, Cases01To10()[k].edgePattern) !in
      [("01010101", "101000010010"), ("11001100", "000010101010"),
       ("10101010", "010010000101"), ("00110011", "010101010000")]
    ensures forall k :: 0 <= k < 10 ==>
      (Cases11To20()[k].topPattern, Cases11To20()[k].edgePattern) !in
      [("01010101", "101000010010"), ("11001100", "000010101010"),
       ("10101010", "010010000101"), ("00110011", "010101010000")]
    ensures forall k :: 0 <= k < 10 ==>
      (Cases21To30()[k].topPattern, Cases21To30()[k].edgePattern) !in
      [("01010101", "101000010010"), ("11001100", "000010101010"),
       ("10101010", "010010000101"), ("00110011", "010101010000")]
  {
  }

  /** No case of OLL31 to OLL40 before OLL41 has one of its orientations. */
  lemma Orbit41LateApart()
    ensures forall k :: 0 <= k < 10 ==>
      (Cases31To40()[k].topPattern, Cases31To40()[k].edgePattern) !in
      [("01010101", "101000010010"), ("11001100", "000010101010"),
       ("10101010", "010010000101"), ("00110011", "010101010000")]
  {
  }

  /** OLL41's orientations, read off the first three groups of the catalog. */
  lemma Oll41EarlyApart(j: nat)
    requires j == 40
    ensures Apart(Group(0), 0, j, Turns(Cases41To50()[j - 40].topPattern, Cases41To50()[j - 40].edgePattern))
    ensures Apart(Group(1), 10, j, Turns(Cases41To50()[j - 40].topPattern, Cases41To50()[j - 40].edgePattern))
    ensures Apart(Group(2), 20, j, Turns(Cases41To50()[j - 40].topPattern, Cases41To50()[j - 40].edgePattern))
  {
    assert Cases41To50()[j - 40] == Oll41;
    Orbit41IsTurns();
    Orbit41EarlyApart();
  }

  /** OLL41's orientations, read off the last three groups of the catalog. */
  lemma Oll41LateApart(j: nat)
    requires j == 40
    ensures Apart(Group(3), 30, j, Turns(Cases41To50()[j - 40].topPattern, Cases41To50()[j - 40].edgePattern))
    ensures Apart(Group(4), 40, j, Turns(Cases41To50()[j - 40].topPattern, Cases41To50()[j - 40].edgePattern))
    ensures Apart(Group(5), 50, j, Turns(Cases41To50()[j - 40].topPattern, Cases41To50()[j - 40].edgePattern))
  {
    assert Cases41To50()[j - 40] == Oll41;
    Orbit41IsTurns();
    Orbit41LateApart();
  }

  /** No case before OLL41 has one of its orientations. */
  lemma Oll41Apart(j: nat)
    requires j == 40
    ensures ApartFrom(0, j, Turns(Cases41To50()[j - 40].topPattern, Cases41To50()[j - 40].edgePattern))
  {
    Oll41EarlyApart(j);
    Oll41LateApart(j);
    var orbit := Turns(Cases41To50()[j - 40].topPattern, Cases41To50()[j - 40].edgePattern);
    assert ApartFrom(5, j, orbit);
    assert ApartFrom(4, j, orbit);
    assert ApartFrom(3, j, orbit);
    assert ApartFrom(2, j, orbit);
    assert ApartFrom(1, j, orbit);
    assert ApartFrom(0, j, orbit);
  }

  /** The four orientations of OLL42, at 0, 90, 180 and 270 degrees. */
  lemma Orbit42IsTurns()
    ensures Turns(Oll42.topPattern, Oll42.edgePattern) ==
      [("10110010", "010000010101"), ("01110001", "000101010010"),
       ("01001101", "101010000010"), ("10001110", "010010101000")]
  {
    assert RotateTop("10110010") == "01110001";
    assert RotateEdge("010000010101") == "000101010010";
    assert RotateTop("01110001") == "01001101";
    assert RotateEdge("000101010010") == "101010000010";
    assert RotateTop("01001101") == "10001110";
    assert RotateEdge("101010000010") == "010010101000";
  }

  /** No case of OLL01 to OLL30 before OLL42 has one of its orientations. */
  lemma Orbit42EarlyApart()
    ensures forall k :: 0 <= k < 10 ==>
      (Cases01To10()[k].topPattern, Cases01To10()[k].edgePattern) !in
      [("10110010", "010000010101"), ("01110001", "000101010010"),
       ("01001101", "101010000010"), ("10001110", "010010101000")]
    ensures forall k :: 0 <= k < 10 ==>
      (Cases11To20()[k].topPattern, Cases11To20()[k].edgePattern) !in
      [("10110010", "010000010101"), ("01110001", "000101010010"),
       ("01001101", "101010000010"), ("10001110", "010010101000")]
    ensures forall k :: 0 <= k < 10 ==>
      (Cases21To30()[k].topPattern, Cases21To30()[k].edgePattern) !in
      [("10110010", "010000010101"), ("01110001", "000101010010"),
       ("01001101", "101010000010"), ("10001110", "010010101000")]
  {
  }

  /** No case of OLL31 to OLL41 before OLL42 has one of its orientations. */
  lemma Orbit42LateApart()
    ensures forall k :: 0 <= k < 10 ==>
      (Cases31To40()[k].topPattern, Cases31To40()[k].edgePattern) !in
      [("10110010", "010000010101"), ("01110001", "000101010010"),
       ("01001101", "101010000010"), ("10001110", "010010101000")]
    ensures forall k :: 0 <= k < 1 ==>
      (Cases41To50()[k].topPattern, Cases41To50()[k].edgePattern) !in
      [("10110010", "010000010101"), ("01110001", "000101010010"),
       ("01001101", "101010000010"), ("10001110", "010010101000")]
  {
  }

  /** OLL42's orientations, read off the first three groups of the catalog. */
  lemma Oll42EarlyApart(j: nat)
    requires j == 41
    ensures Apart(Group(0), 0, j, Turns(Cases41To50()[j - 40].topPattern, Cases41To50()[j - 40].edgePattern))
    ensures Apart(Group(1), 10, j, Turns(Cases41To50()[j - 40].topPattern, Cases41To50()[j - 40].edgePattern))
    ensures Apart(Group(2), 20, j, Turns(Cases41To50()[j - 40].topPattern, Cases41To50()[j - 40].edgePattern))
  {
    assert Cases41To50()[j - 40] == Oll42;
    Orbit42IsTurns();
    Orbit42EarlyApart();
  }

  /** OLL42's orientations, read off the last three groups of the catalog. */
  lemma Oll42LateApart(j: nat)
    requires j == 41
    ensures Apart(Group(3), 30, j, Turns(Cases41To50()[j - 40].topPattern, Cases41To50()[j - 40].edgePattern))
    ensures Apart(Group(4), 40, j, Turns(Cases41To50()[j - 40].topPattern, Cases41To50()[j - 40].edgePattern))
    ensures Apart(Group(5), 50, j, Turns(Cases41To50()[j - 40].topPattern, Cases41To50()[j - 40].edgePattern))
  {
    assert Cases41To50()[j - 40] == Oll42;
    Orbit42IsTurns();
    Orbit42LateApart();
  }

  /** No case before OLL42 has one of its orientations. */
  lemma Oll42Apart(j: nat)
    requires j == 41
    ensures ApartFrom(0, j, Turns(Cases41To50()[j - 40].topPattern, Cases41To50()[j - 40].edgePattern))
  {
    Oll42EarlyApart(j);
    Oll42LateApart(j);
    var orbit := Turns(Cases41To50()[j - 40].topPattern, Cases41To50()[j - 40].edgePattern);
    assert ApartFrom(5, j, orbit);
    assert ApartFrom(4, j, orbit);
    assert ApartFrom(3, j, orbit);
    assert ApartFrom(2, j, orbit);
    assert ApartFrom(1, j, orbit);
    assert ApartFrom(0, j, orbit);
  }

  /** The four orientations of OLL43, at 0, 90, 180 and 270 degrees. */
  lemma Orbit43IsTurns()
    ensures Turns(Oll43.topPattern, Oll43.edgePattern) ==
      [("11110000", "000000010111"), ("01101001", "000111000010"),
       ("00001111", "111010000000"), ("10010110", "010000111000")]
  {
    assert RotateTop("11110000") == "01101001";
    assert RotateEdge("000000010111") == "000111000010";
    assert RotateTop("01101001") == "00001111";
    assert RotateEdge("000111000010") == "111010000000";
    assert RotateTop("00001111") == "10010110";
    assert RotateEdge("111010000000") == "010000111000";
  }

  /** No case of OLL01 to OLL30 before OLL43 has one of its orientations. */
  lemma Orbit43EarlyApart()
    ensures forall k :: 0 <= k < 10 ==>
      (Cases01To10()[k].topPattern, Cases01To10()[k].edgePattern) !in
      [("11110000", "000000010111"), ("01101001", "000111000010"),
       ("00001111", "111010000000"), ("10010110", "010000111000")]
    ensures forall k :: 0 <= k < 10 ==>
      (Cases11To20()[k].topPattern, Cases11To20()[k].edgePattern) !in
      [("11110000", "000000010111"), ("01101001", "000111000010"),
       ("00001111", "111010000000"), ("10010110", "010000111000")]
    ensures forall k :: 0 <= k < 10 ==>
      (Cases21To30()[k].topPattern, Cases21To30()[k].edgePattern) !in
      [("11110000", "000000010111"), ("01101001", "000111000010"),
       ("00001111", "111010000000"), ("10010110", "010000111000")]
  {
  }

  /** No case of OLL31 to OLL42 before OLL43 has one of its orientations. */
  lemma Orbit43LateApart()
    ensures forall k :: 0 <= k < 10 ==>
      (Cases31To40()[k].topPattern, Cases31To40()[k].edgePattern) !in
      [("11110000", "000000010111"), ("01101001", "000111000010"),
       ("00001111", "111010000000"), ("10010110", "010000111000")]
    ensures forall k :: 0 <= k < 2 ==>
      (Cases41To50()[k].topPattern, Cases41To50()[k].edgePattern) !in
      [("11110000", "000000010111"), ("01101001", "000111000010"),
       ("00001111", "111010000000"), ("10010110", "010000111000")]
  {
  }

  /** OLL43's orientations, read off the first three groups of the catalog. */
  lemma Oll43EarlyApart(j: nat)
    requires j == 42
    ensures Apart(Group(0), 0, j, Turns(Cases41To50()[j - 40].topPattern, Cases41To50()[j - 40].edgePattern))
    ensures Apart(Group(1), 10, j, Turns(Cases41To50()[j - 40].topPattern, Cases41To50()[j - 40].edgePattern))
    ensures Apart(Group(2), 20, j, Turns(Cases41To50()[j - 40].topPattern, Cases41To50()[j - 40].edgePattern))
  {
    assert Cases41To50()[j - 40] == Oll43;
    Orbit43IsTurns();
    Orbit43EarlyApart();
  }

  /** OLL43's orientations, read off the last three groups of the catalog. */
  lemma Oll43LateApart(j: nat)
    requires j == 42
    ensures Apart(Group(3), 30, j, Turns(Cases41To50()[j - 40].topPattern, Cases41To50()[j - 40].edgePattern))
    ensures Apart(Group(4), 40, j, Turns(Cases41To50()[j - 40].topPattern, Cases41To50()[j - 40].edgePattern))
    ensures Apart(Group(5), 50, j, Turns(Cases41To50()[j - 40].topPattern, Cases41To50()[j - 40].edgePattern))
  {
    assert Cases41To50()[j - 40] == Oll43;
    Orbit43IsTurns();
    Orbit43LateApart();
  }

  /** No case before OLL43 has one of its orientations. */
  lemma Oll43Apart(j: nat)
    requires j == 42
    ensures ApartFrom(0, j, Turns(Cases41To50()[j - 40].topPattern, Cases41To50()[j - 40].edgePattern))
  {
    Oll43EarlyApart(j);
    Oll43LateApart(j);
    var orbit := Turns(Cases41To50()[j - 40].topPattern, Cases41To50()[j - 40].edgePattern);
    assert ApartFrom(5, j, orbit);
    assert ApartFrom(4, j, orbit);
    assert ApartFrom(3, j, orbit);
    assert ApartFrom(2, j, orbit);
    assert ApartFrom(1, j, orbit);
    assert ApartFrom(0, j, orbit);
  }

  /** The four orientations of OLL44, at 0, 90, 180 and 270 degrees. */
  lemma Orbit44IsTurns()
    ensures Turns(Oll44.topPattern, Oll44.edgePattern) ==
      [("00101001", "010111000000"), ("00000111", "111000010000"),
       ("10010100", "000000111010"), ("11100000", "000010000111")]
  {
    assert RotateTop("00101001") == "00000111";
    assert RotateEdge("010111000000") == "111000010000";
    assert RotateTop("00000111") == "10010100";
    assert RotateEdge("111000010000") == "000000111010";
    assert RotateTop("10010100") == "11100000";
    assert RotateEdge("000000111010") == "000010000111";
  }

  /** No case of OLL01 to OLL30 before OLL44 has one of its orientations. */
  lemma Orbit44EarlyApart()
    ensures forall k :: 0 <= k < 10 ==>
      (Cases01To10()[k].topPattern, Cases01To10()[k].edgePattern) !in
      [("00101001", "010111000000"), ("00000111", "111000010000"),
       ("10010100", "000000111010"), ("11100000", "000010000111")]
    ensures forall k :: 0 <= k < 10 ==>
      (Cases11To20()[k].topPattern, Cases11To20()[k].edgePattern) !in
      [("00101001", "010111000000"), ("00000111", "111000010000"),
       ("10010100", "000000111010"), ("11100000", "000010000111")]
    ensures forall k :: 0 <= k < 10 ==>
      (Cases21To30()[k].topPattern, Cases21To30()[k].edgePattern) !in
      [("00101001", "010111000000"), ("00000111", "111000010000"),
       ("10010100", "000000111010"), ("11100000", "000010000111")]
  {
  }

  /** No case of OLL31 to OLL43 before OLL44 has one of its orientations. */
  lemma Orbit44LateApart()
    ensures forall k :: 0 <= k < 10 ==>
      (Cases31To40()[k].topPattern, Cases31To40()[k].edgePattern) !in
      [("00101001", "010111000000"), ("00000111", "111000010000"),
       ("10010100", "000000111010"), ("11100000", "000010000111")]
    ensures forall k :: 0 <= k < 3 ==>
      (Cases41To50()[k].topPattern, Cases41To50()[k].edgePattern) !in
      [("00101001", "010111000000"), ("00000111", "111000010000"),
       ("10010100", "000000111010"), ("11100000", "000010000111")]
  {
  }

  /** OLL44's orientations, read off the first three groups of the catalog. */
  lemma Oll44EarlyApart(j: nat)
    requires j == 43
    ensures Apart(Group(0), 0, j, Turns(Cases41To50()[j - 40].topPattern, Cases41To50()[j - 40].edgePattern))
    ensures Apart(Group(1), 10, j, Turns(Cases41To50()[j - 40].topPattern, Cases41To50()[j - 40].edgePattern))
    ensures Apart(Group(2), 20, j, Turns(Cases41To50()[j - 40].topPattern, Cases41To50()[j - 40].edgePattern))
  {
    assert Cases41To50()[j - 40] == Oll44;
    Orbit44IsTurns();
    Orbit44EarlyApart();
  }

  /** OLL44's orientations, read off the last three groups of the catalog. */
  lemma Oll44LateApart(j: nat)
    requires j == 43
    ensures Apart(Group(3), 30, j, Turns(Cases41To50()[j - 40].topPattern, Cases41To50()[j - 40].edgePattern))
    ensures Apart(Group(4), 40, j, Turns(Cases41To50()[j - 40].topPattern, Cases41To50()[j - 40].edgePattern))
    ensures Apart(Group(5), 50, j, Turns(Cases41To50()[j - 40].topPattern, Cases41To50()[j - 40].edgePattern))
  {
    assert Cases41To50()[j - 40] == Oll44;
    Orbit44IsTurns();
    Orbit44LateApart();
  }

  /** No case before OLL44 has one of its orientations. */
  lemma Oll44Apart(j: nat)
    requires j == 43
    ensures ApartFrom(0, j, Turns(Cases41To50()[j - 40].topPattern, Cases41To50()[j - 40].edgePattern))
  {
    Oll44EarlyApart(j);
    Oll44LateApart(j);
    var orbit := Turns(Cases41To50()[j - 40].topPattern, Cases41To50()[j - 40].edgePattern);
    assert ApartFrom(5, j, orbit);
    assert ApartFrom(4, j, orbit);
    assert ApartFrom(3, j, orbit);
    assert ApartFrom(2, j, orbit);
    assert ApartFrom(1, j, orbit);
    assert ApartFrom(0, j, orbit);
  }

  /** The four orientations of OLL45, at 0, 90, 180 and 270 degrees. */
  lemma Orbit45IsTurns()
    ensures Turns(Oll45.topPattern, Oll45.edgePattern) ==
      [("00111001", "010101000010"), ("01000111", "101010010000"),
       ("10011100", "010000101010"), ("11100010", "000010010101")]
  {
    assert RotateTop("00111001") == "01000111";
    assert RotateEdge("010101000010") == "101010010000";
    assert RotateTop("01000111") == "10011100";
    assert RotateEdge("101010010000") == "010000101010";
    assert RotateTop("10011100") == "11100010";
    assert RotateEdge("010000101010") == "000010010101";
  }

  /** No case of OLL01 to OLL30 before OLL45 has one of its orientations. */
  lemma Orbit45EarlyApart()
    ensures forall k :: 0 <= k < 10 ==>
      (Cases01To10()[k].topPattern, Cases01To10()[k].edgePattern) !in
      [("00111001", "010101000010"), ("01000111", "101010010000"),
       ("10011100", "010000101010"), ("11100010", "000010010101")]
    ensures forall k :: 0 <= k < 10 ==>
      (Cases11To20()[k].topPattern, Cases11To20()[k].edgePattern) !in
      [("00111001", "010101000010"), ("01000111", "101010010000"),
       ("10011100", "010000101010"), ("11100010", "000010010101")]
    ensures forall k :: 0 <= k < 10 ==>
      (Cases21To30()[k].topPattern, Cases21To30()[k].edgePattern) !in
      [("00111001", "010101000010"), ("01000111", "101010010000"),
       ("10011100", "010000101010"), ("11100010", "000010010101")]
  {
  }

  /** No case of OLL31 to OLL44 before OLL45 has one of its orientations. */
  lemma Orbit45LateApart()
    ensures forall k :: 0 <= k < 10 ==>
      (Cases31To40()[k].topPattern, Cases31To40()[k].edgePattern) !in
      [("00111001", "010101000010"), ("01000111", "101010010000"),
       ("10011100", "010000101010"), ("11100010", "000010010101")]
    ensures forall k :: 0 <= k < 4 ==>
      (Cases41To50()[k].topPattern, Cases41To50()[k].edgePattern) !in
      [("00111001", "010101000010"), ("01000111", "101010010000"),
       ("10011100", "010000101010"), ("11100010", "000010010101")]
  {
  }

  /** OLL45's orientations, read off the first three groups of the catalog. */
  lemma Oll45EarlyApart(j: nat)
    requires j == 44
    ensures Apart(Group(0), 0, j, Turns(Cases41To50()[j - 40].topPattern, Cases41To50()[j - 40].edgePattern))
    ensures Apart(Group(1), 10, j, Turns(Cases41To50()[j - 40].topPattern, Cases41To50()[j - 40].edgePattern))
    ensures Apart(Group(2), 20, j, Turns(Cases41To50()[j - 40].topPattern, Cases41To50()[j - 40].edgePattern))
  {
    assert Cases41To50()[j - 40] == Oll45;
    Orbit45IsTurns();
    Orbit45EarlyApart();
  }

  /** OLL45's orientations, read off the last three groups of the catalog. */
  lemma Oll45LateApart(j: nat)
    requires j == 44
    ensures Apart(Group(3), 30, j, Turns(Cases41To50()[j - 40].topPattern, Cases41To50()[j - 40].edgePattern))
    ensures Apart(Group(4), 40, j, Turns(Cases41To50()[j - 40].topPattern, Cases41To50()[j - 40].edgePattern))
    ensures Apart(Group(5), 50, j, Turns(Cases41To50()[j - 40].topPattern, Cases41To50()[j - 40].edgePattern))
  {
    assert Cases41To50()[j - 40] == Oll45;
    Orbit45IsTurns();
    Orbit45LateApart();
  }

  /** No case before OLL45 has one of its orientations. */
  lemma Oll45Apart(j: nat)
    requires j == 44
    ensures ApartFrom(0, j, Turns(Cases41To50()[j - 40].topPattern, Cases41To50()[j - 40].edgePattern))
  {
    Oll45EarlyApart(j);
    Oll45LateApart(j);
    var orbit := Turns(Cases41To50()[j - 40].topPattern, Cases41To50()[j - 40].edgePattern);
    assert ApartFrom(5, j, orbit);
    assert ApartFrom(4, j, orbit);
    assert ApartFrom(3, j, orbit);
    assert ApartFrom(2, j, orbit);
    assert ApartFrom(1, j, orbit);
    assert ApartFrom(0, j, orbit);
  }

  /** The four orientations of OLL46, at 0, 90, 180 and 270 degrees. */
  lemma Orbit46IsTurns()
    ensures Turns(Oll46.topPattern, Oll46.edgePattern) ==
      [("11000110", "000010111000"), ("10111000", "010000000111"),
       ("01100011", "000111010000"), ("00011101", "111000000010")]
  {
    assert RotateTop("11000110") == "10111000";
    assert RotateEdge("000010111000") == "010000000111";
    assert RotateTop("10111000") == "01100011";
    assert RotateEdge("010000000111") == "000111010000";
    assert RotateTop("01100011") == "00011101";
    assert RotateEdge("000111010000") == "111000000010";
  }

  /** No case of OLL01 to OLL30 before OLL46 has one of its orientations. */
  lemma Orbit46EarlyApart()
    ensures forall k :: 0 <= k < 10 ==>
      (Cases01To10()[k].topPattern, Cases01To10()[k].edgePattern) !in
      [("11000110", "000010111000"), ("10111000", "010000000111"),
       ("01100011", "000111010000"), ("00011101", "111000000010")]
    ensures forall k :: 0 <= k < 10 ==>
      (Cases11To20()[k].topPattern, Cases11To20()[k].edgePattern) !in
      [("11000110", "000010111000"), ("10111000", "010000000111"),
       ("01100011", "000111010000"), ("00011101", "111000000010")]
    ensures forall k :: 0 <= k < 10 ==>
      (Cases21To30()[k].topPattern, Cases21To30()[k].edgePattern) !in
      [("11000110", "000010111000"), ("10111000", "010000000111"),
       ("01100011", "000111010000"), ("00011101", "111000000010")]
  {
  }

  /** No case of OLL31 to OLL45 before OLL46 has one of its orientations. */
  lemma Orbit46LateApart()
    ensures forall k :: 0 <= k < 10 ==>
      (Cases31To40()[k].topPattern, Cases31To40()[k].edgePattern) !in
      [("11000110", "000010111000"), ("10111000", "010000000111"),
       ("01100011", "000111010000"), ("00011101", "111000000010")]
    ensures forall k :: 0 <= k < 5 ==>
      (Cases41To50()[k].topPattern, Cases41To50()[k].edgePattern) !in
      [("11000110", "000010111000"), ("10111000", "010000000111"),
       ("01100011", "000111010000"), ("00011101", "111000000010")]
  {
  }

  /** OLL46's orientations, read off the first three groups of the catalog. */
  lemma Oll46EarlyApart(j: nat)
    requires j == 45
    ensures Apart(Group(0), 0, j, Turns(Cases41To50()[j - 40].topPattern, Cases41To50()[j - 40].edgePattern))
    ensures Apart(Group(1), 10, j, Turns(Cases41To50()[j - 40].topPattern, Cases41To50()[j - 40].edgePattern))
    ensures Apart(Group(2), 20, j, Turns(Cases41To50()[j - 40].topPattern, Cases41To50()[j - 40].edgePattern))
  {
    assert Cases41To50()[j - 40] == Oll46;
    Orbit46IsTurns();
    Orbit46EarlyApart();
  }

  /** OLL46's orientations, read off the last three groups of the catalog. */
  lemma Oll46LateApart(j: nat)
    requires j == 45
    ensures Apart(Group(3), 30, j, Turns(Cases41To50()[j - 40].topPattern, Cases41To50()[j - 40].edgePattern))
    ensures Apart(Group(4), 40, j, Turns(Cases41To50()[j - 40].topPattern, Cases41To50()[j - 40].edgePattern))
    ensures Apart(Group(5), 50, j, Turns(Cases41To50()[j - 40].topPattern, Cases41To50()[j - 40].edgePattern))
  {
    assert Cases41To50()[j - 40] == Oll46;
    Orbit46IsTurns();
    Orbit46LateApart();
  }

  /** No case before OLL46 has one of its orientations. */
  lemma Oll46Apart(j: nat)
    requires j == 45
    ensures ApartFrom(0, j, Turns(Cases41To50()[j - 40].topPattern, Cases41To50()[j - 40].edgePattern))
  {
    Oll46EarlyApart(j);
    Oll46LateApart(j);
    var orbit := Turns(Cases41To50()[j - 40].topPattern, Cases41To50()[j - 40].edgePattern);
    assert ApartFrom(5, j, orbit);
    assert ApartFrom(4, j, orbit);
    assert ApartFrom(3, j, orbit);
    assert ApartFrom(2, j, orbit);
    assert ApartFrom(1, j, orbit);
    assert ApartFrom(0, j, orbit);
  }

  /** The four orientations of OLL47, at 0, 90, 180 and 270 degrees. */
  lemma Orbit47IsTurns()
    ensures Turns(Oll47.topPattern, Oll47.edgePattern) ==
      [("01001000", "100010101110"), ("00001010", "010110100101"),
       ("00010010", "011101010001"), ("01010000", "101001011010")]
  {
    assert RotateTop("01001000") == "00001010";
    assert RotateEdge("100010101110") == "010110100101";
    assert RotateTop("00001010") == "00010010";
    assert RotateEdge("010110100101") == "011101010001";
    assert RotateTop("00010010") == "01010000";
    assert RotateEdge("011101010001") == "101001011010";
  }

  /** No case of OLL01 to OLL30 before OLL47 has one of its orientations. */
  lemma Orbit47EarlyApart()
    ensures forall k :: 0 <= k < 10 ==>
      (Cases01To10()[k].topPattern, Cases01To10()[k].edgePattern) !in
      [("01001000", "100010101110"), ("00001010", "010110100101"),
       ("00010010", "011101010001"), ("01010000", "101001011010")]
    ensures forall k :: 0 <= k < 10 ==>
      (Cases11To20()[k].topPattern, Cases11To20()[k].edgePattern) !in
      [("01001000", "100010101110"), ("00001010", "010110100101"),
       ("00010010", "011101010001"), ("01010000", "101001011010")]
    ensures forall k :: 0 <= k < 10 ==>
      (Cases21To30()[k].topPattern, Cases21To30()[k].edgePattern) !in
      [("01001000", "100010101110"), ("00001010", "010110100101"),
       ("00010010", "011101010001"), ("01010000", "101001011010")]
  {
  }

  /** No case of OLL31 to OLL46 before OLL47 has one of its orientations. */
  lemma Orbit47LateApart()
    ensures forall k :: 0 <= k < 10 ==>
      (Cases31To40()[k].topPattern, Cases31To40()[k].edgePattern) !in
      [("01001000", "100010101110"), ("00001010", "010110100101"),
       ("00010010", "011101010001"), ("01010000", "101001011010")]
    ensures forall k :: 0 <= k < 6 ==>
      (Cases41To50()[k].topPattern, Cases41To50()[k].edgePattern) !in
      [("01001000", "100010101110"), ("00001010", "010110100101"),
       ("00010010", "011101010001"), ("01010000", "101001011010")]
  {
  }

  /** OLL47's orientations, read off the first three groups of the catalog. */
  lemma Oll47EarlyApart(j: nat)
    requires j == 46
    ensures Apart(Group(0), 0, j, Turns(Cases41To50()[j - 40].topPattern, Cases41To50()[j - 40].edgePattern))
    ensures Apart(Group(1), 10, j, Turns(Cases41To50()[j - 40].topPattern, Cases41To50()[j - 40].edgePattern))
    ensures Apart(Group(2), 20, j, Turns(Cases41To50()[j - 40].topPattern, Cases41To50()[j - 40].edgePattern))
  {
    assert Cases41To50()[j - 40] == Oll47;
    Orbit47IsTurns();
    Orbit47EarlyApart();
  }

  /** OLL47's orientations, read off the last three groups of the catalog. */
  lemma Oll47LateApart(j: nat)
    requires j == 46
    ensures Apart(Group(3), 30, j, Turns(Cases41To50()[j - 40].topPattern, Cases41To50()[j - 40].edgePattern))
    ensures Apart(Group(4), 40, j, Turns(Cases41To50()[j - 40].topPattern, Cases41To50()[j - 40].edgePattern))
    ensures Apart(Group(5), 50, j, Turns(Cases41To50()[j - 40].topPattern, Cases41To50()[j - 40].edgePattern))
  {
    assert Cases41To50()[j - 40] == Oll47;
    Orbit47IsTurns();
    Orbit47LateApart();
  }

  /** No case before OLL47 has one of its orientations. */
  lemma Oll47Apart(j: nat)
    requires j == 46
    ensures ApartFrom(0, j, Turns(Cases41To50()[j - 40].topPattern, Cases41To50()[j - 40].edgePattern))
  {
    Oll47EarlyApart(j);
    Oll47LateApart(j);
    var orbit := Turns(Cases41To50()[j - 40].topPattern, Cases41To50()[j - 40].edgePattern);
    assert ApartFrom(5, j, orbit);
    assert ApartFrom(4, j, orbit);
    assert ApartFrom(3, j, orbit);
    assert ApartFrom(2, j, orbit);
    assert ApartFrom(1, j, orbit);
    assert ApartFrom(0, j, orbit);
  }

  /** The four orientations of OLL48, at 0, 90, 180 and 270 degrees. */
  lemma Orbit48IsTurns()
    ensures Turns(Oll48.topPattern, Oll48.edgePattern) ==
      [("01010000", "001101010011"), ("01001000", "101011001010"),
       ("00001010", "110010101100"), ("00010010", "010100110101")]
  {
    assert RotateTop("01010000") == "01001000";
    assert RotateEdge("001101010011") == "101011001010";
    assert RotateTop("01001000") == "00001010";
    assert RotateEdge("101011001010") == "110010101100";
    assert RotateTop("00001010") == "00010010";
    assert RotateEdge("110010101100") == "010100110101";
  }

  /** No case of OLL01 to OLL30 before OLL48 has one of its orientations. */
  lemma Orbit48EarlyApart()
    ensures forall k :: 0 <= k < 10 ==>
      (Cases01To10()[k].topPattern, Cases01To10()[k].edgePattern) !in
      [("01010000", "001101010011"), ("01001000", "101011001010"),
       ("00001010", "110010101100"), ("00010010", "010100110101")]
    ensures forall k :: 0 <= k < 10 ==>
      (Cases11To20()[k].topPattern, Cases11To20()[k].edgePattern) !in
      [("01010000", "001101010011"), ("01001000", "101011001010"),
       ("00001010", "110010101100"), ("00010010", "010100110101")]
    ensures forall k :: 0 <= k < 10 ==>
      (Cases21To30()[k].topPattern, Cases21To30()[k].edgePattern) !in
      [("01010000", "001101010011"), ("01001000", "101011001010"),
       ("00001010", "110010101100"), ("00010010", "010100110101")]
  {
  }

  /** No case of OLL31 to OLL47 before OLL48 has one of its orientations. */
  lemma Orbit48LateApart()
    ensures forall k :: 0 <= k < 10 ==>
      (Cases31To40()[k].topPattern, Cases31To40()[k].edgePattern) !in
      [("01010000", "001101010011"), ("01001000", "101011001010"),
       ("00001010", "110010101100"), ("00010010", "010100110101")]
    ensures forall k :: 0 <= k < 7 ==>
      (Cases41To50()[k].topPattern, Cases41To50()[k].edgePattern) !in
      [("01010000", "001101010011"), ("01001000", "101011001010"),
       ("00001010", "110010101100"), ("00010010", "010100110101")]
  {
  }

  /** OLL48's orientations, read off the first three groups of the catalog. */
  lemma Oll48EarlyApart(j: nat)
    requires j == 47
    ensures Apart(Group(0), 0, j, Turns(Cases41To50()[j - 40].topPattern, Cases41To50()[j - 40].edgePattern))
    ensures Apart(Group(1), 10, j, Turns(Cases41To50()[j - 40].topPattern, Cases41To50()[j - 40].edgePattern))
    ensures Apart(Group(2), 20, j, Turns(Cases41To50()[j - 40].topPattern, Cases41To50()[j - 40].edgePattern))
  {
    assert Cases41To50()[j - 40] == Oll48;
    Orbit48IsTurns();
    Orbit48EarlyApart();
  }

  /** OLL48's orientations, read off the last three groups of the catalog. */
  lemma Oll48LateApart(j: nat)
    requires j == 47
    ensures Apart(Group(3), 30, j, Turns(Cases41To50()[j - 40].topPattern, Cases41To50()[j - 40].edgePattern))
    ensures Apart(Group(4), 40, j, Turns(Cases41To50()[j - 40].topPattern, Cases41To50()[j - 40].edgePattern))
    ensures Apart(Group(5), 50, j, Turns(Cases41To50()[j - 40].topPattern, Cases41To50()[j - 40].edgePattern))
  {
    assert Cases41To50()[j - 40] == Oll48;
    Orbit48IsTurns();
    Orbit48LateApart();
  }

  /** No case before OLL48 has one of its orientations. */
  lemma Oll48Apart(j: nat)
    requires j == 47
    ensures ApartFrom(0, j, Turns(Cases41To50()[j - 40].topPattern, Cases41To50()[j - 40].edgePattern))
  {
    Oll48EarlyApart(j);
    Oll48LateApart(j);
    var orbit := Turns(Cases41To50()[j - 40].topPattern, Cases41To50()[j - 40].edgePattern);
    assert ApartFrom(5, j, orbit);
    assert ApartFrom(4, j, orbit);
    assert ApartFrom(3, j, orbit);
    assert ApartFrom(2, j, orbit);
    assert ApartFrom(1, j, orbit);
    assert ApartFrom(0, j, orbit);
  }

  /** The four orientations of OLL49, at 0, 90, 180 and 270 degrees. */
  lemma Orbit49IsTurns()
    ensures Turns(Oll49.topPattern, Oll49.edgePattern) ==
      [("01001000", "001111000011"), ("00001010", "111011001000"),
       ("00010010", "110000111100"), ("01010000", "000100110111")]
  {
    assert RotateTop("01001000") == "00001010";
    assert RotateEdge("001111000011") == "111011001000";
    assert RotateTop("00001010") == "00010010";
    assert RotateEdge("111011001000") == "110000111100";
    assert RotateTop("00010010") == "01010000";
    assert RotateEdge("110000111100") == "000100110111";
  }

  /** No case of OLL01 to OLL30 before OLL49 has one of its orientations. */
  lemma Orbit49EarlyApart()
    ensures forall k :: 0 <= k < 10 ==>
      (Cases01To10()[k].topPattern, Cases01To10()[k].edgePattern) !in
      [("01001000", "001111000011"), ("00001010", "111011001000"),
       ("00010010", "110000111100"), ("01010000", "000100110111")]
    ensures forall k :: 0 <= k < 10 ==>
      (Cases11To20()[k].topPattern, Cases11To20()[k].edgePattern) !in
      [("01001000", "001111000011"), ("00001010", "111011001000"),
       ("00010010", "110000111100"), ("01010000", "000100110111")]
    ensures forall k :: 0 <= k < 10 ==>
      (Cases21To30()[k].topPattern, Cases21To30()[k].edgePattern) !in
      [("01001000", "001111000011"), ("00001010", "111011001000"),
       ("00010010", "110000111100"), ("01010000", "000100110111")]
  {
  }

  /** No case of OLL31 to OLL48 before OLL49 has one of its orientations. */
  lemma Orbit49LateApart()
    ensures forall k :: 0 <= k < 10 ==>
      (Cases31To40()[k].topPattern, Cases31To40()[k].edgePattern) !in
      [("01001000", "001111000011"), ("00001010", "111011001000"),
       ("00010010", "110000111100"), ("01010000", "000100110111")]
    ensures forall k :: 0 <= k < 8 ==>
      (Cases41To50()[k].topPattern, Cases41To50()[k].edgePattern) !in
      [("01001000", "001111000011"), ("00001010", "111011001000"),
       ("00010010", "110000111100"), ("01010000", "000100110111")]
  {
  }

  /** OLL49's orientations, read off the first three groups of the catalog. */
  lemma Oll49EarlyApart(j: nat)
    requires j == 48
    ensures Apart(Group(0), 0, j, Turns(Cases41To50()[j - 40].topPattern, Cases41To50()[j - 40].edgePattern))
    ensures Apart(Group(1), 10, j, Turns(Cases41To50()[j - 40].topPattern, Cases41To50()[j - 40].edgePattern))
    ensures Apart(Group(2), 20, j, Turns(Cases41To50()[j - 40].topPattern, Cases41To50()[j - 40].edgePattern))
  {
    assert Cases41To50()[j - 40] == Oll49;
    Orbit49IsTurns();
    Orbit49EarlyApart();
  }

  /** OLL49's orientations, read off the last three groups of the catalog. */
  lemma Oll49LateApart(j: nat)
    requires j == 48
    ensures Apart(Group(3), 30, j, Turns(Cases41To50()[j - 40].topPattern, Cases41To50()[j - 40].edgePattern))
    ensures Apart(Group(4), 40, j, Turns(Cases41To50()[j - 40].topPattern, Cases41To50()[j - 40].edgePattern))
    ensures Apart(Group(5), 50, j, Turns(Cases41To50()[j - 40].topPattern, Cases41To50()[j - 40].edgePattern))
  {
    assert Cases41To50()[j - 40] == Oll49;
    Orbit49IsTurns();
    Orbit49LateApart();
  }

  /** No case before OLL49 has one of its orientations. */
  lemma Oll49Apart(j: nat)
    requires j == 48
    ensures ApartFrom(0, j, Turns(Cases41To50()[j - 40].topPattern, Cases41To50()[j - 40].edgePattern))
  {
    Oll49EarlyApart(j);
    Oll49LateApart(j);
    var orbit := Turns(Cases41To50()[j - 40].topPattern, Cases41To50()[j - 40].edgePattern);
    assert ApartFrom(5, j, orbit);
    assert ApartFrom(4, j, orbit);
    assert ApartFrom(3, j, orbit);
    assert ApartFrom(2, j, orbit);
    assert ApartFrom(1, j, orbit);
    assert ApartFrom(0, j, orbit);
  }

  /** The four orientations of OLL50, at 0, 90, 180 and 270 degrees. */
  lemma Orbit50IsTurns()
    ensures Turns(Oll50.topPattern, Oll50.edgePattern) ==
      [("00001010", "011111000001"), ("00010010", "111001011000"),
       ("01010000", "100000111110"), ("01001000", "000110100111")]
  {
    assert RotateTop("00001010") == "00010010";
    assert RotateEdge("011111000001") == "111001011000";
    assert RotateTop("00010010") == "01010000";
    assert RotateEdge("111001011000") == "100000111110";
    assert RotateTop("01010000") == "01001000";
    assert RotateEdge("100000111110") == "000110100111";
  }

  /** No case of OLL01 to OLL30 before OLL50 has one of its orientations. */
  lemma Orbit50EarlyApart()
    ensures forall k :: 0 <= k < 10 ==>
      (Cases01To10()[k].topPattern, Cases01To10()[k].edgePattern) !in
      [("00001010", "011111000001"), ("00010010", "111001011000"),
       ("01010000", "100000111110"), ("01001000", "000110100111")]
    ensures forall k :: 0 <= k < 10 ==>
      (Cases11To20()[k].topPattern, Cases11To20()[k].edgePattern) !in
      [("00001010", "011111000001"), ("00010010", "111001011000"),
       ("01010000", "100000111110"), ("01001000", "000110100111")]
    ensures forall k :: 0 <= k < 10 ==>
      (Cases21To30()[k].topPattern, Cases21To30()[k].edgePattern) !in
      [("00001010", "011111000001"), ("00010010", "111001011000"),
       ("01010000", "100000111110"), ("01001000", "000110100111")]
  {
  }

  /** No case of OLL31 to OLL49 before OLL50 has one of its orientations. */
  lemma Orbit50LateApart()
    ensures forall k :: 0 <= k < 10 ==>
      (Cases31To40()[k].topPattern, Cases31To40()[k].edgePattern) !in
      [("00001010", "011111000001"), ("00010010", "111001011000"),
       ("01010000", "100000111110"), ("01001000", "000110100111")]
    ensures forall k :: 0 <= k < 9 ==>
      (Cases41To50()[k].topPattern, Cases41To50()[k].edgePattern) !in
      [("00001010", "011111000001"), ("00010010", "111001011000"),
       ("01010000", "100000111110"), ("01001000", "000110100111")]
  {
  }

  /** OLL50's orientations, read off the first three groups of the catalog. */
  lemma Oll50EarlyApart(j: nat)
    requires j == 49
    ensures Apart(Group(0), 0, j, Turns(Cases41To50()[j - 40].topPattern, Cases41To50()[j - 40].edgePattern))
    ensures Apart(Group(1), 10, j, Turns(Cases41To50()[j - 40].topPattern, Cases41To50()[j - 40].edgePattern))
    ensures Apart(Group(2), 20, j, Turns(Cases41To50()[j - 40].topPattern, Cases41To50()[j - 40].edgePattern))
  {
    assert Cases41To50()[j - 40] == Oll50;
    Orbit50IsTurns();
    Orbit50EarlyApart();
  }

  /** OLL50's orientations, read off the last three groups of the catalog. */
  lemma Oll50LateApart(j: nat)
    requires j == 49
    ensures Apart(Group(3), 30, j, Turns(Cases41To50()[j - 40].topPattern, Cases41To50()[j - 40].edgePattern))
    ensures Apart(Group(4), 40, j, Turns(Cases41To50()[j - 40].topPattern, Cases41To50()[j - 40].edgePattern))
    ensures Apart(Group(5), 50, j, Turns(Cases41To50()[j - 40].topPattern, Cases41To50()[j - 40].edgePattern))
  {
    assert Cases41To50()[j - 40] == Oll50;
    Orbit50IsTurns();
    Orbit50LateApart();
  }

  /** No case before OLL50 has one of its orientations. */
  lemma Oll50Apart(j: nat)
    requires j == 49
    ensures ApartFrom(0, j, Turns(Cases41To50()[j - 40].topPattern, Cases41To50()[j - 40].edgePattern))
  {
    Oll50EarlyApart(j);
    Oll50LateApart(j);
    var orbit := Turns(Cases41To50()[j - 40].topPattern, Cases41To50()[j - 40].edgePattern);
    assert ApartFrom(5, j, orbit);
    assert ApartFrom(4, j, orbit);
    assert ApartFrom(3, j, orbit);
    assert ApartFrom(2, j, orbit);
    assert ApartFrom(1, j, orbit);
    assert ApartFrom(0, j, orbit);
  }

  /** The four orientations of OLL51, at 0, 90, 180 and 270 degrees. */
  lemma Orbit51IsTurns()
    ensures Turns(Oll51.topPattern, Oll51.edgePattern) ==
      [("00011000", "110000101110"), ("01000010", "000110110101"),
       ("00011000", "011101000011"), ("01000010", "101011011000")]
  {
    assert RotateTop("00011000") == "01000010";
    assert RotateEdge("110000101110") == "000110110101";
    assert RotateTop("01000010") == "00011000";
    assert RotateEdge("000110110101") == "011101000011";
    assert RotateEdge("011101000011") == "101011011000";
  }

  /** No case of OLL01 to OLL30 before OLL51 has one of its orientations. */
  lemma Orbit51EarlyApart()
    ensures forall k :: 0 <= k < 10 ==>
      (Cases01To10()[k].topPattern, Cases01To10()[k].edgePattern) !in
      [("00011000", "110000101110"), ("01000010", "000110110101"),
       ("00011000", "011101000011"), ("01000010", "101011011000")]
    ensures forall k :: 0 <= k < 10 ==>
      (Cases11To20()[k].topPattern, Cases11To20()[k].edgePattern) !in
      [("00011000", "110000101110"), ("01000010", "000110110101"),
       ("00011000", "011101000011"), ("01000010", "101011011000")]
    ensures forall k :: 0 <= k < 10 ==>
      (Cases21To30()[k].topPattern, Cases21To30()[k].edgePattern) !in
      [("00011000", "110000101110"), ("01000010", "000110110101"),
       ("00011000", "011101000011"), ("01000010", "101011011000")]
  {
  }

  /** No case of OLL31 to OLL50 before OLL51 has one of its orientations. */
  lemma Orbit51LateApart()
    ensures forall k :: 0 <= k < 10 ==>
      (Cases31To40()[k].topPattern, Cases31To40()[k].edgePattern) !in
      [("00011000", "110000101110"), ("01000010", "000110110101"),
       ("00011000", "011101000011"), ("01000010", "101011011000")]
    ensures forall k :: 0 <= k < 10 ==>
      (Cases41To50()[k].topPattern, Cases41To50()[k].edgePattern) !in
      [("00011000", "110000101110"), ("01000010", "000110110101"),
       ("00011000", "011101000011"), ("01000010", "101011011000")]
  {
  }

  /** OLL51's orientations, read off the first three groups of the catalog. */
  lemma Oll51EarlyApart(j: nat)
    requires j == 50
    ensures Apart(Group(0), 0, j, Turns(Cases51To57()[j - 50].topPattern, Cases51To57()[j - 50].edgePattern))
    ensures Apart(Group(1), 10, j, Turns(Cases51To57()[j - 50].topPattern, Cases51To57()[j - 50].edgePattern))
    ensures Apart(Group(2), 20, j, Turns(Cases51To57()[j - 50].topPattern, Cases51To57()[j - 50].edgePattern))
  {
    assert Cases51To57()[j - 50] == Oll51;
    Orbit51IsTurns();
    Orbit51EarlyApart();
  }

  /** OLL51's orientations, read off the last three groups of the catalog. */
  lemma Oll51LateApart(j: nat)
    requires j == 50
    ensures Apart(Group(3), 30, j, Turns(Cases51To57()[j - 50].topPattern, Cases51To57()[j - 50].edgePattern))
    ensures Apart(Group(4), 40, j, Turns(Cases51To57()[j - 50].topPattern, Cases51To57()[j - 50].edgePattern))
    ensures Apart(Group(5), 50, j, Turns(Cases51To57()[j - 50].topPattern, Cases51To57()[j - 50].edgePattern))
  {
    assert Cases51To57()[j - 50] == Oll51;
    Orbit51IsTurns();
    Orbit51LateApart();
  }

  /** No case before OLL51 has one of its orientations. */
  lemma Oll51Apart(j: nat)
    requires j == 50
    ensures ApartFrom(0, j, Turns(Cases51To57()[j - 50].topPattern, Cases51To57()[j - 50].edgePattern))
  {
    Oll51EarlyApart(j);
    Oll51LateApart(j);
    var orbit := Turns(Cases51To57()[j - 50].topPattern, Cases51To57()[j - 50].edgePattern);
    assert ApartFrom(5, j, orbit);
    assert ApartFrom(4, j, orbit);
    assert ApartFrom(3, j, orbit);
    assert ApartFrom(2, j, orbit);
    assert ApartFrom(1, j, orbit);
    assert ApartFrom(0, j, orbit);
  }

  /** The four orientations of OLL52, at 0, 90, 180 and 270 degrees. */
  lemma Orbit52IsTurns()
    ensures Turns(Oll52.topPattern, Oll52.edgePattern) ==
      [("01000010", "001111010001"), ("00011000", "111001001010"),
       ("01000010", "100010111100"), ("00011000", "010100100111")]
  {
    assert RotateTop("01000010") == "00011000";
    assert RotateEdge("001111010001") == "111001001010";
    assert RotateTop("00011000") == "01000010";
    assert RotateEdge("111001001010") == "100010111100";
    assert RotateEdge("100010111100") == "010100100111";
  }

  /** No case of OLL01 to OLL30 before OLL52 has one of its orientations. */
  lemma Orbit52EarlyApart()
    ensures forall k :: 0 <= k < 10 ==>
      (Cases01To10()[k].topPattern, Cases01To10()[k].edgePattern) !in
      [("01000010", "001111010001"), ("00011000", "111001001010"),
       ("01000010", "100010111100"), ("00011000", "010100100111")]
    ensures forall k :: 0 <= k < 10 ==>
      (Cases11To20()[k].topPattern, Cases11To20()[k].edgePattern) !in
      [("01000010", "001111010001"), ("00011000", "111001001010"),
       ("01000010", "100010111100"), ("00011000", "010100100111")]
    ensures forall k :: 0 <= k < 10 ==>
      (Cases21To30()[k].topPattern, Cases21To30()[k].edgePattern) !in
      [("01000010", "001111010001"), ("00011000", "111001001010"),
       ("01000010", "100010111100"), ("00011000", "010100100111")]
  {
  }

  /** No case of OLL31 to OLL51 before OLL52 has one of its orientations. */
  lemma Orbit52LateApart()
    ensures forall k :: 0 <= k < 10 ==>
      (Cases31To40()[k].topPattern, Cases31To40()[k].edgePattern) !in
      [("01000010", "001111010001"), ("00011000", "111001001010"),
       ("01000010", "100010111100"), ("00011000", "010100100111")]
    ensures forall k :: 0 <= k < 10 ==>
      (Cases41To50()[k].topPattern, Cases41To50()[k].edgePattern) !in
      [("01000010", "001111010001"), ("00011000", "111001001010"),
       ("01000010", "100010111100"), ("00011000", "010100100111")]
    ensures forall k :: 0 <= k < 1 ==>
      (Cases51To57()[k].topPattern, Cases51To57()[k].edgePattern) !in
      [("01000010", "001111010001"), ("00011000", "111001001010"),
       ("01000010", "100010111100"), ("00011000", "010100100111")]
  {
  }

  /** OLL52's orientations, read off the first three groups of the catalog. */
  lemma Oll52EarlyApart(j: nat)
    requires j == 51
    ensures Apart(Group(0), 0, j, Turns(Cases51To57()[j - 50].topPattern, Cases51To57()[j - 50].edgePattern))
    ensures Apart(Group(1), 10, j, Turns(Cases51To57()[j - 50].topPattern, Cases51To57()[j - 50].edgePattern))
    ensures Apart(Group(2), 20, j, Turns(Cases51To57()[j - 50].topPattern, Cases51To57()[j - 50].edgePattern))
  {
    assert Cases51To57()[j - 50] == Oll52;
    Orbit52IsTurns();
    Orbit52EarlyApart();
  }

  /** OLL52's orientations, read off the last three groups of the catalog. */
  lemma Oll52LateApart(j: nat)
    requires j == 51
    ensures Apart(Group(3), 30, j, Turns(Cases51To57()[j - 50].topPattern, Cases51To57()[j - 50].edgePattern))
    ensures Apart(Group(4), 40, j, Turns(Cases51To57()[j - 50].topPattern, Cases51To57()[j - 50].edgePattern))
    ensures Apart(Group(5), 50, j, Turns(Cases51To57()[j - 50].topPattern, Cases51To57()[j - 50].edgePattern))
  {
    assert Cases51To57()[j - 50] == Oll52;
    Orbit52IsTurns();
    Orbit52LateApart();
  }

  /** No case before OLL52 has one of its orientations. */
  lemma Oll52Apart(j: nat)
    requires j == 51
    ensures ApartFrom(0, j, Turns(Cases51To57()[j - 50].topPattern, Cases51To57()[j - 50].edgePattern))
  {
    Oll52EarlyApart(j);
    Oll52LateApart(j);
    var orbit := Turns(Cases51To57()[j - 50].topPattern, Cases51To57()[j - 50].edgePattern);
    assert ApartFrom(5, j, orbit);
    assert ApartFrom(4, j, orbit);
    assert ApartFrom(3, j, orbit);
    assert ApartFrom(2, j, orbit);
    assert ApartFrom(1, j, orbit);
    assert ApartFrom(0, j, orbit);
  }

  /** The four orientations of OLL53, at 0, 90, 180 and 270 degrees. */
  lemma Orbit53IsTurns()
    ensures Turns(Oll53.topPattern, Oll53.edgePattern) ==
      [("00001010", "010111101000"), ("00010010", "111000010101"),
       ("01010000", "000101111010"), ("01001000", "101010000111")]
  {
    assert RotateTop("00001010") == "00010010";
    assert RotateEdge("010111101000") == "111000010101";
    assert RotateTop("00010010") == "01010000";
    assert RotateEdge("111000010101") == "000101111010";
    assert RotateTop("01010000") == "01001000";
    assert RotateEdge("000101111010") == "101010000111";
  }

  /** No case of OLL01 to OLL30 before OLL53 has one of its orientations. */
  lemma Orbit53EarlyApart()
    ensures forall k :: 0 <= k < 10 ==>
      (Cases01To10()[k].topPattern, Cases01To10()[k].edgePattern) !in
      [("00001010", "010111101000"), ("00010010", "111000010101"),
       ("01010000", "000101111010"), ("01001000", "101010000111")]
    ensures forall k :: 0 <= k < 10 ==>
      (Cases11To20()[k].topPattern, Cases11To20()[k].edgePattern) !in
      [("00001010", "010111101000"), ("00010010", "111000010101"),
       ("01010000", "000101111010"), ("01001000", "101010000111")]
    ensures forall k :: 0 <= k < 10 ==>
      (Cases21To30()[k].topPattern, Cases21To30()[k].edgePattern) !in
      [("00001010", "010111101000"), ("00010010", "111000010101"),
       ("01010000", "000101111010"), ("01001000", "101010000111")]
  {
  }

  /** No case of OLL31 to OLL52 before OLL53 has one of its orientations. */
  lemma Orbit53LateApart()
    ensures forall k :: 0 <= k < 10 ==>
      (Cases31To40()[k].topPattern, Cases31To40()[k].edgePattern) !in
      [("00001010", "010111101000"), ("00010010", "111000010101"),
       ("01010000", "000101111010"), ("01001000", "101010000111")]
    ensures forall k :: 0 <= k < 10 ==>
      (Cases41To50()[k].topPattern, Cases41To50()[k].edgePattern) !in
      [("00001010", "010111101000"), ("00010010", "111000010101"),
       ("01010000", "000101111010"), ("01001000", "101010000111")]
    ensures forall k :: 0 <= k < 2 ==>
      (Cases51To57()[k].topPattern, Cases51To57()[k].edgePattern) !in
      [("00001010", "010111101000"), ("00010010", "111000010101"),
       ("01010000", "000101111010"), ("01001000", "101010000111")]
  {
  }

  /** OLL53's orientations, read off the first three groups of the catalog. */
  lemma Oll53EarlyApart(j: nat)
    requires j == 52
    ensures Apart(Group(0), 0, j, Turns(Cases51To57()[j - 50].topPattern, Cases51To57()[j - 50].edgePattern))
    ensures Apart(Group(1), 10, j, Turns(Cases51To57()[j - 50].topPattern, Cases51To57()[j - 50].edgePattern))
    ensures Apart(Group(2), 20, j, Turns(Cases51To57()[j - 50].topPattern, Cases51To57()[j - 50].edgePattern))
  {
    assert Cases51To57()[j - 50] == Oll53;
    Orbit53IsTurns();
    Orbit53EarlyApart();
  }

  /** OLL53's orientations, read off the last three groups of the catalog. */
  lemma Oll53LateApart(j: nat)
    requires j == 52
    ensures Apart(Group(3), 30, j, Turns(Cases51To57()[j - 50].topPattern, Cases51To57()[j - 50].edgePattern))
    ensures Apart(Group(4), 40, j, Turns(Cases51To57()[j - 50].topPattern, Cases51To57()[j - 50].edgePattern))
    ensures Apart(Group(5), 50, j, Turns(Cases51To57()[j - 50].topPattern, Cases51To57()[j - 50].edgePattern))
  {
    assert Cases51To57()[j - 50] == Oll53;
    Orbit53IsTurns();
    Orbit53LateApart();
  }

  /** No case before OLL53 has one of its orientations. */
  lemma Oll53Apart(j: nat)
    requires j == 52
    ensures ApartFrom(0, j, Turns(Cases51To57()[j - 50].topPattern, Cases51To57()[j - 50].edgePattern))
  {
    Oll53EarlyApart(j);
    Oll53LateApart(j);
    var orbit := Turns(Cases51To57()[j - 50].topPattern, Cases51To57()[j - 50].edgePattern);
    assert ApartFrom(5, j, orbit);
    assert ApartFrom(4, j, orbit);
    assert ApartFrom(3, j, orbit);
    assert ApartFrom(2, j, orbit);
    assert ApartFrom(1, j, orbit);
    assert ApartFrom(0, j, orbit);
  }

  /** The four orientations of OLL54, at 0, 90, 180 and 270 degrees. */
  lemma Orbit54IsTurns()
    ensures Turns(Oll54.topPattern, Oll54.edgePattern) ==
      [("01001000", "000111101010"), ("00001010", "111010000101"),
       ("00010010", "010101111000"), ("01010000", "101000010111")]
  {
    assert RotateTop("01001000") == "00001010";
    assert RotateEdge("000111101010") == "111010000101";
    assert RotateTop("00001010") == "00010010";
    assert RotateEdge("111010000101") == "010101111000";
    assert RotateTop("00010010") == "01010000";
    assert RotateEdge("010101111000") == "101000010111";
  }

  /** No case of OLL01 to OLL30 before OLL54 has one of its orientations. */
  lemma Orbit54EarlyApart()
    ensures forall k :: 0 <= k < 10 ==>
      (Cases01To10()[k].topPattern, Cases01To10()[k].edgePattern) !in
      [("01001000", "000111101010"), ("00001010", "111010000101"),
       ("00010010", "010101111000"), ("01010000", "101000010111")]
    ensures forall k :: 0 <= k < 10 ==>
      (Cases11To20()[k].topPattern, Cases11To20()[k].edgePattern) !in
      [("01001000", "000111101010"), ("00001010", "111010000101"),
       ("00010010", "010101111000"), ("01010000", "101000010111")]
    ensures forall k :: 0 <= k < 10 ==>
      (Cases21To30()[k].topPattern, Cases21To30()[k].edgePattern) !in
      [("01001000", "000111101010"), ("00001010", "111010000101"),
       ("00010010", "010101111000"), ("01010000", "101000010111")]
  {
  }

  /** No case of OLL31 to OLL53 before OLL54 has one of its orientations. */
  lemma Orbit54LateApart()
    ensures forall k :: 0 <= k < 10 ==>
      (Cases31To40()[k].topPattern, Cases31To40()[k].edgePattern) !in
      [("01001000", "000111101010"), ("00001010", "111010000101"),
       ("00010010", "010101111000"), ("01010000", "101000010111")]
    ensures forall k :: 0 <= k < 10 ==>
      (Cases41To50()[k].topPattern, Cases41To50()[k].edgePattern) !in
      [("01001000", "000111101010"), ("00001010", "111010000101"),
       ("00010010", "010101111000"), ("01010000", "101000010111")]
    ensures forall k :: 0 <= k < 3 ==>
      (Cases51To57()[k].topPattern, Cases51To57()[k].edgePattern) !in
      [("01001000", "000111101010"), ("00001010", "111010000101"),
       ("00010010", "010101111000"), ("01010000", "101000010111")]
  {
  }

  /** OLL54's orientations, read off the first three groups of the catalog. */
  lemma Oll54EarlyApart(j: nat)
    requires j == 53
    ensures Apart(Group(0), 0, j, Turns(Cases51To57()[j - 50].topPattern, Cases51To57()[j - 50].edgePattern))
    ensures Apart(Group(1), 10, j, Turns(Cases51To57()[j - 50].topPattern, Cases51To57()[j - 50].edgePattern))
    ensures Apart(Group(2), 20, j, Turns(Cases51To57()[j - 50].topPattern, Cases51To57()[j - 50].edgePattern))
  {
    assert Cases51To57()[j - 50] == Oll54;
    Orbit54IsTurns();
    Orbit54EarlyApart();
  }

  /** OLL54's orientations, read off the last three groups of the catalog. */
  lemma Oll54LateApart(j: nat)
    requires j == 53
    ensures Apart(Group(3), 30, j, Turns(Cases51To57()[j - 50].topPattern, Cases51To57()[j - 50].edgePattern))
    ensures Apart(Group(4), 40, j, Turns(Cases51To57()[j - 50].topPattern, Cases51To57()[j - 50].edgePattern))
    ensures Apart(Group(5), 50, j, Turns(Cases51To57()[j - 50].topPattern, Cases51To57()[j - 50].edgePattern))
  {
    assert Cases51To57()[j - 50] == Oll54;
    Orbit54IsTurns();
    Orbit54LateApart();
  }

  /** No case before OLL54 has one of its orientations. */
  lemma Oll54Apart(j: nat)
    requires j == 53
    ensures ApartFrom(0, j, Turns(Cases51To57()[j - 50].topPattern, Cases51To57()[j - 50].edgePattern))
  {
    Oll54EarlyApart(j);
    Oll54LateApart(j);
    var orbit := Turns(Cases51To57()[j - 50].topPattern, Cases51To57()[j - 50].edgePattern);
    assert ApartFrom(5, j, orbit);
    assert ApartFrom(4, j, orbit);
    assert ApartFrom(3, j, orbit);
    assert ApartFrom(2, j, orbit);
    assert ApartFrom(1, j, orbit);
    assert ApartFrom(0, j, orbit);
  }

  /** The four orientations of OLL55, at 0, 90, 180 and 270 degrees. */
  lemma Orbit55IsTurns()
    ensures Turns(Oll55.topPattern, Oll55.edgePattern) ==
      [("00011000", "111000000111"), ("01000010", "000111111000"),
       ("00011000", "111000000111"), ("01000010", "000111111000")]
  {
    assert RotateTop("00011000") == "01000010";
    assert RotateEdge("111000000111") == "000111111000";
    assert RotateTop("01000010") == "00011000";
    assert RotateEdge("000111111000") == "111000000111";
  }

  /** No case of OLL01 to OLL30 before OLL55 has one of its orientations. */
  lemma Orbit55EarlyApart()
    ensures forall k :: 0 <= k < 10 ==>
      (Cases01To10()[k].topPattern, Cases01To10()[k].edgePattern) !in
      [("00011000", "111000000111"), ("01000010", "000111111000"),
       ("00011000", "111000000111"), ("01000010", "000111111000")]
    ensures forall k :: 0 <= k < 10 ==>
      (Cases11To20()[k].topPattern, Cases11To20()[k].edgePattern) !in
      [("00011000", "111000000111"), ("01000010", "000111111000"),
       ("00011000", "111000000111"), ("01000010", "000111111000")]
    ensures forall k :: 0 <= k < 10 ==>
      (Cases21To30()[k].topPattern, Cases21To30()[k].edgePattern) !in
      [("00011000", "111000000111"), ("01000010", "000111111000"),
       ("00011000", "111000000111"), ("01000010", "000111111000")]
  {
  }

  /** No case of OLL31 to OLL54 before OLL55 has one of its orientations. */
  lemma Orbit55LateApart()
    ensures forall k :: 0 <= k < 10 ==>
      (Cases31To40()[k].topPattern, Cases31To40()[k].edgePattern) !in
      [("00011000", "111000000111"), ("01000010", "000111111000"),
       ("00011000", "111000000111"), ("01000010", "000111111000")]
    ensures forall k :: 0 <= k < 10 ==>
      (Cases41To50()[k].topPattern, Cases41To50()[k].edgePattern) !in
      [("00011000", "111000000111"), ("01000010", "000111111000"),
       ("00011000", "111000000111"), ("01000010", "000111111000")]
    ensures forall k :: 0 <= k < 4 ==>
      (Cases51To57()[k].topPattern, Cases51To57()[k].edgePattern) !in
      [("00011000", "111000000111"), ("01000010", "000111111000"),
       ("00011000", "111000000111"), ("01000010", "000111111000")]
  {
  }

  /** OLL55's orientations, read off the first three groups of the catalog. */
  lemma Oll55EarlyApart(j: nat)
    requires j == 54
    ensures Apart(Group(0), 0, j, Turns(Cases51To57()[j - 50].topPattern, Cases51To57()[j - 50].edgePattern))
    ensures Apart(Group(1), 10, j, Turns(Cases51To57()[j - 50].topPattern, Cases51To57()[j - 50].edgePattern))
    ensures Apart(Group(2), 20, j, Turns(Cases51To57()[j - 50].topPattern, Cases51To57()[j - 50].edgePattern))
  {
    assert Cases51To57()[j - 50] == Oll55;
    Orbit55IsTurns();
    Orbit55EarlyApart();
  }

  /** OLL55's orientations, read off the last three groups of the catalog. */
  lemma Oll55LateApart(j: nat)
    requires j == 54
    ensures Apart(Group(3), 30, j, Turns(Cases51To57()[j - 50].topPattern, Cases51To57()[j - 50].edgePattern))
    ensures Apart(Group(4), 40, j, Turns(Cases51To57()[j - 50].topPattern, Cases51To57()[j - 50].edgePattern))
    ensures Apart(Group(5), 50, j, Turns(Cases51To57()[j - 50].topPattern, Cases51To57()[j - 50].edgePattern))
  {
    assert Cases51To57()[j - 50] == Oll55;
    Orbit55IsTurns();
    Orbit55LateApart();
  }

  /** No case before OLL55 has one of its orientations. */
  lemma Oll55Apart(j: nat)
    requires j == 54
    ensures ApartFrom(0, j, Turns(Cases51To57()[j - 50].topPattern, Cases51To57()[j - 50].edgePattern))
  {
    Oll55EarlyApart(j);
    Oll55LateApart(j);
    var orbit := Turns(Cases51To57()[j - 50].topPattern, Cases51To57()[j - 50].edgePattern);
    assert ApartFrom(5, j, orbit);
    assert ApartFrom(4, j, orbit);
    assert ApartFrom(3, j, orbit);
    assert ApartFrom(2, j, orbit);
    assert ApartFrom(1, j, orbit);
    assert ApartFrom(0, j, orbit);
  }

  /** The four orientations of OLL56, at 0, 90, 180 and 270 degrees. */
  lemma Orbit56IsTurns()
    ensures Turns(Oll56.topPattern, Oll56.edgePattern) ==
      [("00011000", "010101101010"), ("01000010", "101010010101"),
       ("00011000", "010101101010"), ("01000010", "101010010101")]
  {
    assert RotateTop("00011000") == "01000010";
    assert RotateEdge("010101101010") == "101010010101";
    assert RotateTop("01000010") == "00011000";
    assert RotateEdge("101010010101") == "010101101010";
  }

  /** No case of OLL01 to OLL30 before OLL56 has one of its orientations. */
  lemma Orbit56EarlyApart()
    ensures forall k :: 0 <= k < 10 ==>
      (Cases01To10()[k].topPattern, Cases01To10()[k].edgePattern) !in
      [("00011000", "010101101010"), ("01000010", "101010010101"),
       ("00011000", "010101101010"), ("01000010", "101010010101")]
    ensures forall k :: 0 <= k < 10 ==>
      (Cases11To20()[k].topPattern, Cases11To20()[k].edgePattern) !in
      [("00011000", "010101101010"), ("01000010", "101010010101"),
       ("00011000", "010101101010"), ("01000010", "101010010101")]
    ensures forall k :: 0 <= k < 10 ==>
      (Cases21To30()[k].topPattern, Cases21To30()[k].edgePattern) !in
      [("00011000", "010101101010"), ("01000010", "101010010101"),
       ("00011000", "010101101010"), ("01000010", "101010010101")]
  {
  }

  /** No case of OLL31 to OLL55 before OLL56 has one of its orientations. */
  lemma Orbit56LateApart()
    ensures forall k :: 0 <= k < 10 ==>
      (Cases31To40()[k].topPattern, Cases31To40()[k].edgePattern) !in
      [("00011000", "010101101010"), ("01000010", "101010010101"),
       ("00011000", "010101101010"), ("01000010", "101010010101")]
    ensures forall k :: 0 <= k < 10 ==>
      (Cases41To50()[k].topPattern, Cases41To50()[k].edgePattern) !in
      [("00011000", "010101101010"), ("01000010", "101010010101"),
       ("00011000", "010101101010"), ("01000010", "101010010101")]
    ensures forall k :: 0 <= k < 5 ==>
      (Cases51To57()[k].topPattern, Cases51To57()[k].edgePattern) !in
      [("00011000", "010101101010"), ("01000010", "101010010101"),
       ("00011000", "010101101010"), ("01000010", "101010010101")]
  {
  }

  /** OLL56's orientations, read off the first three groups of the catalog. */
  lemma Oll56EarlyApart(j: nat)
    requires j == 55
    ensures Apart(Group(0), 0, j, Turns(Cases51To57()[j - 50].topPattern, Cases51To57()[j - 50].edgePattern))
    ensures Apart(Group(1), 10, j, Turns(Cases51To57()[j - 50].topPattern, Cases51To57()[j - 50].edgePattern))
    ensures Apart(Group(2), 20, j, Turns(Cases51To57()[j - 50].topPattern, Cases51To57()[j - 50].edgePattern))
  {
    assert Cases51To57()[j - 50] == Oll56;
    Orbit56IsTurns();
    Orbit56EarlyApart();
  }

  /** OLL56's orientations, read off the last three groups of the catalog. */
  lemma Oll56LateApart(j: nat)
    requires j == 55
    ensures Apart(Group(3), 30, j, Turns(Cases51To57()[j - 50].topPattern, Cases51To57()[j - 50].edgePattern))
    ensures Apart(Group(4), 40, j, Turns(Cases51To57()[j - 50].topPattern, Cases51To57()[j - 50].edgePattern))
    ensures Apart(Group(5), 50, j, Turns(Cases51To57()[j - 50].topPattern, Cases51To57()[j - 50].edgePattern))
  {
    assert Cases51To57()[j - 50] == Oll56;
    Orbit56IsTurns();
    Orbit56LateApart();
  }

  /** No case before OLL56 has one of its orientations. */
  lemma Oll56Apart(j: nat)
    requires j == 55
    ensures ApartFrom(0, j, Turns(Cases51To57()[j - 50].topPattern, Cases51To57()[j - 50].edgePattern))
  {
    Oll56EarlyApart(j);
    Oll56LateApart(j);
    var orbit := Turns(Cases51To57()[j - 50].topPattern, Cases51To57()[j - 50].edgePattern);
    assert ApartFrom(5, j, orbit);
    assert ApartFrom(4, j, orbit);
    assert ApartFrom(3, j, orbit);
    assert ApartFrom(2, j, orbit);
    assert ApartFrom(1, j, orbit);
    assert ApartFrom(0, j, orbit);
  }

  /** The four orientations of OLL57, at 0, 90, 180 and 270 degrees. */
  lemma Orbit57IsTurns()
    ensures Turns(Oll57.topPattern, Oll57.edgePattern) ==
      [("10111101", "010000000010"), ("11100111", "000010010000"),
       ("10111101", "010000000010"), ("11100111", "000010010000")]
  {
    assert RotateTop("10111101") == "11100111";
    assert RotateEdge("010000000010") == "000010010000";
    assert RotateTop("11100111") == "10111101";
    assert RotateEdge("000010010000") == "010000000010";
  }

  /** No case of OLL01 to OLL30 before OLL57 has one of its orientations. */
  lemma Orbit57EarlyApart()
    ensures forall k :: 0 <= k < 10 ==>
      (Cases01To10()[k].topPattern, Cases01To10()[k].edgePattern) !in
      [("10111101", "010000000010"), ("11100111", "000010010000"),
       ("10111101", "010000000010"), ("11100111", "000010010000")]
    ensures forall k :: 0 <= k < 10 ==>
      (Cases11To20()[k].topPattern, Cases11To20()[k].edgePattern) !in
      [("10111101", "010000000010"), ("11100111", "000010010000"),
       ("10111101", "010000000010"), ("11100111", "000010010000")]
    ensures forall k :: 0 <= k < 10 ==>
      (Cases21To30()[k].topPattern, Cases21To30()[k].edgePattern) !in
      [("10111101", "010000000010"), ("11100111", "000010010000"),
       ("10111101", "010000000010"), ("11100111", "000010010000")]
  {
  }

  /** No case of OLL31 to OLL56 before OLL57 has one of its orientations. */
  lemma Orbit57LateApart()
    ensures forall k :: 0 <= k < 10 ==>
      (Cases31To40()[k].topPattern, Cases31To40()[k].edgePattern) !in
      [("10111101", "010000000010"), ("11100111", "000010010000"),
       ("10111101", "010000000010"), ("11100111", "000010010000")]
    ensures forall k :: 0 <= k < 10 ==>
      (Cases41To50()[k].topPattern, Cases41To50()[k].edgePattern) !in
      [("10111101", "010000000010"), ("11100111", "000010010000"),
       ("10111101", "010000000010"), ("11100111", "000010010000")]
    ensures forall k :: 0 <= k < 6 ==>
      (Cases51To57()[k].topPattern, Cases51To57()[k].edgePattern) !in
      [("10111101", "010000000010"), ("11100111", "000010010000"),
       ("10111101", "010000000010"), ("11100111", "000010010000")]
  {
  }

  /** OLL57's orientations, read off the first three groups of the catalog. */
  lemma Oll57EarlyApart(j: nat)
    requires j == 56
    ensures Apart(Group(0), 0, j, Turns(Cases51To57()[j - 50].topPattern, Cases51To57()[j - 50].edgePattern))
    ensures Apart(Group(1), 10, j, Turns(Cases51To57()[j - 50].topPattern, Cases51To57()[j - 50].edgePattern))
    ensures Apart(Group(2), 20, j, Turns(Cases51To57()[j - 50].topPattern, Cases51To57()[j - 50].edgePattern))
  {
    assert Cases51To57()[j - 50] == Oll57;
    Orbit57IsTurns();
    Orbit57EarlyApart();
  }

  /** OLL57's orientations, read off the last three groups of the catalog. */
  lemma Oll57LateApart(j: nat)
    requires j == 56
    ensures Apart(Group(3), 30, j, Turns(Cases51To57()[j - 50].topPattern, Cases51To57()[j - 50].edgePattern))
    ensures Apart(Group(4), 40, j, Turns(Cases51To57()[j - 50].topPattern, Cases51To57()[j - 50].edgePattern))
    ensures Apart(Group(5), 50, j, Turns(Cases51To57()[j - 50].topPattern, Cases51To57()[j - 50].edgePattern))
  {
    assert Cases51To57()[j - 50] == Oll57;
    Orbit57IsTurns();
    Orbit57LateApart();
  }

  /** No case before OLL57 has one of its orientations. */
  lemma Oll57Apart(j: nat)
    requires j == 56
    ensures ApartFrom(0, j, Turns(Cases51To57()[j - 50].topPattern, Cases51To57()[j - 50].edgePattern))
  {
    Oll57EarlyApart(j);
    Oll57LateApart(j);
    var orbit := Turns(Cases51To57()[j - 50].topPattern, Cases51To57()[j - 50].edgePattern);
    assert ApartFrom(5, j, orbit);
    assert ApartFrom(4, j, orbit);
    assert ApartFrom(3, j, orbit);
    assert ApartFrom(2, j, orbit);
    assert ApartFrom(1, j, orbit);
    assert ApartFrom(0, j, orbit);
  }
}
