/**
  Quarter-turn transforms of the OLL pattern codes.

  A top code has 8 characters, one per non-centre cell of the 3x3 top face in
  row-major order (TL, TM, TR, ML, MR, BL, BM, BR). An edge code has 12
  characters, three per side face: Front 0..2 (left to right), Left 3..5 (top
  to bottom), Right 6..8 (top to bottom), Back 9..11 (left to right). A state
  code is a top code followed by an edge code (20 characters).
 */
module OllRotation {

  /** Slot k of a rotated top code takes the character at TopSource[k] of the old code. */
  const TopSource: seq<nat> := [5, 3, 0, 6, 1, 7, 4, 2]

  /** Slot k of a rotated edge code takes the character at EdgeSource[k] of the old code. */
  const EdgeSource: seq<nat> := [5, 4, 3, 9, 10, 11, 0, 1, 2, 8, 7, 6]

  /** A top code: 8 characters. */
  type TopCode = s: string | |s| == 8 witness "00000000"

  /** An edge code: 12 characters. */
  type EdgeCode = s: string | |s| == 12 witness "000000000000"

  /** A state code: a top code followed by an edge code. */
  type StateCode = s: string | |s| == 20 witness "00000000000000000000"

  /**
    The characters of s from lo up to (not including) hi, cut short at the end
    of s: what a JavaScript substring call gives when 0 <= lo <= hi.
   */
  function Slice(s: string, lo: nat, hi: nat): (r: string)
    requires lo <= hi
    ensures |s| >= hi ==> r == s[lo..hi]
    ensures |r| <= hi - lo
  {
    if |s| <= lo then "" else if |s| <= hi then s[lo..] else s[lo..hi]
  }

  // ---------------------------------------------------------------------------
  // The transforms
  // ---------------------------------------------------------------------------

  /** The top code after one clockwise quarter turn of the top layer. */
  function RotateTop(p: TopCode): (r: TopCode)
  {
    seq(8, k requires 0 <= k < 8 => p[TopSource[k]])
  }

  /** Builds the rotated top code one character at a time, as the source does. */
  method RotateTopPattern(p: TopCode) returns (rotated: TopCode)
    ensures rotated == RotateTop(p)
  {
    var acc := "";
    var i := 0;
    while i < 8
      invariant 0 <= i <= 8
      invariant acc == RotateTop(p)[..i]
    {
      acc := acc + [p[TopSource[i]]];
      i := i + 1;
    }
    rotated := acc;
  }

  /**
    The edge code after one clockwise quarter turn: the new Front is the old
    Left reversed, the new Left the old Back, the new Right the old Front and
    the new Back the old Right reversed.
   */
  function RotateEdge(p: EdgeCode): (r: EdgeCode)
  {
    [p[5], p[4], p[3]] + [p[9], p[10], p[11]] + [p[0], p[1], p[2]] + [p[8], p[7], p[6]]
  }

  /** A whole state code after one quarter turn: both parts turn independently. */
  function Rotate90(s: StateCode): (r: StateCode)
    ensures r[..8] == RotateTop(s[..8]) && r[8..] == RotateEdge(s[8..])
  {
    RotateTop(s[..8]) + RotateEdge(s[8..20])
  }

  // ---------------------------------------------------------------------------
  // Repeated turns
  // ---------------------------------------------------------------------------

  /** The top code after k clockwise quarter turns. */
  function TopTurns(p: TopCode, k: nat): (r: TopCode)
  {
    if k == 0 then p else RotateTop(TopTurns(p, k - 1))
  }

  /** The edge code after k clockwise quarter turns. */
  function EdgeTurns(p: EdgeCode, k: nat): (r: EdgeCode)
  {
    if k == 0 then p else RotateEdge(EdgeTurns(p, k - 1))
  }

  /** The state code after k clockwise quarter turns. */
  function StateTurns(s: StateCode, k: nat): (r: StateCode)
  {
    if k == 0 then s else Rotate90(StateTurns(s, k - 1))
  }

  // ---------------------------------------------------------------------------
  // Enumerating the four rotations
  // ---------------------------------------------------------------------------

  /** The 0, 90, 180 and 270 degree variants of a top code, in that order. */
  method AllTopRotations(p: TopCode) returns (rotations: seq<TopCode>)
    ensures |rotations| == 4
    ensures rotations[0] == p
    ensures forall k :: 0 <= k < 4 ==> rotations[k] == TopTurns(p, k)
    ensures forall k :: 0 <= k < 3 ==> rotations[k + 1] == RotateTop(rotations[k])
  {
    rotations := [p];
    var current := p;
    var i := 0;
    while i < 3
      invariant 0 <= i <= 3
      invariant |rotations| == i + 1
      invariant current == TopTurns(p, i) == rotations[i]
      invariant forall k :: 0 <= k <= i ==> rotations[k] == TopTurns(p, k)
    {
      current := RotateTopPattern(current);
      rotations := rotations + [current];
      i := i + 1;
    }
  }

  /** The 0, 90, 180 and 270 degree variants of an edge code, in that order. */
  method AllEdgeRotations(p: EdgeCode) returns (rotations: seq<EdgeCode>)
    ensures |rotations| == 4
    ensures rotations[0] == p
    ensures forall k :: 0 <= k < 4 ==> rotations[k] == EdgeTurns(p, k)
    ensures forall k :: 0 <= k < 3 ==> rotations[k + 1] == RotateEdge(rotations[k])
  {
    rotations := [p];
    var current := p;
    var i := 0;
    while i < 3
      invariant 0 <= i <= 3
      invariant |rotations| == i + 1
      invariant current == EdgeTurns(p, i) == rotations[i]
      invariant forall k :: 0 <= k <= i ==> rotations[k] == EdgeTurns(p, k)
    {
      current := RotateEdge(current);
      rotations := rotations + [current];
      i := i + 1;
    }
  }

  /**
    Turns a state code by a given angle in degrees. An angle that is not a
    multiple of 90 leaves the code unchanged; a multiple of 90 applies
    angle / 90 quarter turns, none for a negative angle. (Whether a remainder
    is zero does not depend on how the remainder is rounded, so Dafny's
    Euclidean % agrees with the truncating one here.)
   */
  method RotateState(s: StateCode, angle: int) returns (result: StateCode)
    ensures angle % 90 != 0 ==> result == s
    ensures angle % 90 == 0 && angle >= 0 ==> result == StateTurns(s, angle / 90)
    ensures angle <= 0 ==> result == s
    ensures angle % 360 == 0 ==> result == s
  {
    if angle % 90 != 0 {
      FullTurnsAreQuarterTurns(angle);
      return s;
    }
    var rotations := angle / 90;
    result := s;
    var i := 0;
    while i < rotations
      invariant 0 <= i && (rotations >= 0 ==> i <= rotations) && (rotations <= 0 ==> i == 0)
      invariant result == StateTurns(s, i)
    {
      result := Rotate90(result);
      i := i + 1;
    }
    if angle > 0 {
      assert i == rotations;
      if angle % 360 == 0 {
        FullTurnsAreQuarterTurns(angle);
        StateTurnsModFour(s, rotations);
      }
    }
  }

  /** A multiple of 360 degrees is a multiple of four quarter turns. */
  lemma FullTurnsAreQuarterTurns(angle: int)
    ensures angle % 360 == 0 ==> angle % 90 == 0 && (angle / 90) % 4 == 0
  {
    if angle % 360 == 0 {
      var q := angle / 360;
      assert angle == 360 * q;
      assert angle == 90 * (4 * q);
      assert angle / 90 == 4 * q;
    }
  }

  /** The 0, 90, 180 and 270 degree variants of a state code, in that order. */
  method AllRotations(s: StateCode) returns (rotations: seq<StateCode>)
    ensures |rotations| == 4
    ensures forall k :: 0 <= k < 4 ==> rotations[k] == StateTurns(s, k)
  {
    rotations := [];
    var current := s;
    rotations := rotations + [current];
    var i := 0;
    while i < 3
      invariant 0 <= i <= 3
      invariant |rotations| == i + 1
      invariant current == StateTurns(s, i)
      invariant forall k :: 0 <= k <= i ==> rotations[k] == StateTurns(s, k)
    {
      current := RotateState(current, 90);
      rotations := rotations + [current];
      i := i + 1;
    }
  }

  // ---------------------------------------------------------------------------
  // Laws of the transforms
  // ---------------------------------------------------------------------------

  /** Four clockwise quarter turns of the top face give back the original code. */
  lemma RotateTopFourTimes(p: TopCode)
    ensures RotateTop(RotateTop(RotateTop(RotateTop(p)))) == p
  {
    var r1 := RotateTop(p);
    var r2 := RotateTop(r1);
    var r3 := RotateTop(r2);
    var r4 := RotateTop(r3);
    assert r1 == [p[5], p[3], p[0], p[6], p[1], p[7], p[4], p[2]];
    assert r2 == [p[7], p[6], p[5], p[4], p[3], p[2], p[1], p[0]];
    assert r3 == [p[2], p[4], p[7], p[1], p[6], p[0], p[3], p[5]];
    assert r4 == [p[0], p[1], p[2], p[3], p[4], p[5], p[6], p[7]];
  }

  /** Four clockwise quarter turns of the edge ring give back the original code. */
  lemma RotateEdgeFourTimes(p: EdgeCode)
    ensures RotateEdge(RotateEdge(RotateEdge(RotateEdge(p)))) == p
  {
    var r1 := RotateEdge(p);
    var r2 := RotateEdge(r1);
    var r3 := RotateEdge(r2);
    var r4 := RotateEdge(r3);
    assert r2 == [p[11], p[10], p[9], p[8], p[7], p[6], p[5], p[4], p[3], p[2], p[1], p[0]];
    assert r4 == [p[0], p[1], p[2], p[3], p[4], p[5], p[6], p[7], p[8], p[9], p[10], p[11]];
  }

  /** The edge rotation is the shared rule reverse(old[3..6]) + old[9..12] + old[0..3] + reverse(old[6..9]). */
  lemma RotateEdgeIsFaceRule(p: EdgeCode)
    ensures RotateEdge(p) == Reverse(p[3..6]) + p[9..12] + p[0..3] + Reverse(p[6..9])
    ensures forall k :: 0 <= k < 12 ==> RotateEdge(p)[k] == p[EdgeSource[k]]
  {
    assert Reverse(p[3..6]) == [p[5], p[4], p[3]];
    assert Reverse(p[6..9]) == [p[8], p[7], p[6]];
  }

  /** The reverse of a sequence. */
  function Reverse(s: string): (r: string)
    ensures |r| == |s|
    ensures forall k :: 0 <= k < |s| ==> r[k] == s[|s| - 1 - k]
  {
    if s == [] then [] else Reverse(s[1..]) + [s[0]]
  }

  /** Turning a state code k times turns its top part and its edge part k times, independently. */
  lemma {:induction false} StateTurnsSplit(s: StateCode, k: nat)
    ensures StateTurns(s, k) == TopTurns(s[..8], k) + EdgeTurns(s[8..], k)
  {
    if k == 0 {
      assert s == s[..8] + s[8..];
    } else {
      StateTurnsSplit(s, k - 1);
      var q := StateTurns(s, k - 1);
      assert q[..8] == TopTurns(s[..8], k - 1);
      assert q[8..] == EdgeTurns(s[8..], k - 1);
    }
  }

  /** Turning a top code four more times changes nothing. */
  lemma {:induction false} TopTurnsPeriodic(p: TopCode, k: nat)
    ensures TopTurns(p, k + 4) == TopTurns(p, k)
  {
    if k == 0 {
      assert TopTurns(p, 1) == RotateTop(p);
      assert TopTurns(p, 2) == RotateTop(RotateTop(p));
      assert TopTurns(p, 3) == RotateTop(RotateTop(RotateTop(p)));
      RotateTopFourTimes(p);
    } else {
      TopTurnsPeriodic(p, k - 1);
      assert TopTurns(p, k + 4) == RotateTop(TopTurns(p, k - 1 + 4));
    }
  }

  /** Turning an edge code four more times changes nothing. */
  lemma {:induction false} EdgeTurnsPeriodic(p: EdgeCode, k: nat)
    ensures EdgeTurns(p, k + 4) == EdgeTurns(p, k)
  {
    if k == 0 {
      assert EdgeTurns(p, 1) == RotateEdge(p);
      assert EdgeTurns(p, 2) == RotateEdge(RotateEdge(p));
      assert EdgeTurns(p, 3) == RotateEdge(RotateEdge(RotateEdge(p)));
      RotateEdgeFourTimes(p);
    } else {
      EdgeTurnsPeriodic(p, k - 1);
      assert EdgeTurns(p, k + 4) == RotateEdge(EdgeTurns(p, k - 1 + 4));
    }
  }

  /** Only the number of quarter turns modulo four matters for a whole state code. */
  lemma StateTurnsModFour(s: StateCode, k: nat)
    ensures StateTurns(s, k) == StateTurns(s, k % 4)
  {
    StateTurnsSplit(s, k);
    StateTurnsSplit(s, k % 4);
    TopTurnsModFour(s[..8], k);
    EdgeTurnsModFour(s[8..], k);
  }

  /** Only the number of quarter turns modulo four matters for a top code. */
  lemma {:induction false} TopTurnsModFour(p: TopCode, k: nat)
    ensures TopTurns(p, k) == TopTurns(p, k % 4)
    decreases k
  {
    if k >= 4 {
      TopTurnsPeriodic(p, k - 4);
      TopTurnsModFour(p, k - 4);
    }
  }

  /** Only the number of quarter turns modulo four matters for an edge code. */
  lemma {:induction false} EdgeTurnsModFour(p: EdgeCode, k: nat)
    ensures EdgeTurns(p, k) == EdgeTurns(p, k % 4)
    decreases k
  {
    if k >= 4 {
      EdgeTurnsPeriodic(p, k - 4);
      EdgeTurnsModFour(p, k - 4);
    }
  }

  // ---------------------------------------------------------------------------
  // Geometric reference: both index tables come from one quarter turn
  // ---------------------------------------------------------------------------

  /**
    A cell of the 5x5 frame drawn around the top face: the face occupies rows
    and columns 1..3, the Front stickers row 0, the Back stickers row 4, the
    Left stickers column 0 and the Right stickers column 4.
   */
  datatype Cell = Cell(row: int, col: int)

  /** Where the content of a cell goes under a clockwise quarter turn seen from above. */
  function Turn(c: Cell): Cell
  {
    Cell(c.col, 4 - c.row)
  }

  /** The cell of top slot k (the centre, row 2 column 2, has no slot). */
  function TopCell(k: nat): Cell
    requires k < 8
  {
    var pos := if k < 4 then k else k + 1;
    Cell(1 + pos / 3, 1 + pos % 3)
  }

  /** The cell of edge slot k. */
  function EdgeCell(k: nat): Cell
    requires k < 12
  {
    var i := k % 3;
    if k < 3 then Cell(0, 1 + i)
    else if k < 6 then Cell(1 + i, 0)
    else if k < 9 then Cell(1 + i, 4)
    else Cell(4, 1 + i)
  }

  /**
    Each slot of a rotated top code holds the sticker that a clockwise quarter
    turn carries onto that slot's cell, and no two slots take the same source
    slot, so the 8 source slots form a permutation.
   */
  lemma RotateTopIsQuarterTurn(p: TopCode)
    ensures forall k :: 0 <= k < 8 ==> TopSource[k] < 8 && Turn(TopCell(TopSource[k])) == TopCell(k)
    ensures forall i, j :: 0 <= i < j < 8 ==> TopSource[i] != TopSource[j]
    ensures forall k :: 0 <= k < 8 ==> RotateTop(p)[k] == p[TopSource[k]]
  {
  }

  /**
    Each slot of a rotated edge code holds the sticker that the same clockwise
    quarter turn carries onto that slot's cell, and no two slots take the same
    source slot, so the 12 source slots form a permutation.
   */
  lemma RotateEdgeIsQuarterTurn(p: EdgeCode)
    ensures forall k :: 0 <= k < 12 ==> EdgeSource[k] < 12 && Turn(EdgeCell(EdgeSource[k])) == EdgeCell(k)
    ensures forall i, j :: 0 <= i < j < 12 ==> EdgeSource[i] != EdgeSource[j]
    ensures forall k :: 0 <= k < 12 ==> RotateEdge(p)[k] == p[EdgeSource[k]]
  {
    RotateEdgeIsFaceRule(p);
  }

  // ---------------------------------------------------------------------------
  // Worked examples
  // ---------------------------------------------------------------------------

  /** OLL33 turns through four distinct (top, edge) pairs. */
  lemma Oll33Rotations()
    ensures TopTurns("00111001", 1) == "01000111" && EdgeTurns("110000000110", 1) == "000110110000"
    ensures TopTurns("00111001", 2) == "10011100" && EdgeTurns("110000000110", 2) == "011000000011"
    ensures TopTurns("00111001", 3) == "11100010" && EdgeTurns("110000000110", 3) == "000011011000"
    ensures TopTurns("00111001", 4) == "00111001" && EdgeTurns("110000000110", 4) == "110000000110"
    ensures forall i, j :: 0 <= i < j < 4 ==> TopTurns("00111001", i) != TopTurns("00111001", j)
  {
    var t := "00111001";
    assert RotateTop(t) == "01000111";
    assert RotateTop("01000111") == "10011100";
    assert RotateTop("10011100") == "11100010";
    assert RotateTop("11100010") == t;
    var e := "110000000110";
    assert RotateEdge(e) == "000110110000";
    assert RotateEdge("000110110000") == "011000000011";
    assert RotateEdge("011000000011") == "000011011000";
    assert RotateEdge("000011011000") == e;
  }

  /** OLL22's top code is fixed by a quarter turn while its edge code moves. */
  lemma Oll22Rotations()
    ensures RotateTop("01011010") == "01011010"
    ensures EdgeTurns("001101000001", 1) == "101001001000"
    ensures EdgeTurns("001101000001", 2) == "100000101100"
    ensures EdgeTurns("001101000001", 3) == "000100100101"
  {
    assert RotateTop("01011010") == "01011010";
    assert RotateEdge("001101000001") == "101001001000";
    assert RotateEdge("101001001000") == "100000101100";
    assert RotateEdge("100000101100") == "000100100101";
  }
}
