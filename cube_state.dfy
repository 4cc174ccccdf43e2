/**
  The marked stickers the user has clicked on the OLL input widget, and their
  encoding as a 20-character state code.

  The top face is a 3x3 grid of flags in row-major order; cell 4 is the
  centre, which is always marked. The 12 edge flags follow the edge-code
  layout (Front, Left, Right, Back, three stickers each).
 */
module CubeInput {
  import opened OllRotation

  /** The grid cell read by each of the 8 top-code slots: every cell but the centre. */
  const TopOrder: seq<nat> := [0, 1, 2, 3, 5, 6, 7, 8]

  /** The centre cell of the top grid. */
  const Centre: nat := 4

  /** The top-code slot that reads grid cell p (p is not the centre). */
  function SlotOf(p: nat): nat
  {
    if p < Centre then p else p - 1
  }

  /** The character a flag is written as. */
  function Bit(b: bool): char
  {
    if b then '1' else '0'
  }

  /** A code made of '0' and '1' only. */
  predicate IsBinary(s: string)
  {
    forall k :: 0 <= k < |s| ==> s[k] == '0' || s[k] == '1'
  }

  /** The state code of a set of flags: the 8 non-centre top cells in TopOrder, then the 12 edges. */
  function Encode(top: seq<bool>, edges: seq<bool>): (code: StateCode)
    requires |top| == 9 && |edges| == 12
  {
    seq(8, k requires 0 <= k < 8 => Bit(top[TopOrder[k]])) + seq(12, k requires 0 <= k < 12 => Bit(edges[k]))
  }

  /**
    The top flags after a reset followed by marking the cells a top pattern
    names: cell TopOrder[k] is marked when character k is '1'; any other
    character, or a missing one, leaves it unmarked; the centre stays marked.
   */
  function DecodeTop(t: string): (top: seq<bool>)
  {
    seq(9, p requires 0 <= p < 9 => p == Centre || (SlotOf(p) < |t| && t[SlotOf(p)] == '1'))
  }

  /** The edge flags after a reset followed by marking the edges an edge pattern names. */
  function DecodeEdges(e: string): (edges: seq<bool>)
  {
    seq(12, k requires 0 <= k < 12 => k < |e| && e[k] == '1')
  }

  /** The top flags right after a reset: only the centre is marked. */
  function BlankTop(): seq<bool>
  {
    seq(9, p requires 0 <= p < 9 => p == Centre)
  }

  /** The edge flags right after a reset: none is marked. */
  function BlankEdges(): seq<bool>
  {
    seq(12, k requires 0 <= k < 12 => false)
  }

  /** Decoding a binary top and edge pattern and encoding the flags gives back the patterns. */
  lemma EncodeDecode(t: string, e: string)
    requires |t| == 8 && |e| == 12 && IsBinary(t) && IsBinary(e)
    ensures Encode(DecodeTop(t), DecodeEdges(e)) == t + e
  {
    var code := Encode(DecodeTop(t), DecodeEdges(e));
    forall k | 0 <= k < 20
      ensures code[k] == (t + e)[k]
    {
      if k < 8 {
        assert SlotOf(TopOrder[k]) == k;
      }
    }
  }

  /** Encoding a set of flags whose centre is marked and decoding the code gives back the flags. */
  lemma DecodeEncode(top: seq<bool>, edges: seq<bool>)
    requires |top| == 9 && |edges| == 12 && top[Centre]
    ensures DecodeTop(Encode(top, edges)[..8]) == top
    ensures DecodeEdges(Encode(top, edges)[8..]) == edges
  {
    var code := Encode(top, edges);
    forall p | 0 <= p < 9 && p != Centre
      ensures DecodeTop(code[..8])[p] == top[p]
    {
      assert TopOrder[SlotOf(p)] == p;
    }
  }

  /** The input widget's flags, updated in place by clicks, reset and loading a pattern. */
  class CubeState {
    var top: array<bool>
    var edges: array<bool>

    /** The grid has 9 cells and 12 edges, and the centre is marked. */
    ghost predicate Valid()
      reads this, top
    {
      top.Length == 9 && edges.Length == 12 && top[Centre]
    }

    /** The initial state: only the centre is marked. */
    constructor ()
      ensures Valid() && fresh(top) && fresh(edges)
      ensures top[..] == BlankTop() && edges[..] == BlankEdges()
    {
      top := new bool[9](p => p == Centre);
      edges := new bool[12](k => false);
    }

    /** A click on top cell p flips its flag; the centre has no click handler. */
    method ClickCell(p: nat)
      requires Valid() && p < 9
      modifies top
      ensures Valid()
      ensures top[..] == if p == Centre then old(top[..]) else old(top[..])[p := !old(top[p])]
    {
      if p != Centre {
        top[p] := !top[p];
      }
    }

    /** A click on edge k flips its flag. */
    method ClickEdge(k: nat)
      requires Valid() && k < 12
      modifies edges
      ensures Valid()
      ensures edges[..] == old(edges[..])[k := !old(edges[k])]
    {
      edges[k] := !edges[k];
    }

    /** Unmarks every top cell but the centre, and every edge. */
    method Reset()
      requires Valid()
      modifies top, edges
      ensures Valid()
      ensures top[..] == BlankTop() && edges[..] == BlankEdges()
    {
      for p := 0 to 9
        invariant top[Centre]
        invariant forall q :: 0 <= q < p && q != Centre ==> !top[q]
      {
        if p != Centre {
          top[p] := false;
        }
      }
      for k := 0 to 12
        invariant top[..] == BlankTop()
        invariant forall j :: 0 <= j < k ==> !edges[j]
      {
        edges[k] := false;
      }
    }

    /** Reads the flags off as a state code. */
    method GetStateCode() returns (code: StateCode)
      requires Valid()
      ensures code == Encode(top[..], edges[..])
    {
      var topCode := "";
      for i := 0 to 8
        invariant |topCode| == i
        invariant forall k :: 0 <= k < i ==> topCode[k] == Bit(top[TopOrder[k]])
      {
        topCode := topCode + [if top[TopOrder[i]] then '1' else '0'];
      }
      var edgeCode := "";
      for i := 0 to 12
        invariant |edgeCode| == i
        invariant forall k :: 0 <= k < i ==> edgeCode[k] == Bit(edges[k])
      {
        edgeCode := edgeCode + [if edges[i] then '1' else '0'];
      }
      code := topCode + edgeCode;
      assert code == Encode(top[..], edges[..]);
    }

    /**
      Resets, then marks the top cells and edges whose pattern character is
      '1'. For binary patterns of the right widths, reading the flags back
      gives the two patterns.
     */
    method SetFromPatterns(t: string, e: string)
      requires Valid()
      modifies top, edges
      ensures Valid()
      ensures top[..] == DecodeTop(t) && edges[..] == DecodeEdges(e)
      ensures |t| == 8 && |e| == 12 && IsBinary(t) && IsBinary(e) ==> Encode(top[..], edges[..]) == t + e
    {
      Reset();
      for i := 0 to 8
        invariant top[Centre]
        invariant edges[..] == BlankEdges()
        invariant forall p :: 0 <= p < 9 && p != Centre ==>
          top[p] == (SlotOf(p) < i && SlotOf(p) < |t| && t[SlotOf(p)] == '1')
      {
        var index := TopOrder[i];
        assert SlotOf(index) == i;
        if i < |t| && t[i] == '1' {
          top[index] := true;
        }
      }
      for i := 0 to 12
        invariant top[..] == DecodeTop(t)
        invariant forall k :: 0 <= k < 12 ==> edges[k] == (k < i && k < |e| && e[k] == '1')
      {
        if i < |e| && e[i] == '1' {
          edges[i] := true;
        }
      }
      if |t| == 8 && |e| == 12 && IsBinary(t) && IsBinary(e) {
        EncodeDecode(t, e);
      }
    }

    /** Loads a whole state code: its first 8 characters as the top pattern, the next 12 as the edge pattern. */
    method SetFromStateCode(code: string)
      requires Valid()
      modifies top, edges
      ensures Valid()
      ensures top[..] == DecodeTop(Slice(code, 0, 8)) && edges[..] == DecodeEdges(Slice(code, 8, 20))
      ensures |code| == 20 && IsBinary(code) ==> Encode(top[..], edges[..]) == code
    {
      Reset();
      SetFromPatterns(Slice(code, 0, 8), Slice(code, 8, 20));
      if |code| == 20 && IsBinary(code) {
        assert code == code[0..8] + code[8..20];
      }
    }
  }
}
