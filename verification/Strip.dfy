/** The closed coronal strips of the brain body: how the index list is built and that it is a
    consistently wound surface whose only boundary is its two end rings. */
module Strip {
  import opened Arithmetic

  /** The corners of a cell and its two triangles, wound by lobe. */
  function CellIndices(lobe: int, i: nat, j: nat, ringSegments: nat): (s: seq<nat>)
    ensures |s| == 6
  {
    var row := ringSegments + 1;
    var a := i * row + j;
    var b, c := a + 1, a + row;
    var d := c + 1;
    if lobe == 1 then [a, b, c, b, d, c] else [a, c, b, b, c, d]
  }

  function RowIndices(lobe: int, i: nat, cells: nat, ringSegments: nat): seq<nat> {
    if cells == 0 then [] else RowIndices(lobe, i, cells - 1, ringSegments) + CellIndices(lobe, i, cells - 1, ringSegments)
  }

  function StripIndices(lobe: int, rows: nat, ringSegments: nat): seq<nat> {
    if rows == 0 then []
    else StripIndices(lobe, rows - 1, ringSegments) + RowIndices(lobe, rows - 1, ringSegments, ringSegments)
  }

  lemma RowStep(lobe: int, i: nat, j: nat, ringSegments: nat, before: seq<nat>)
    ensures RowIndices(lobe, i, 0, ringSegments) == []
    ensures before + RowIndices(lobe, i, j + 1, ringSegments)
            == (before + RowIndices(lobe, i, j, ringSegments)) + CellIndices(lobe, i, j, ringSegments)
  {
    hide CellIndices;
  }

  lemma StripStep(lobe: int, i: nat, ringSegments: nat)
    ensures StripIndices(lobe, 0, ringSegments) == []
    ensures StripIndices(lobe, i + 1, ringSegments)
            == StripIndices(lobe, i, ringSegments) + RowIndices(lobe, i, ringSegments, ringSegments)
  {
    hide RowIndices;
  }

  method Triangulate(lobe: int, longitudinalSegments: nat, ringSegments: nat) returns (indices: seq<nat>)
    ensures indices == StripIndices(lobe, longitudinalSegments, ringSegments)
  {
    hide RowIndices, StripIndices;
    var row := ringSegments + 1;
    indices := [];
    StripStep(lobe, 0, ringSegments);
    var longitudinalIndex := 0;
    while longitudinalIndex < longitudinalSegments
      invariant longitudinalIndex <= longitudinalSegments
      invariant indices == StripIndices(lobe, longitudinalIndex, ringSegments)
    {
      ghost var strip := indices;
      var ringIndex := 0;
      RowStep(lobe, longitudinalIndex, 0, ringSegments, strip);
      while ringIndex < ringSegments
        invariant ringIndex <= ringSegments
        invariant indices == strip + RowIndices(lobe, longitudinalIndex, ringIndex, ringSegments)
      {
        var a := longitudinalIndex * row + ringIndex;
        var b := a + 1;
        var c := a + row;
        var d := c + 1;
        RowStep(lobe, longitudinalIndex, ringIndex, ringSegments, strip);
        ghost var before := indices;
        if lobe == 1 {
          indices := indices + [a, b, c];
          indices := indices + [b, d, c];
        } else {
          indices := indices + [a, c, b];
          indices := indices + [b, c, d];
        }
        assert indices == before + CellIndices(lobe, longitudinalIndex, ringIndex, ringSegments);
        ringIndex := ringIndex + 1;
      }
      StripStep(lobe, longitudinalIndex, ringSegments);
      longitudinalIndex := longitudinalIndex + 1;
    }
  }

  // ---------- where a cell's indices stand ----------

  function Offset(i: nat, j: nat, ringSegments: nat): nat {
    6 * (i * ringSegments + j)
  }

  lemma {:induction false} RowLength(lobe: int, i: nat, cells: nat, ringSegments: nat)
    ensures |RowIndices(lobe, i, cells, ringSegments)| == 6 * cells
  {
    hide CellIndices;
    if cells > 0 {
      RowLength(lobe, i, cells - 1, ringSegments);
    }
  }

  lemma {:induction false} RowLookup(lobe: int, i: nat, cells: nat, ringSegments: nat, j: nat, k: nat)
    requires j < cells && k < 6
    ensures var s := RowIndices(lobe, i, cells, ringSegments);
            6 * j + k < |s| && s[6 * j + k] == CellIndices(lobe, i, j, ringSegments)[k]
    decreases cells
  {
    hide CellIndices;
    RowLength(lobe, i, cells, ringSegments);
    RowLength(lobe, i, cells - 1, ringSegments);
    if j < cells - 1 {
      RowLookup(lobe, i, cells - 1, ringSegments, j, k);
    }
  }

  lemma {:induction false} StripLength(lobe: int, rows: nat, ringSegments: nat)
    ensures |StripIndices(lobe, rows, ringSegments)| == Offset(rows, 0, ringSegments)
  {
    if rows > 0 {
      StripLength(lobe, rows - 1, ringSegments);
      RowLength(lobe, rows - 1, ringSegments, ringSegments);
      assert rows * ringSegments == (rows - 1) * ringSegments + ringSegments;
    }
  }

  lemma {:induction false} StripLookup(lobe: int, rows: nat, ringSegments: nat, i: nat, j: nat, k: nat)
    requires i < rows && j < ringSegments && k < 6
    ensures var s := StripIndices(lobe, rows, ringSegments);
            && Offset(i, j, ringSegments) + k < |s| == Offset(rows, 0, ringSegments)
            && s[Offset(i, j, ringSegments) + k] == CellIndices(lobe, i, j, ringSegments)[k]
    decreases rows
  {
    hide CellIndices, RowIndices;
    StripLength(lobe, rows, ringSegments);
    StripLength(lobe, rows - 1, ringSegments);
    RowLength(lobe, rows - 1, ringSegments, ringSegments);
    ProductMonotone(i + 1, rows, ringSegments);
    if i < rows - 1 {
      StripLookup(lobe, rows - 1, ringSegments, i, j, k);
    } else {
      RowLookup(lobe, i, ringSegments, ringSegments, j, k);
    }
  }

  /** Every position belongs to one cell. */
  lemma CellOf(rows: nat, ringSegments: nat, p: nat) returns (i: nat, j: nat, k: nat)
    requires p < Offset(rows, 0, ringSegments)
    ensures i < rows && j < ringSegments && k < 6 && p == Offset(i, j, ringSegments) + k
  {
    var n := p / 6;
    k := p % 6;
    NoEmptyRing(rows, ringSegments);
    i, j := n / ringSegments, n % ringSegments;
    assert n == ringSegments * i + j;
    if rows <= i {
      ProductMonotone(rows, i, ringSegments);
    }
  }

  lemma NoEmptyRing(rows: nat, ringSegments: nat)
    ensures Offset(rows, 0, ringSegments) > 0 ==> ringSegments > 0
  {
    if ringSegments == 0 {
      assert rows * ringSegments == 0;
    }
  }

  // ---------- edges with the seam welded ----------

  datatype Vertex = Vertex(ring: int, column: int)

  datatype Edge = Edge(from: Vertex, to: Vertex) {
    function Reverse(): Edge {
      Edge(to, from)
    }
  }

  /** The vertex of an index; the last column of a ring is a second copy of its first. */
  function Weld(v: nat, ringSegments: nat): Vertex {
    var row := ringSegments + 1;
    var column := v % row;
    Vertex(v / row, if column == ringSegments then 0 else column)
  }

  /** The next corner of the triangle that position p is in. */
  function Follow(p: nat): nat {
    if p % 3 == 2 then p - 2 else p + 1
  }

  /** The directed edge that starts at position p of an index list. */
  function EdgeAt(indices: seq<nat>, p: nat, ringSegments: nat): Edge
    requires |indices| % 3 == 0 && p < |indices|
  {
    Edge(Weld(indices[p], ringSegments), Weld(indices[Follow(p)], ringSegments))
  }

  predicate OnEndRing(e: Edge, longitudinalSegments: nat) {
    e.from.ring == e.to.ring && (e.from.ring == 0 || e.from.ring == longitudinalSegments)
  }

  /** The next column around the ring. */
  function Around(j: nat, ringSegments: nat): nat {
    if j + 1 == ringSegments then 0 else j + 1
  }

  /** The six directed edges of a cell, in coordinates. */
  function CellEdge(lobe: int, i: nat, j: nat, k: nat, ringSegments: nat): Edge {
    var a, b := Vertex(i, j), Vertex(i, Around(j, ringSegments));
    var c, d := Vertex(i + 1, j), Vertex(i + 1, Around(j, ringSegments));
    if lobe == 1 then
      match k
      case 0 => Edge(a, b)
      case 1 => Edge(b, c)
      case 2 => Edge(c, a)
      case 3 => Edge(b, d)
      case 4 => Edge(d, c)
      case _ => Edge(c, b)
    else
      match k
      case 0 => Edge(a, c)
      case 1 => Edge(c, b)
      case 2 => Edge(b, a)
      case 3 => Edge(b, c)
      case 4 => Edge(c, d)
      case _ => Edge(d, b)
  }

  lemma WeldAt(i: nat, j: nat, ringSegments: nat)
    requires j <= ringSegments
    ensures Weld(i * (ringSegments + 1) + j, ringSegments) == Vertex(i, if j == ringSegments then 0 else j)
  {
    Divided(ringSegments + 1, i, j);
    assert i * (ringSegments + 1) + j == (ringSegments + 1) * i + j;
  }

  /** The edge list in coordinates: position by position, cell by cell. */
  lemma EdgeOfCell(lobe: int, rows: nat, ringSegments: nat, i: nat, j: nat, k: nat)
    requires i < rows && j < ringSegments && k < 6
    ensures var s := StripIndices(lobe, rows, ringSegments);
            && |s| % 3 == 0 && Offset(i, j, ringSegments) + k < |s|
            && EdgeAt(s, Offset(i, j, ringSegments) + k, ringSegments) == CellEdge(lobe, i, j, k, ringSegments)
  {
    var next := Follow(k);
    StripLookup(lobe, rows, ringSegments, i, j, k);
    StripLookup(lobe, rows, ringSegments, i, j, next);
    FollowInCell(Offset(i, j, ringSegments), i * ringSegments + j, k);
    CornersWeld(lobe, i, j, k, ringSegments);
  }

  lemma FollowInCell(offset: nat, n: nat, k: nat)
    requires offset == 6 * n && k < 6
    ensures Follow(offset + k) == offset + Follow(k)
  {
    Shifted(3, 2 * n, k);
  }

  lemma CornersWeld(lobe: int, i: nat, j: nat, k: nat, ringSegments: nat)
    requires j < ringSegments && k < 6
    ensures var s := CellIndices(lobe, i, j, ringSegments);
            Edge(Weld(s[k], ringSegments), Weld(s[Follow(k)], ringSegments)) == CellEdge(lobe, i, j, k, ringSegments)
  {
    hide Weld;
    WeldAt(i, j, ringSegments);
    WeldAt(i, j + 1, ringSegments);
    WeldAt(i + 1, j, ringSegments);
    WeldAt(i + 1, j + 1, ringSegments);
    assert (i + 1) * (ringSegments + 1) == i * (ringSegments + 1) + (ringSegments + 1);
  }

  // ---------- the seam ----------

  /** Where around the ring a column is sampled; the last column is sampled where the first is. */
  function RingParameter(ringIndex: nat, ringSegments: nat): real
    requires ringIndex <= ringSegments && ringSegments > 0
  {
    if ringIndex == ringSegments then 0.0 else ringIndex as real / ringSegments as real
  }

  /** Welding identifies exactly the columns of a ring that are sampled at the same place. */
  lemma WeldedMeansSameSample(i: nat, j: nat, k: nat, ringSegments: nat)
    requires j <= ringSegments && k <= ringSegments && ringSegments > 0
    ensures Weld(i * (ringSegments + 1) + j, ringSegments) == Weld(i * (ringSegments + 1) + k, ringSegments)
            <==> RingParameter(j, ringSegments) == RingParameter(k, ringSegments)
  {
    WeldAt(i, j, ringSegments);
    WeldAt(i, k, ringSegments);
    var jj: nat, kk: nat := if j == ringSegments then 0 else j, if k == ringSegments then 0 else k;
    assert RingParameter(j, ringSegments) * (ringSegments as real) == jj as real;
    assert RingParameter(k, ringSegments) * (ringSegments as real) == kk as real;
  }

  // ---------- the theorems ----------

  lemma DifferentCellEdges(lobe: int, ringSegments: nat, i: nat, j: nat, k: nat, i': nat, j': nat, k': nat)
    requires ringSegments >= 3 && j < ringSegments && j' < ringSegments && k < 6 && k' < 6
    requires CellEdge(lobe, i, j, k, ringSegments) == CellEdge(lobe, i', j', k', ringSegments)
    ensures i == i' && j == j' && k == k'
  {
  }

  /** No directed edge of the welded surface occurs twice in the index list. */
  lemma EdgesOccurOnce(lobe: int, rows: nat, ringSegments: nat, p: nat, q: nat)
    requires ringSegments >= 3
    requires p < q < |StripIndices(lobe, rows, ringSegments)|
    ensures var s := StripIndices(lobe, rows, ringSegments);
            && |s| % 3 == 0 && EdgeAt(s, p, ringSegments) != EdgeAt(s, q, ringSegments)
  {
    hide StripIndices, EdgeAt, CellEdge;
    StripLength(lobe, rows, ringSegments);
    var i, j, k := CellOf(rows, ringSegments, p);
    var i', j', k' := CellOf(rows, ringSegments, q);
    EdgeOfCell(lobe, rows, ringSegments, i, j, k);
    EdgeOfCell(lobe, rows, ringSegments, i', j', k');
    if CellEdge(lobe, i, j, k, ringSegments) == CellEdge(lobe, i', j', k', ringSegments) {
      DifferentCellEdges(lobe, ringSegments, i, j, k, i', j', k');
    }
  }

  /** The cell and corner that hold the reverse of an edge. */
  function Mate(lobe: int, ringSegments: nat, i: nat, j: nat, k: nat): (int, nat, nat)
    requires j < ringSegments && k < 6
  {
    var back := if j == 0 then ringSegments - 1 else j - 1;
    var around := Around(j, ringSegments);
    if lobe == 1 then
      match k
      case 0 => (i - 1, j, 4)
      case 1 => (i, j, 5)
      case 2 => (i, back, 3)
      case 3 => (i, around, 2)
      case 4 => (i + 1, j, 0)
      case _ => (i, j, 1)
    else
      match k
      case 0 => (i, back, 5)
      case 1 => (i, j, 3)
      case 2 => (i - 1, j, 4)
      case 3 => (i, j, 1)
      case 4 => (i + 1, j, 2)
      case _ => (i, around, 0)
  }

  lemma MateReverses(lobe: int, rows: nat, ringSegments: nat, i: nat, j: nat, k: nat)
    requires i < rows && j < ringSegments && k < 6
    ensures var e := CellEdge(lobe, i, j, k, ringSegments);
            var (i', j', k') := Mate(lobe, ringSegments, i, j, k);
            && j' < ringSegments && k' < 6
            && (OnEndRing(e, rows) <==> !(0 <= i' < rows))
            && (0 <= i' < rows ==> CellEdge(lobe, i', j', k', ringSegments) == e.Reverse())
  {
  }

  lemma EndRingHasNoReverse(lobe: int, rows: nat, ringSegments: nat, i: nat, j: nat, k: nat, i': nat, j': nat, k': nat)
    requires ringSegments >= 3 && i < rows && i' < rows && j < ringSegments && j' < ringSegments && k < 6 && k' < 6
    requires CellEdge(lobe, i', j', k', ringSegments) == CellEdge(lobe, i, j, k, ringSegments).Reverse()
    ensures !OnEndRing(CellEdge(lobe, i, j, k, ringSegments), rows)
  {
  }

  ghost predicate Occurs(indices: seq<nat>, e: Edge, ringSegments: nat) {
    |indices| % 3 == 0 && exists q: nat :: q < |indices| && EdgeAt(indices, q, ringSegments) == e
  }

  /** The reverse of an edge occurs exactly when the edge is not on one of the two end rings; being
      a directed edge itself, it then occurs once. */
  lemma ReverseOccursIffInside(lobe: int, rows: nat, ringSegments: nat, p: nat)
    requires ringSegments >= 3
    requires p < |StripIndices(lobe, rows, ringSegments)|
    ensures var s := StripIndices(lobe, rows, ringSegments);
            && |s| % 3 == 0
            && (Occurs(s, EdgeAt(s, p, ringSegments).Reverse(), ringSegments) <==> !OnEndRing(EdgeAt(s, p, ringSegments), rows))
  {
    hide StripIndices, EdgeAt, CellEdge, OnEndRing, Mate;
    StripLength(lobe, rows, ringSegments);
    var i, j, k := CellOf(rows, ringSegments, p);
    EdgeOfCell(lobe, rows, ringSegments, i, j, k);
    var s, e := StripIndices(lobe, rows, ringSegments), CellEdge(lobe, i, j, k, ringSegments);
    MateReverses(lobe, rows, ringSegments, i, j, k);
    if !OnEndRing(e, rows) {
      var (i', j', k') := Mate(lobe, ringSegments, i, j, k);
      EdgeOfCell(lobe, rows, ringSegments, i', j', k');
      assert EdgeAt(s, Offset(i', j', ringSegments) + k', ringSegments) == e.Reverse();
    }
    if Occurs(s, e.Reverse(), ringSegments) {
      var q: nat :| q < |s| && EdgeAt(s, q, ringSegments) == e.Reverse();
      var i', j', k' := CellOf(rows, ringSegments, q);
      EdgeOfCell(lobe, rows, ringSegments, i', j', k');
      EndRingHasNoReverse(lobe, rows, ringSegments, i, j, k, i', j', k');
    }
  }

  /** Both end rings are on the boundary all the way around: each of their segments occurs, in the
      direction the lobe winds it. */
  lemma EndRingsAreBoundary(lobe: int, rows: nat, ringSegments: nat, j: nat)
    requires rows > 0 && j < ringSegments
    ensures var s := StripIndices(lobe, rows, ringSegments);
            var first := Edge(Vertex(0, j), Vertex(0, Around(j, ringSegments)));
            var last := Edge(Vertex(rows, Around(j, ringSegments)), Vertex(rows, j));
            && Occurs(s, if lobe == 1 then first else first.Reverse(), ringSegments)
            && Occurs(s, if lobe == 1 then last else last.Reverse(), ringSegments)
  {
    hide StripIndices, EdgeAt;
    var s := StripIndices(lobe, rows, ringSegments);
    var k := if lobe == 1 then 0 else 2;
    EdgeOfCell(lobe, rows, ringSegments, 0, j, k);
    EdgeOfCell(lobe, rows, ringSegments, rows - 1, j, 4);
    var p, q := Offset(0, j, ringSegments) + k, Offset(rows - 1, j, ringSegments) + 4;
    assert EdgeAt(s, p, ringSegments) == CellEdge(lobe, 0, j, k, ringSegments);
    assert EdgeAt(s, q, ringSegments) == CellEdge(lobe, rows - 1, j, 4, ringSegments);
  }

  /** Three segments are needed: with two, a segment of an end ring runs both ways. */
  lemma TwoSegmentsCloseTheEnd(lobe: int, rows: nat)
    requires rows > 0
    ensures var s, e := StripIndices(lobe, rows, 2), Edge(Vertex(0, 0), Vertex(0, 1));
            OnEndRing(e, rows) && Occurs(s, e, 2) && Occurs(s, e.Reverse(), 2)
  {
    hide StripIndices, EdgeAt, Occurs;
    EndRingsAreBoundary(lobe, rows, 2, 0);
    EndRingsAreBoundary(lobe, rows, 2, 1);
  }

  /** The left lobe's triangles are those of the right lobe, each wound the other way round. */
  lemma LeftMirrorsRight(lobe: int, rows: nat, ringSegments: nat, t: nat)
    requires lobe != 1 && 3 * t < |StripIndices(1, rows, ringSegments)|
    ensures var l, r := StripIndices(lobe, rows, ringSegments), StripIndices(1, rows, ringSegments);
            && |l| == |r| && 3 * t + 2 < |r|
            && l[3 * t] == r[3 * t] && l[3 * t + 1] == r[3 * t + 2] && l[3 * t + 2] == r[3 * t + 1]
  {
    hide StripIndices;
    StripLength(1, rows, ringSegments);
    StripLength(lobe, rows, ringSegments);
    var i, j, k := CellOf(rows, ringSegments, 3 * t);
    assert k % 3 == 0;
    StripLookup(lobe, rows, ringSegments, i, j, k);
    StripLookup(lobe, rows, ringSegments, i, j, k + 1);
    StripLookup(lobe, rows, ringSegments, i, j, k + 2);
    StripLookup(1, rows, ringSegments, i, j, k);
    StripLookup(1, rows, ringSegments, i, j, k + 1);
    StripLookup(1, rows, ringSegments, i, j, k + 2);
  }
}
