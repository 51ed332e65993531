/** Repulsion between graph nodes through a uniform grid: bucket the nodes by cell, then let
    each node meet the nodes of the 3x3 cells around its own. */
module Grid {

  datatype Vec = Vec(x: real, y: real)

  function Add(a: Vec, b: Vec): Vec {
    Vec(a.x + b.x, a.y + b.y)
  }

  const ZERO := Vec(0.0, 0.0)

  lemma AddAssociates(a: Vec, b: Vec, c: Vec)
    ensures Add(Add(a, b), c) == Add(a, Add(b, c))
  {
  }

  /** Column and row of a grid cell. */
  datatype Cell = Cell(col: int, row: int)

  /** Cell coordinates packed into one number. */
  function Key(c: Cell): int {
    (c.col + 4096) * 16384 + (c.row + 4096)
  }

  function CellAt(x: real, y: real, size: real): Cell
    requires size > 0.0
  {
    Cell((x / size).Floor, (y / size).Floor)
  }

  /** The force node `j` puts on node `i`; random jitter for coinciding nodes is part of it. */
  type Force = (nat, nat) -> Vec

  // ---- buckets ----

  /** The nodes among the first `m` whose cell has key `k`, in order. */
  function Bucket(cells: seq<Cell>, k: int): seq<nat> {
    if cells == [] then []
    else Bucket(cells[..|cells| - 1], k) + if Key(cells[|cells| - 1]) == k then [|cells| - 1] else []
  }

  type Table = map<int, seq<nat>>

  /** The grid as a whole: exactly the non-empty buckets. */
  ghost predicate Indexes(grid: Table, cells: seq<Cell>) {
    forall k: int :: if k in grid then grid[k] == Bucket(cells, k) else Bucket(cells, k) == []
  }

  function Put(grid: Table, k: int, i: nat): Table {
    grid[k := if k in grid then grid[k] + [i] else [i]]
  }

  lemma BucketStep(cells: seq<Cell>, i: nat, k: int)
    requires i < |cells|
    ensures Bucket(cells[..i + 1], k) == Bucket(cells[..i], k) + if Key(cells[i]) == k then [i] else []
  {
    assert cells[..i + 1][..i] == cells[..i];
  }

  ghost predicate IndexesFirst(grid: Table, cells: seq<Cell>, i: nat) {
    i <= |cells| && Indexes(grid, cells[..i])
  }

  lemma PutIndexes(grid: Table, cells: seq<Cell>, i: nat)
    requires i < |cells| && IndexesFirst(grid, cells, i)
    ensures IndexesFirst(Put(grid, Key(cells[i]), i), cells, i + 1)
  {
    forall k: int
      ensures Bucket(cells[..i + 1], k) == Bucket(cells[..i], k) + if Key(cells[i]) == k then [i] else []
    {
      BucketStep(cells, i, k);
    }
  }

  // ---- sums of forces on one node ----

  /** Forces on `i` from the nodes listed, itself excepted. */
  function ListSum(f: Force, i: nat, nodes: seq<nat>): Vec {
    if nodes == [] then ZERO
    else
      var j := nodes[|nodes| - 1];
      var before := ListSum(f, i, nodes[..|nodes| - 1]);
      if j == i then before else Add(before, f(i, j))
  }

  /** Forces on `i` from every node whose cell's key is `k`. */
  function KeySum(f: Force, i: nat, cells: seq<Cell>, k: int): Vec {
    if cells == [] then ZERO
    else
      var j := |cells| - 1;
      var before := KeySum(f, i, cells[..j], k);
      if j == i || Key(cells[j]) != k then before else Add(before, f(i, j))
  }

  lemma {:induction false} BucketSum(f: Force, i: nat, cells: seq<Cell>, k: int)
    ensures ListSum(f, i, Bucket(cells, k)) == KeySum(f, i, cells, k)
  {
    if cells != [] {
      var j := |cells| - 1;
      BucketSum(f, i, cells[..j], k);
      assert Bucket(cells[..j], k) + [] == Bucket(cells[..j], k);
      assert (Bucket(cells[..j], k) + [j])[..|Bucket(cells[..j], k)|] == Bucket(cells[..j], k);
    }
  }

  predicate Near(a: Cell, b: Cell) {
    -1 <= a.col - b.col <= 1 && -1 <= a.row - b.row <= 1
  }

  /** The key of `b` is that of one of the nine cells around `a`. */
  predicate Seen(a: Cell, b: Cell) {
    var d := Key(b) - Key(a);
    -1 <= d <= 1 || 16383 <= d <= 16385 || -16385 <= d <= -16383
  }

  /** Two ways to choose whom a node meets: by the packed keys, or by the cells themselves. */
  datatype Meeting = ByKey | ByCell

  predicate Meets(m: Meeting, a: Cell, b: Cell) {
    if m.ByKey? then Seen(a, b) else Near(a, b)
  }

  /** Brute force: every node met, once. */
  function PairSum(f: Force, i: nat, cells: seq<Cell>, n: nat, m: Meeting): Vec
    requires i < |cells| && n <= |cells|
  {
    if n == 0 then ZERO
    else
      var before := PairSum(f, i, cells, n - 1, m);
      if n - 1 == i || !Meets(m, cells[i], cells[n - 1]) then before else Add(before, f(i, n - 1))
  }

  /** Forces from the three cells of one column, middle row `k`. */
  function ColumnSum(f: Force, i: nat, cells: seq<Cell>, k: int): Vec {
    Add(Add(KeySum(f, i, cells, k - 1), KeySum(f, i, cells, k)), KeySum(f, i, cells, k + 1))
  }

  function NineSum(f: Force, i: nat, cells: seq<Cell>, k: int): Vec {
    Add(Add(ColumnSum(f, i, cells, k - 16384), ColumnSum(f, i, cells, k)), ColumnSum(f, i, cells, k + 16384))
  }

  /** Nine different keys meet each node at most once. */
  lemma {:induction false} NineSumIsPairSum(f: Force, i: nat, cells: seq<Cell>, n: nat)
    requires i < |cells| && n <= |cells|
    ensures NineSum(f, i, cells[..n], Key(cells[i])) == PairSum(f, i, cells, n, ByKey)
  {
    if n > 0 {
      NineSumIsPairSum(f, i, cells, n - 1);
      assert cells[..n][..n - 1] == cells[..n - 1];
      NineStep(f, i, cells[..n], Key(cells[i]));
    }
  }

  lemma ColumnStep(f: Force, i: nat, cells: seq<Cell>, k: int)
    requires cells != []
    ensures var j, front := |cells| - 1, cells[..|cells| - 1];
      ColumnSum(f, i, cells, k)
      == if j != i && -1 <= Key(cells[j]) - k <= 1 then Add(ColumnSum(f, i, front, k), f(i, j))
         else ColumnSum(f, i, front, k)
  {
  }

  lemma NineStep(f: Force, i: nat, cells: seq<Cell>, k: int)
    requires cells != []
    ensures var j, front := |cells| - 1, cells[..|cells| - 1];
      var d := Key(cells[j]) - k;
      NineSum(f, i, cells, k)
      == if j != i && (-1 <= d <= 1 || 16383 <= d <= 16385 || -16385 <= d <= -16383)
         then Add(NineSum(f, i, front, k), f(i, j)) else NineSum(f, i, front, k)
  {
    ColumnStep(f, i, cells, k - 16384);
    ColumnStep(f, i, cells, k);
    ColumnStep(f, i, cells, k + 16384);
  }

  // ---- the code ----

  class GraphNode {
    var x: real
    var y: real
    var dx: real
    var dy: real
  }

  ghost predicate Distinct(nodes: seq<GraphNode>) {
    forall i, j :: 0 <= i < j < |nodes| ==> nodes[i] != nodes[j]
  }

  ghost function All(nodes: seq<GraphNode>): set<GraphNode> {
    set n | n in nodes
  }

  ghost function Cells(nodes: seq<GraphNode>, size: real): (cells: seq<Cell>)
    requires size > 0.0
    reads All(nodes)`x, All(nodes)`y
    ensures |cells| == |nodes|
    ensures forall i :: 0 <= i < |nodes| ==> cells[i] == CellAt(nodes[i].x, nodes[i].y, size)
  {
    if nodes == [] then []
    else
      var last := nodes[|nodes| - 1];
      Cells(nodes[..|nodes| - 1], size) + [CellAt(last.x, last.y, size)]
  }

  /** The inner loop: one bucket's forces added to node `i`. */
  method MeetBucket(node: GraphNode, i: nat, bucket: seq<nat>, f: Force)
    modifies node`dx, node`dy
    ensures Vec(node.dx, node.dy) == Add(old(Vec(node.dx, node.dy)), ListSum(f, i, bucket))
  {
    var p := 0;
    while p < |bucket|
      invariant p <= |bucket|
      invariant Vec(node.dx, node.dy) == Add(old(Vec(node.dx, node.dy)), ListSum(f, i, bucket[..p]))
    {
      assert bucket[..p + 1][..p] == bucket[..p];
      var j := bucket[p];
      if j != i {
        node.dx := node.dx + f(i, j).x;
        node.dy := node.dy + f(i, j).y;
      }
      p := p + 1;
    }
    assert bucket[..p] == bucket;
  }

  /** Forces from the first `n` rows of a column that starts at key `k`. */
  function RowsSum(f: Force, i: nat, cells: seq<Cell>, k: int, n: nat): Vec {
    if n == 0 then ZERO else Add(RowsSum(f, i, cells, k, n - 1), KeySum(f, i, cells, k + n - 1))
  }

  /** Forces from the first `n` columns, the first with middle key `k`. */
  function ColumnsSum(f: Force, i: nat, cells: seq<Cell>, k: int, n: nat): Vec {
    if n == 0 then ZERO
    else Add(ColumnsSum(f, i, cells, k, n - 1), ColumnSum(f, i, cells, k + (n - 1) * 16384))
  }

  lemma AddZero(a: Vec)
    ensures Add(ZERO, a) == a == Add(a, ZERO)
  {
  }

  lemma OneRowMore(f: Force, i: nat, cells: seq<Cell>, k: int, n: nat)
    ensures RowsSum(f, i, cells, k, n + 1) == Add(RowsSum(f, i, cells, k, n), KeySum(f, i, cells, k + n))
  {
  }

  lemma OneColumnMore(f: Force, i: nat, cells: seq<Cell>, k: int, n: nat)
    ensures ColumnsSum(f, i, cells, k, n + 1)
         == Add(ColumnsSum(f, i, cells, k, n), ColumnSum(f, i, cells, k + n * 16384))
  {
  }

  lemma RowsAreColumn(f: Force, i: nat, cells: seq<Cell>, k: int)
    ensures RowsSum(f, i, cells, k - 1, 3) == ColumnSum(f, i, cells, k)
  {
    AddZero(KeySum(f, i, cells, k - 1));
    OneRowMore(f, i, cells, k - 1, 0);
    OneRowMore(f, i, cells, k - 1, 1);
    OneRowMore(f, i, cells, k - 1, 2);
  }

  lemma ColumnsAreNine(f: Force, i: nat, cells: seq<Cell>, k: int)
    ensures ColumnsSum(f, i, cells, k - 16384, 3) == NineSum(f, i, cells, k)
  {
    AddZero(ColumnSum(f, i, cells, k - 16384));
    OneColumnMore(f, i, cells, k - 16384, 0);
    OneColumnMore(f, i, cells, k - 16384, 1);
    OneColumnMore(f, i, cells, k - 16384, 2);
  }

  lemma RowsStep(f: Force, i: nat, cells: seq<Cell>, at: Cell, uy: int, was: Vec)
    requires at.row - 1 <= uy <= at.row + 1
    ensures var k, n := Key(at) - 1, uy - (at.row - 1);
      Add(Add(was, RowsSum(f, i, cells, k, n)), KeySum(f, i, cells, Key(Cell(at.col, uy))))
      == Add(was, RowsSum(f, i, cells, k, n + 1))
  {
    var k, n := Key(at) - 1, uy - (at.row - 1);
    assert Key(Cell(at.col, uy)) == k + n;
    AddAssociates(was, RowsSum(f, i, cells, k, n), KeySum(f, i, cells, k + n));
  }

  lemma ColumnsStep(f: Force, i: nat, cells: seq<Cell>, at: Cell, ux: int, was: Vec)
    requires at.col - 1 <= ux <= at.col + 1
    ensures var k, n := Key(at) - 16384, ux - (at.col - 1);
      Add(Add(was, ColumnsSum(f, i, cells, k, n)), ColumnSum(f, i, cells, Key(Cell(ux, at.row))))
      == Add(was, ColumnsSum(f, i, cells, k, n + 1))
  {
    var k, n := Key(at) - 16384, ux - (at.col - 1);
    assert Key(Cell(ux, at.row)) == k + n * 16384;
    AddAssociates(was, ColumnsSum(f, i, cells, k, n), ColumnSum(f, i, cells, k + n * 16384));
  }

  /** One cell of the scan: look the bucket up, meet it if there is one. */
  method MeetCell(node: GraphNode, i: nat, at: Cell, grid: Table, ghost cells: seq<Cell>, f: Force)
    requires IndexesFirst(grid, cells, |cells|)
    modifies node`dx, node`dy
    ensures Vec(node.dx, node.dy) == Add(old(Vec(node.dx, node.dy)), KeySum(f, i, cells, Key(at)))
  {
    var key := Key(at);
    IndexesAll(grid, cells);
    BucketSum(f, i, cells, key);
    if key in grid {
      MeetBucket(node, i, grid[key], f);
    }
  }

  method MeetColumn(node: GraphNode, i: nat, at: Cell, grid: Table, ghost cells: seq<Cell>, f: Force)
    requires IndexesFirst(grid, cells, |cells|)
    modifies node`dx, node`dy
    ensures Vec(node.dx, node.dy) == Add(old(Vec(node.dx, node.dy)), ColumnSum(f, i, cells, Key(at)))
  {
    ghost var was := Vec(node.dx, node.dy);
    var uy := at.row - 1;
    while uy <= at.row + 1
      invariant at.row - 1 <= uy <= at.row + 2
      invariant Vec(node.dx, node.dy) == Add(was, RowsSum(f, i, cells, Key(at) - 1, uy - (at.row - 1)))
    {
      RowsStep(f, i, cells, at, uy, was);
      MeetCell(node, i, Cell(at.col, uy), grid, cells, f);
      uy := uy + 1;
    }
    RowsAreColumn(f, i, cells, Key(at));
  }

  /** The 3x3 scan of one node. */
  method MeetNeighbours(node: GraphNode, i: nat, at: Cell, grid: Table, ghost cells: seq<Cell>, f: Force)
    requires IndexesFirst(grid, cells, |cells|)
    modifies node`dx, node`dy
    ensures Vec(node.dx, node.dy) == Add(old(Vec(node.dx, node.dy)), NineSum(f, i, cells, Key(at)))
  {
    ghost var was := Vec(node.dx, node.dy);
    var ux := at.col - 1;
    while ux <= at.col + 1
      invariant at.col - 1 <= ux <= at.col + 2
      invariant Vec(node.dx, node.dy) == Add(was, ColumnsSum(f, i, cells, Key(at) - 16384, ux - (at.col - 1)))
    {
      ColumnsStep(f, i, cells, at, ux, was);
      MeetColumn(node, i, Cell(ux, at.row), grid, cells, f);
      ux := ux + 1;
    }
    ColumnsAreNine(f, i, cells, Key(at));
  }

  /** One turn of the bucketing loop. */
  method IndexNode(node: GraphNode, i: nat, size: real, grid: Table, ghost cells: seq<Cell>) returns (more: Table)
    requires size > 0.0 && i < |cells| && cells[i] == CellAt(node.x, node.y, size)
    requires IndexesFirst(grid, cells, i)
    modifies node`dx, node`dy
    ensures node.dx == 0.0 == node.dy && IndexesFirst(more, cells, i + 1)
  {
    node.dx := 0.0;
    node.dy := 0.0;
    var key := Key(CellAt(node.x, node.y, size));
    PutIndexes(grid, cells, i);
    more := Put(grid, key, i);
  }

  lemma EmptyIndexes(cells: seq<Cell>)
    ensures IndexesFirst(map[], cells, 0)
  {
    assert cells[..0] == [];
  }

  lemma IndexesAll(grid: Table, cells: seq<Cell>)
    requires IndexesFirst(grid, cells, |cells|)
    ensures Indexes(grid, cells)
  {
    assert cells[..|cells|] == cells;
  }

  /** `cells` are where the nodes are. */
  ghost predicate Placed(nodes: seq<GraphNode>, size: real, cells: seq<Cell>)
    requires size > 0.0
    reads nodes
  {
    |cells| == |nodes| && forall i :: 0 <= i < |nodes| ==> cells[i] == CellAt(nodes[i].x, nodes[i].y, size)
  }

  /** The first `i` nodes have no displacement. */
  ghost predicate Reset(nodes: seq<GraphNode>, i: nat)
    reads nodes
  {
    i <= |nodes| && forall k :: 0 <= k < i ==> nodes[k].dx == 0.0 == nodes[k].dy
  }

  /** The body of the bucketing loop. */
  method FillOne(ghost nodes: seq<GraphNode>, node: GraphNode, i: nat, size: real, grid: Table, ghost cells: seq<Cell>)
    returns (more: Table)
    requires size > 0.0 && i < |nodes| && nodes[i] == node && Placed(nodes, size, cells)
    requires Reset(nodes, i) && IndexesFirst(grid, cells, i)
    modifies node`dx, node`dy
    ensures Placed(nodes, size, cells) && Reset(nodes, i + 1) && IndexesFirst(more, cells, i + 1)
  {
    more := IndexNode(node, i, size, grid, cells);
  }

  /** The bucketing loop, over nodes whose cells are known. */
  method FillGrid(nodes: seq<GraphNode>, size: real, ghost cells: seq<Cell>) returns (grid: Table)
    requires size > 0.0 && Placed(nodes, size, cells)
    modifies All(nodes)`dx, All(nodes)`dy
    ensures IndexesFirst(grid, cells, |cells|) && Reset(nodes, |nodes|)
  {
    grid := map[];
    EmptyIndexes(cells);
    var i := 0;
    while i < |nodes|
      invariant i <= |nodes| && Placed(nodes, size, cells)
      invariant Reset(nodes, i) && IndexesFirst(grid, cells, i)
    {
      grid := FillOne(nodes, nodes[i], i, size, grid, cells);
      i := i + 1;
    }
  }

  /** Bucketing: resets every node's displacement and indexes its cell. */
  method BuildGrid(nodes: seq<GraphNode>, size: real) returns (grid: Table)
    requires size > 0.0
    modifies All(nodes)`dx, All(nodes)`dy
    ensures Indexes(grid, Cells(nodes, size)) && IndexesFirst(grid, Cells(nodes, size), |nodes|)
    ensures forall i :: 0 <= i < |nodes| ==> nodes[i].dx == 0.0 == nodes[i].dy
  {
    ghost var cells := Cells(nodes, size);
    grid := FillGrid(nodes, size, cells);
    IndexesAll(grid, cells);
  }

  ghost predicate Repelled(node: GraphNode, i: nat, cells: seq<Cell>, f: Force)
    requires i < |cells|
    reads node`dx, node`dy
  {
    Vec(node.dx, node.dy) == PairSum(f, i, cells, |cells|, ByKey)
  }

  method RepulseOne(node: GraphNode, i: nat, at: Cell, grid: Table, ghost cells: seq<Cell>, f: Force)
    requires IndexesFirst(grid, cells, |cells|) && i < |cells| && cells[i] == at && node.dx == 0.0 == node.dy
    modifies node`dx, node`dy
    ensures Repelled(node, i, cells, f)
  {
    MeetNeighbours(node, i, at, grid, cells, f);
    NineSumIsPairSum(f, i, cells, |cells|);
    assert cells[..|cells|] == cells;
  }

  /** The repulsion part of a tick: every node ends with the sum of the forces of all nodes
      it sees, each counted once. Positions do not change. */
  method Repulse(nodes: seq<GraphNode>, size: real, f: Force)
    requires size > 0.0 && Distinct(nodes)
    modifies All(nodes)`dx, All(nodes)`dy
    ensures forall i :: 0 <= i < |nodes| ==> Repelled(nodes[i], i, Cells(nodes, size), f)
  {
    var grid := BuildGrid(nodes, size);
    ghost var cells := Cells(nodes, size);
    var i := 0;
    while i < |nodes|
      invariant i <= |nodes|
      invariant forall k :: 0 <= k < i ==> Repelled(nodes[k], k, cells, f)
      invariant forall k :: i <= k < |nodes| ==> nodes[k].dx == 0.0 == nodes[k].dy
    {
      RepulseOne(nodes[i], i, CellAt(nodes[i].x, nodes[i].y, size), grid, cells, f);
      i := i + 1;
    }
  }

  // ---- against brute force ----

  /** What the packed key makes of two cells: they meet when they are neighbours after
      shifting by some number of 16384-row wraps. */
  lemma SeenIffWrappedNear(a: Cell, b: Cell)
    ensures Seen(a, b) <==>
      exists k: int :: Near(Cell(a.col, a.row), Cell(b.col + k, b.row - 16384 * k))
  {
    var dc, dr := b.col - a.col, b.row - a.row;
    var d := 16384 * dc + dr;
    assert Key(b) - Key(a) == d;
    if Seen(a, b) {
      var col := if -1 <= d <= 1 then 0 else if d > 0 then 1 else -1;
      var k := col - dc;
      assert Near(Cell(a.col, a.row), Cell(b.col + k, b.row - 16384 * k));
    }
    if k: int :| Near(Cell(a.col, a.row), Cell(b.col + k, b.row - 16384 * k)) {
      assert -1 <= dc + k <= 1 && -1 <= dr - 16384 * k <= 1;
      assert d == 16384 * (dc + k) + (dr - 16384 * k);
    }
  }

  /** Rows less than 16383 apart cannot be confused. */
  lemma SeenIsNear(a: Cell, b: Cell)
    requires -16383 < a.row - b.row < 16383
    ensures Seen(a, b) <==> Near(a, b)
  {
  }

  /** Neighbours after shifting by some number of 16384-row wraps. */
  ghost predicate WrappedNear(a: Cell, b: Cell) {
    exists k: int :: Near(a, Cell(b.col + k, b.row - 16384 * k))
  }

  /** Within these cells the key tells node `i` apart from every other node that is no neighbour. */
  ghost predicate Distinguishes(i: nat, cells: seq<Cell>)
    requires i < |cells|
  {
    forall j :: 0 <= j < |cells| && j != i ==> (Seen(cells[i], cells[j]) <==> Near(cells[i], cells[j]))
  }

  /** A force that only node `j` exerts. */
  function Only(j: nat): Force {
    (a: nat, b: nat) => OnlyFrom(j, b)
  }

  function OnlyFrom(j: nat, b: nat): Vec {
    if b == j then Vec(1.0, 0.0) else ZERO
  }

  lemma PairSumStep(f: Force, i: nat, cells: seq<Cell>, n: nat, m: Meeting)
    requires i < |cells| && n < |cells|
    ensures PairSum(f, i, cells, n + 1, m)
         == if n == i || !Meets(m, cells[i], cells[n]) then PairSum(f, i, cells, n, m)
            else Add(PairSum(f, i, cells, n, m), f(i, n))
  {
  }

  /** Node `j` is among the first `n` that node `i` meets. */
  predicate Counted(i: nat, j: nat, cells: seq<Cell>, n: nat, m: Meeting)
    requires i < |cells| && j < |cells|
  {
    j < n && Meets(m, cells[i], cells[j])
  }

  lemma {:induction false} OnlySum(i: nat, j: nat, cells: seq<Cell>, n: nat, m: Meeting)
    requires i < |cells| && j < |cells| && j != i && n <= |cells|
    ensures PairSum(Only(j), i, cells, n, m) == if Counted(i, j, cells, n, m) then Vec(1.0, 0.0) else ZERO
  {
    if n > 0 {
      var before := PairSum(Only(j), i, cells, n - 1, m);
      OnlySum(i, j, cells, n - 1, m);
      PairSumStep(Only(j), i, cells, n - 1, m);
      assert Only(j)(i, n - 1) == OnlyFrom(j, n - 1);
      if n - 1 == j {
        assert before == ZERO;
        AddZero(Vec(1.0, 0.0));
      } else {
        assert Counted(i, j, cells, n, m) == Counted(i, j, cells, n - 1, m);
        AddZero(before);
      }
    }
  }

  lemma {:induction false} AgreeingMeetings(f: Force, i: nat, cells: seq<Cell>, n: nat)
    requires i < |cells| && n <= |cells| && Distinguishes(i, cells)
    ensures PairSum(f, i, cells, n, ByKey) == PairSum(f, i, cells, n, ByCell)
  {
    if n > 0 {
      AgreeingMeetings(f, i, cells, n - 1);
    }
  }

  /** The scan by key and brute force by cell. */
  ghost predicate SameSum(f: Force, i: nat, cells: seq<Cell>)
    requires i < |cells|
  {
    PairSum(f, i, cells, |cells|, ByKey) == PairSum(f, i, cells, |cells|, ByCell)
  }

  /** For any nodes: the scan of node `i` equals brute force for every force if and only if no
      other node is its neighbour merely after a wrap of 16384 rows. */
  lemma {:induction false} SameMeetingsIff(i: nat, cells: seq<Cell>)
    requires i < |cells|
    ensures (forall f: Force :: SameSum(f, i, cells)) <==> Distinguishes(i, cells)
    ensures Distinguishes(i, cells) <==>
      forall j :: 0 <= j < |cells| && j != i && WrappedNear(cells[i], cells[j]) ==> Near(cells[i], cells[j])
  {
    if Distinguishes(i, cells) {
      forall f: Force ensures SameSum(f, i, cells) {
        AgreeingMeetings(f, i, cells, |cells|);
      }
    } else {
      var j :| 0 <= j < |cells| && j != i && !(Seen(cells[i], cells[j]) <==> Near(cells[i], cells[j]));
      OnlySum(i, j, cells, |cells|, ByKey);
      OnlySum(i, j, cells, |cells|, ByCell);
      assert !SameSum(Only(j), i, cells);
    }
    forall j | 0 <= j < |cells|
      ensures Seen(cells[i], cells[j]) <==> WrappedNear(cells[i], cells[j])
      ensures Near(cells[i], cells[j]) ==> Seen(cells[i], cells[j])
    {
      SeenIffWrappedNear(cells[i], cells[j]);
    }
  }

  lemma {:induction false} SameMeetings(f: Force, i: nat, cells: seq<Cell>, n: nat)
    requires i < |cells| && n <= |cells|
    requires forall j :: 0 <= j < |cells| ==> -16383 < cells[i].row - cells[j].row < 16383
    ensures PairSum(f, i, cells, n, ByKey) == PairSum(f, i, cells, n, ByCell)
  {
    if n > 0 {
      SameMeetings(f, i, cells, n - 1);
      SeenIsNear(cells[i], cells[n - 1]);
    }
  }

  /** Nodes no more than one cell apart in both coordinates are in neighbouring cells. */
  lemma CloseIsNear(x: real, y: real, x': real, y': real, size: real)
    requires size > 0.0 && -size <= x - x' <= size && -size <= y - y' <= size
    ensures Near(CellAt(x, y, size), CellAt(x', y', size)) && Seen(CellAt(x, y, size), CellAt(x', y', size))
  {
    CloseFloors(x, x', size);
    CloseFloors(y, y', size);
  }

  lemma CloseFloors(x: real, x': real, size: real)
    requires size > 0.0 && -size <= x - x' <= size
    ensures -1 <= (x / size).Floor - (x' / size).Floor <= 1
  {
    var a, b := x / size, x' / size;
    var d := a - b;
    DifferenceScales(a, x, b, x', size);
    ScaledBound(d, x - x', size);
  }

  lemma DifferenceScales(a: real, x: real, b: real, y: real, size: real)
    requires a * size == x && b * size == y
    ensures (a - b) * size == x - y
  {
  }

  lemma ScaledBound(d: real, e: real, size: real)
    requires size > 0.0 && d * size == e && -size <= e <= size
    ensures -1.0 <= d <= 1.0
  {
    assert d > 1.0 ==> (d - 1.0) * size > 0.0;
    assert d < -1.0 ==> (-1.0 - d) * size > 0.0;
  }

  /** The wrap is real: two cells 16384 rows and one column apart share a bucket. */
  lemma FarCellsCollide()
    ensures Key(Cell(0, 0)) == Key(Cell(1, -16384)) && !Near(Cell(0, 0), Cell(1, -16384))
  {
  }

  /** So do nodes in them, but their y coordinates are at least 16382 cell sizes apart: only
      a graph that spreads that far can show it. */
  lemma WrongMeetingsAreFar(x: real, y: real, x': real, y': real, size: real)
    requires size > 0.0
    requires Seen(CellAt(x, y, size), CellAt(x', y', size)) && !Near(CellAt(x, y, size), CellAt(x', y', size))
    ensures y - y' >= 16382.0 * size || y' - y >= 16382.0 * size
  {
    var a, b := CellAt(x, y, size), CellAt(x', y', size);
    assert a.row - b.row >= 16383 || b.row - a.row >= 16383;
    if a.row - b.row >= 16383 {
      FarFloors(y, y', size);
    } else {
      FarFloors(y', y, size);
    }
  }

  lemma FarFloors(y: real, y': real, size: real)
    requires size > 0.0 && (y / size).Floor - (y' / size).Floor >= 16383
    ensures y - y' >= 16382.0 * size
  {
    var a, b := y / size, y' / size;
    DifferenceScales(a, y, b, y', size);
    Grows(16382.0, a - b, size);
  }

  lemma Grows(a: real, b: real, size: real)
    requires size > 0.0 && a <= b
    ensures a * size <= b * size
  {
  }

  /** Two nodes that meet although they are far apart. */
  lemma FarNodesCollide(size: real) returns (y: real)
    requires size > 0.0
    ensures y == -16384.0 * size
    ensures CellAt(0.0, 0.0, size) == Cell(0, 0) && CellAt(size, y, size) == Cell(1, -16384)
    ensures Seen(CellAt(0.0, 0.0, size), CellAt(size, y, size))
  {
    y := -16384.0 * size;
    assert size / size == 1.0 && y / size == -16384.0;
  }
}
