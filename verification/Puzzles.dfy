/** The geometry the human-style solver works on: numbered cells, units, and which cells a queen
    rules out. Bit masks are sets of cell numbers. */
module Puzzles {
  import opened Boards
  import opened Finite

  datatype Kind = Row | Col | Region

  datatype Unit = Unit(kind: Kind, idx: nat)

  datatype Option<+T> = None | Some(value: T)

  datatype Puzzle = Puzzle(n: nat, rowOf: seq<nat>, colOf: seq<nat>, regOf: seq<nat>, attack: seq<set<nat>>)
  {
    predicate IsCell(i: int) {
      0 <= i < |rowOf|
    }

    /** The row, column or region number of a cell. */
    function Line(kind: Kind, i: nat): nat
    {
      if !(i < |rowOf| == |colOf| == |regOf|) then 0
      else match kind
        case Row => rowOf[i]
        case Col => colOf[i]
        case Region => regOf[i]
    }

    function Mask(u: Unit): set<nat> {
      set i: nat | i < |rowOf| && Line(u.kind, i) == u.idx
    }

    predicate IsUnit(u: Unit) {
      u.idx < n
    }

    predicate Attacks(i: nat, j: nat)
      requires |rowOf| == |colOf| == |regOf| && i < |rowOf| && j < |rowOf|
    {
      && i != j
      && (rowOf[i] == rowOf[j] || colOf[i] == colOf[j] || regOf[i] == regOf[j]
          || Touch(rowOf[i], colOf[i], rowOf[j], colOf[j]))
    }

    ghost predicate Valid() {
      && |rowOf| == |colOf| == |regOf| == |attack|
      && (forall i: nat, k: Kind :: i < |rowOf| ==> Line(k, i) < n)
      && (forall i: nat, j: nat :: i < |rowOf| && j < |rowOf| && rowOf[i] == rowOf[j] && colOf[i] == colOf[j] ==> i == j)
      && (forall i: nat, j: nat :: i < |rowOf| ==> (j in attack[i] <==> j < |rowOf| && Attacks(i, j)))
    }
  }

  /** Rows first, then columns, then regions. */
  function Units(p: Puzzle): seq<Unit> {
    seq(p.n, (k: nat) => Unit(Row, k)) + seq(p.n, (k: nat) => Unit(Col, k)) + seq(p.n, (k: nat) => Unit(Region, k))
  }

  lemma UnitsAreListed(p: Puzzle, u: Unit)
    ensures u in Units(p) <==> p.IsUnit(u)
  {
    var rows := seq(p.n, (k: nat) => Unit(Row, k));
    var cols := seq(p.n, (k: nat) => Unit(Col, k));
    var regs := seq(p.n, (k: nat) => Unit(Region, k));
    assert Units(p) == rows + cols + regs;
    if p.IsUnit(u) {
      match u.kind
      case Row => assert rows[u.idx] == u;
      case Col => assert cols[u.idx] == u;
      case Region => assert regs[u.idx] == u;
    }
  }

  // ----- solutions as sets of cells -----

  ghost predicate Apart(p: Puzzle, s: set<nat>)
    requires p.Valid()
  {
    && (forall i :: i in s ==> p.IsCell(i))
    && (forall i, j :: i in s && j in s ==> j !in p.attack[i])
  }

  /** A full placement: n queens, none attacking another. */
  ghost predicate Full(p: Puzzle, s: set<nat>)
    requires p.Valid()
  {
    Apart(p, s) && |s| == p.n
  }

  lemma OnePerLine(p: Puzzle, s: set<nat>, kind: Kind)
    requires p.Valid() && Apart(p, s)
    ensures InjectiveOn(s, (i: nat) => p.Line(kind, i))
  {
    forall x: nat, y: nat | x in s && y in s && p.Line(kind, x) == p.Line(kind, y)
      ensures x == y
    {
      assert y !in p.attack[x];
    }
  }

  /** Every row, every column and every region of a full placement holds a queen. */
  lemma UnitHasQueen(p: Puzzle, s: set<nat>, u: Unit)
    requires p.Valid() && Full(p, s) && p.IsUnit(u)
    ensures exists i :: i in s && i in p.Mask(u)
  {
    OnePerLine(p, s, u.kind);
    BelowCard(p.n);
    var f := (i: nat) => p.Line(u.kind, i);
    forall x | x in s
      ensures f(x) in Below(p.n)
    {
      assert p.IsCell(x);
    }
    var i := Pigeonhole(s, Below(p.n), f, u.idx);
    assert p.IsCell(i) && i in p.Mask(u);
  }

  lemma QueenSeesEveryCell(p: Puzzle, s: set<nat>, c: nat) returns (q: nat)
    requires p.Valid() && Full(p, s) && p.IsCell(c)
    ensures q in s && (c == q || c in p.attack[q])
  {
    var u := Unit(Row, p.Line(Row, c));
    UnitHasQueen(p, s, u);
    q :| q in s && q in p.Mask(u);
  }
}
