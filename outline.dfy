/** An independent description of what the printed tree looks like: the
    nodes in pre-order, each with its depth (the root at depth 0), and the
    line each one should produce, namely 3 spaces per level of depth followed
    by its heading.  `Render` is proved to agree with it. */
module Outline {
  import opened Tree

  /** A node reached at a given depth of the tree. */
  datatype Row = Row(depth: nat, node: Node)

  /** The pre-order listing of `n`, with `n` itself at depth `d`. */
  function Rows(n: Node, d: nat): (rows: seq<Row>)
    decreases n, 1
  {
    match n
    case Leaf(_) => [Row(d, n)]
    case Dir(_, cs) => [Row(d, n)] + RowsAll(cs, d + 1)
  }

  function RowsAll(cs: seq<Node>, d: nat): (rows: seq<Row>)
    decreases cs, 0
  {
    if cs == [] then [] else Rows(cs[0], d) + RowsAll(cs[1..], d)
  }

  /** `k` space characters. */
  function Spaces(k: nat): (s: string)
  {
    seq(k, _ => ' ')
  }

  /** The text of a node's own line after its indentation. */
  function Heading(n: Node): (h: string)
  {
    match n
    case Leaf(name) => "File: " + name
    case Dir(name, _) => "Folder: " + name
  }

  /** The expected line for each row: `prefix`, then 3 spaces per level of
      depth, then the heading. */
  function Lines(prefix: string, rows: seq<Row>): (ls: seq<string>)
    ensures |ls| == |rows|
    ensures forall i :: 0 <= i < |rows| ==>
              ls[i] == prefix + Spaces(3 * rows[i].depth) + Heading(rows[i].node)
  {
    if rows == [] then []
    else [prefix + Spaces(3 * rows[0].depth) + Heading(rows[0].node)] + Lines(prefix, rows[1..])
  }

  /** Number of space characters at the front of `s`. */
  function LeadingSpaces(s: string): (k: nat)
    ensures k <= |s|
    ensures forall i :: 0 <= i < k ==> s[i] == ' '
    ensures k < |s| ==> s[k] != ' '
  {
    if s == [] || s[0] != ' ' then 0 else 1 + LeadingSpaces(s[1..])
  }

  lemma LinesAppend(prefix: string, xs: seq<Row>, ys: seq<Row>)
    ensures Lines(prefix, xs + ys) == Lines(prefix, xs) + Lines(prefix, ys)
  {
  }

  /** One more folder level is one more step of indentation. */
  lemma SpacesStep(d: nat)
    ensures Spaces(3 * d) + Step == Spaces(3 * (d + 1))
  {
  }

  /** `show` prints every node of the tree with its own `println` call, in
      pre-order, behind `prefix` and 3 spaces per level it lies below `n`. */
  lemma {:induction false} RenderMatchesRows(n: Node, prefix: string, d: nat)
    ensures Render(n, prefix + Spaces(3 * d)) == Lines(prefix, Rows(n, d))
    decreases n, 1
  {
    match n
    case Leaf(name) =>
      assert prefix + Spaces(3 * d) + "File: " + name == prefix + Spaces(3 * d) + Heading(n);
    case Dir(name, cs) =>
      assert prefix + Spaces(3 * d) + "Folder: " + name == prefix + Spaces(3 * d) + Heading(n);
      calc {
        Render(n, prefix + Spaces(3 * d));
        [prefix + Spaces(3 * d) + "Folder: " + name] + RenderAll(cs, prefix + Spaces(3 * d) + Step);
        { SpacesStep(d); assert prefix + Spaces(3 * d) + Step == prefix + Spaces(3 * (d + 1)); }
        [prefix + Spaces(3 * d) + "Folder: " + name] + RenderAll(cs, prefix + Spaces(3 * (d + 1)));
        { RenderAllMatchesRows(cs, prefix, d + 1); }
        Lines(prefix, [Row(d, n)]) + Lines(prefix, RowsAll(cs, d + 1));
        { LinesAppend(prefix, [Row(d, n)], RowsAll(cs, d + 1)); }
        Lines(prefix, Rows(n, d));
      }
  }

  lemma {:induction false} RenderAllMatchesRows(cs: seq<Node>, prefix: string, d: nat)
    ensures RenderAll(cs, prefix + Spaces(3 * d)) == Lines(prefix, RowsAll(cs, d))
    decreases cs, 0
  {
    if cs != [] {
      RenderMatchesRows(cs[0], prefix, d);
      RenderAllMatchesRows(cs[1..], prefix, d);
      LinesAppend(prefix, Rows(cs[0], d), RowsAll(cs[1..], d));
    }
  }

  /** There is one row per node. */
  lemma {:induction false} RowsLength(n: Node, d: nat)
    ensures |Rows(n, d)| == Size(n)
    ensures Rows(n, d)[0] == Row(d, n)
    decreases n, 1
  {
    match n
    case Leaf(_) =>
    case Dir(_, cs) => RowsAllLength(cs, d + 1);
  }

  lemma {:induction false} RowsAllLength(cs: seq<Node>, d: nat)
    ensures |RowsAll(cs, d)| == SizeAll(cs)
    decreases cs, 0
  {
    if cs != [] {
      RowsLength(cs[0], d);
      RowsAllLength(cs[1..], d);
    }
  }

  /** Every row below a node at depth `d` lies at depth `d + 1` or deeper. */
  lemma {:induction false} RowsDepth(n: Node, d: nat)
    ensures forall i :: 0 < i < |Rows(n, d)| ==> Rows(n, d)[i].depth > d
    decreases n, 1
  {
    match n
    case Leaf(_) =>
    case Dir(_, cs) => RowsAllDepth(cs, d + 1);
  }

  lemma {:induction false} RowsAllDepth(cs: seq<Node>, d: nat)
    ensures forall i :: 0 <= i < |RowsAll(cs, d)| ==> RowsAll(cs, d)[i].depth >= d
    decreases cs, 0
  {
    if cs != [] {
      RowsDepth(cs[0], d);
      RowsLength(cs[0], d);
      RowsAllDepth(cs[1..], d);
    }
  }

  /** Printed from the empty indent, line `i` of a tree starts with exactly
      3 * depth spaces, where depth is that of the `i`-th node in pre-order,
      and the rest of the line is the node's heading. */
  lemma IndentByDepth(root: Node, i: nat)
    requires i < Size(root)
    ensures |Render(root, "")| == |Rows(root, 0)| == Size(root)
    ensures LeadingSpaces(Render(root, "")[i]) == 3 * Rows(root, 0)[i].depth
    ensures Render(root, "")[i][3 * Rows(root, 0)[i].depth..] == Heading(Rows(root, 0)[i].node)
  {
    RenderLength(root, "");
    RowsLength(root, 0);
    RenderMatchesRows(root, "", 0);
    assert "" + Spaces(0) == "";
    var r := Rows(root, 0)[i];
    var line := Render(root, "")[i];
    assert line == "" + Spaces(3 * r.depth) + Heading(r.node);
    assert line[3 * r.depth] == 'F';
    LeadingSpacesOf(line, 3 * r.depth);
  }

  /** A string whose first `k` characters are spaces and whose next is not
      has exactly `k` leading spaces. */
  lemma LeadingSpacesOf(s: string, k: nat)
    requires k < |s| && s[k] != ' '
    requires forall i :: 0 <= i < k ==> s[i] == ' '
    ensures LeadingSpaces(s) == k
  {
  }

  /** Printed at depth `d`, a node's own line starts with exactly 3 * d
      spaces and every line below it, which belongs to one of its
      descendants, starts with at least 3 * (d + 1). */
  lemma DescendantsIndentDeeper(n: Node, d: nat, i: nat)
    requires 0 < i < Size(n)
    ensures |Render(n, Spaces(3 * d))| == Size(n)
    ensures LeadingSpaces(Render(n, Spaces(3 * d))[0]) == 3 * d
    ensures LeadingSpaces(Render(n, Spaces(3 * d))[i]) >= 3 * (d + 1)
  {
    RenderLength(n, Spaces(3 * d));
    RowsLength(n, d);
    RowsDepth(n, d);
    RenderMatchesRows(n, "", d);
    assert "" + Spaces(3 * d) == Spaces(3 * d);
    var lines := Render(n, Spaces(3 * d));
    var r := Rows(n, d)[i];
    assert lines[0] == "" + Spaces(3 * d) + Heading(n);
    assert lines[0][3 * d] == 'F';
    LeadingSpacesOf(lines[0], 3 * d);
    assert lines[i] == "" + Spaces(3 * r.depth) + Heading(r.node);
    assert lines[i][3 * r.depth] == 'F';
    LeadingSpacesOf(lines[i], 3 * r.depth);
  }
}
