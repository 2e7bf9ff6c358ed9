/** The value view of the file/folder composite: a tree of two node kinds and
    the lines `show` writes for it.  Each element of the `seq<string>` these
    functions return is the argument of one `System.out.println` call. */
module Tree {

  /** A `MyFile` is a `Leaf` with a name; a `Folder` is a `Dir` with a name
      and an ordered list of children of either kind. */
  datatype Node = Leaf(name: string) | Dir(name: string, children: seq<Node>)

  /** What a folder adds to the indent of its children. */
  const Step: string := "   "

  /** The lines `show(indent)` writes for `n`, in order. */
  function Render(n: Node, indent: string): (lines: seq<string>)
    decreases n, 1
  {
    match n
    case Leaf(name) => [indent + "File: " + name]
    case Dir(name, cs) => [indent + "Folder: " + name] + RenderAll(cs, indent + Step)
  }

  /** The lines of the children `cs`, each rendered at `indent`, one child
      after the other in list order. */
  function RenderAll(cs: seq<Node>, indent: string): (lines: seq<string>)
    decreases cs, 0
  {
    if cs == [] then [] else Render(cs[0], indent) + RenderAll(cs[1..], indent)
  }

  /** Number of nodes in the tree: one per file, one per folder. */
  function Size(n: Node): (k: nat)
    ensures k >= 1
    decreases n, 1
  {
    match n
    case Leaf(_) => 1
    case Dir(_, cs) => 1 + SizeAll(cs)
  }

  function SizeAll(cs: seq<Node>): (k: nat)
    decreases cs, 0
  {
    if cs == [] then 0 else Size(cs[0]) + SizeAll(cs[1..])
  }

  /** Rendering a list of children splits over concatenation of the list:
      the children come out in list order. */
  lemma {:induction false} RenderAllAppend(xs: seq<Node>, ys: seq<Node>, indent: string)
    ensures RenderAll(xs + ys, indent) == RenderAll(xs, indent) + RenderAll(ys, indent)
  {
    if xs == [] {
      assert xs + ys == ys;
    } else {
      assert (xs + ys)[1..] == xs[1..] + ys;
      RenderAllAppend(xs[1..], ys, indent);
    }
  }

  /** Appending a child to a folder appends exactly that child's lines, at the
      folder's indent plus one step, to what the folder rendered before. */
  lemma RenderAfterAdd(name: string, cs: seq<Node>, c: Node, indent: string)
    ensures Render(Dir(name, cs + [c]), indent)
         == Render(Dir(name, cs), indent) + Render(c, indent + Step)
  {
    RenderAllAppend(cs, [c], indent + Step);
    assert RenderAll([c], indent + Step) == Render(c, indent + Step) by {
      assert [c][1..] == [];
    }
  }

  /** `show` makes one `println` call per node. */
  lemma {:induction false} RenderLength(n: Node, indent: string)
    ensures |Render(n, indent)| == Size(n)
    decreases n, 1
  {
    match n
    case Leaf(_) =>
    case Dir(_, cs) => RenderAllLength(cs, indent + Step);
  }

  lemma {:induction false} RenderAllLength(cs: seq<Node>, indent: string)
    ensures |RenderAll(cs, indent)| == SizeAll(cs)
    decreases cs, 0
  {
    if cs != [] {
      RenderLength(cs[0], indent);
      RenderAllLength(cs[1..], indent);
    }
  }

  /** Child `k` of a list occupies its own block of lines: the lines of the
      earlier children come first, then exactly the lines of child `k`. */
  lemma ChildBlock(cs: seq<Node>, k: nat, indent: string)
    requires k < |cs|
    ensures SizeAll(cs[..k]) + Size(cs[k]) <= |RenderAll(cs, indent)|
    ensures RenderAll(cs, indent)[SizeAll(cs[..k])..SizeAll(cs[..k]) + Size(cs[k])]
         == Render(cs[k], indent)
  {
    assert cs == cs[..k] + ([cs[k]] + cs[k + 1..]);
    RenderAllAppend(cs[..k], [cs[k]] + cs[k + 1..], indent);
    RenderAllAppend([cs[k]], cs[k + 1..], indent);
    assert [cs[k]][1..] == [];
    RenderAllLength(cs[..k], indent);
    RenderLength(cs[k], indent);
  }
}
