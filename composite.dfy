/** The object view of the composite: `MyFile` and `Folder` objects, the
    `Component` interface they share, and the console that `show` writes to.
    Each object carries, as ghost state, the `Tree.Node` value it stands for,
    and every `show` is proved to write exactly `Tree.Render` of that value. */
module Composite {
  import opened Tree

  /** Standard output: the lines written so far, oldest first. */
  class Console {
    var lines: seq<string>

    constructor ()
      ensures lines == []
    {
      lines := [];
    }

    /** `System.out.println(s)`: one more line at the end, nothing else changes. */
    method PrintLn(s: string)
      modifies this
      ensures lines == old(lines) + [s]
    {
      lines := lines + [s];
    }
  }

  /** A leaf: a file with a name that never changes after construction. */
  class MyFile {
    const name: string

    constructor (name: string)
      ensures this.name == name
    {
      this.name := name;
    }

    /** The value this file stands for. */
    function Value(): (n: Node)
    {
      Leaf(name)
    }

    /** Writes the single line `indent + "File: " + name`. */
    method Show(indent: string, out: Console)
      modifies out
      ensures out.lines == old(out.lines) + [indent + "File: " + name]
      ensures out.lines == old(out.lines) + Render(Value(), indent)
    {
      out.PrintLn(indent + "File: " + name);
    }

    /** A new file object with the same name; it therefore renders exactly
        as this one does, at any indent. */
    method Clone() returns (copy: MyFile)
      ensures fresh(copy)
      ensures copy.name == name && copy.Value() == Value()
    {
      copy := new MyFile(name);
    }
  }

  /** The `Component` interface: a reference to either kind of node. */
  datatype Component = FileItem(file: MyFile) | FolderItem(folder: Folder)

  /** The folder objects a component reaches (none for a file). */
  ghost function ItemRepr(c: Component): (r: set<Folder>)
    reads if c.FolderItem? then {c.folder} else {}
  {
    if c.FolderItem? then c.folder.Repr else {}
  }

  /** A component is well formed when, being a folder, that folder is. */
  ghost predicate ItemValid(c: Component)
    reads if c.FolderItem? then {c.folder} + c.folder.Repr else {}
  {
    c.FolderItem? ==> c.folder.Valid()
  }

  /** The tree value a component stands for. */
  ghost function ItemNode(c: Component): (n: Node)
    reads if c.FolderItem? then {c.folder} else {}
  {
    match c
    case FileItem(f) => f.Value()
    case FolderItem(d) => d.Subtree
  }

  /** A folder: a fixed name and a growing list of children. */
  class Folder {
    const name: string
    var components: seq<Component>

    /** The tree value this folder stands for. */
    ghost var Subtree: Node
    /** This folder and every folder below it. */
    ghost var Repr: set<Folder>

    /** `Subtree` lists the children in the order of `components`; every child
        folder is well formed, lies inside `Repr`, and does not reach back to
        this folder (no cycles). */
    ghost predicate Valid()
      reads this, Repr
      decreases Repr
    {
      this in Repr &&
      Subtree.Dir? && Subtree.name == name && |Subtree.children| == |components| &&
      forall i :: 0 <= i < |components| ==>
        match components[i]
        case FileItem(f) => Subtree.children[i] == f.Value()
        case FolderItem(d) =>
          d in Repr && d.Repr <= Repr && this !in d.Repr &&
          d.Subtree == Subtree.children[i] && d.Valid()
    }

    constructor (name: string)
      ensures Valid() && fresh(this)
      ensures this.name == name && components == []
      ensures Subtree == Dir(name, []) && Repr == {this}
    {
      this.name := name;
      components := [];
      Subtree := Dir(name, []);
      Repr := {this};
    }

    /** Appends `c` to the children. The name and the earlier children stay
        as they were. The only demand on `c` is the one the tree shape needs:
        a folder added here must not already contain this folder. */
    method Add(c: Component)
      requires Valid() && ItemValid(c)
      requires c.FolderItem? ==> this !in c.folder.Repr
      modifies this
      ensures Valid()
      ensures components == old(components) + [c]
      ensures Subtree == Dir(name, old(Subtree.children) + [ItemNode(c)])
      ensures Repr == old(Repr) + ItemRepr(c)
    {
      components := components + [c];
      Subtree := Dir(name, Subtree.children + [ItemNode(c)]);
      Repr := Repr + ItemRepr(c);
      assert forall i :: 0 <= i < |components| - 1 ==> components[i] == old(components)[i];
    }

    /** Writes the heading `indent + "Folder: " + name`, then each child in
        insertion order at `indent` plus three spaces: exactly the lines
        `Render(Subtree, indent)`. */
    method Show(indent: string, out: Console)
      requires Valid()
      modifies out
      ensures out.lines == old(out.lines) + Render(Subtree, indent)
      decreases Repr, 1
    {
      out.PrintLn(indent + "Folder: " + name);
      var i := 0;
      while i < |components|
        invariant 0 <= i <= |components|
        invariant out.lines == old(out.lines) + [indent + "Folder: " + name]
                                + RenderAll(Subtree.children[..i], indent + Step)
      {
        ShowItem(components[i], indent + Step, out);
        RenderAllAppend(Subtree.children[..i], [Subtree.children[i]], indent + Step);
        assert Subtree.children[..i + 1] == Subtree.children[..i] + [Subtree.children[i]];
        assert [Subtree.children[i]][1..] == [];
        i := i + 1;
      }
      assert Subtree.children[..i] == Subtree.children;
    }
  }

  /** `component.show(indent)`, dispatched on the kind of component. */
  method ShowItem(c: Component, indent: string, out: Console)
    requires ItemValid(c)
    modifies out
    ensures out.lines == old(out.lines) + Render(ItemNode(c), indent)
    decreases ItemRepr(c), 2
  {
    match c
    case FileItem(f) => f.Show(indent, out);
    case FolderItem(d) => d.Show(indent, out);
  }
}
