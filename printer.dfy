/** The template-method printer: a fixed sequence (start banner, the tree
    shown from the empty indent, end banner) whose only variable parts are
    the two banner lines. */
module Printing {
  import opened Tree
  import opened Composite

  /** A printer is its two banners; `print` itself cannot be overridden. */
  datatype Printer = Printer(startBanner: string, endBanner: string)
  {
    /** The lines `print(root)` writes for a tree `root`. */
    function Output(root: Node): (lines: seq<string>)
    {
      [startBanner] + Render(root, "") + [endBanner]
    }

    /** `print(component)`: start banner, `component.show("")`, end banner. */
    method Print(component: Component, out: Console)
      requires ItemValid(component)
      modifies out
      ensures out.lines == old(out.lines) + Output(ItemNode(component))
    {
      out.PrintLn(startBanner);
      ShowItem(component, "", out);
      out.PrintLn(endBanner);
    }
  }

  /** The console printer's banners. */
  const ConsolePrinter: Printer :=
    Printer("=== Start Printing Structure ===", "=== End Printing Structure ===")

  /** The output of `print` is one `println` call per node, framed by the two
      banners: the first line is the start banner, the last is the end banner,
      and everything between is what the root shows from the empty indent. */
  lemma OutputShape(p: Printer, root: Node)
    ensures |p.Output(root)| == Size(root) + 2
    ensures p.Output(root)[0] == p.startBanner
    ensures p.Output(root)[Size(root) + 1] == p.endBanner
    ensures p.Output(root)[1..Size(root) + 1] == Render(root, "")
  {
    RenderLength(root, "");
  }
}
