/** The program's entry point: it builds one fixed tree, a root folder with a
    sub-folder holding a file and its clone, followed by a second file, and
    prints it once with the console printer. */
module Driver {
  import opened Tree
  import opened Composite
  import opened Printing

  /** The sub-folder of the demonstration tree: a file and its clone. */
  const DemoSubTree: Node := Dir("SubFolder", [Leaf("document.txt"), Leaf("document.txt")])

  /** The tree the entry point builds, as a value. */
  const DemoTree: Node := Dir("Root", [DemoSubTree, Leaf("image.png")])

  /** What the entry point prints, line by line. */
  const DemoOutput: seq<string> := [
    "=== Start Printing Structure ===",
    "Folder: Root",
    "   Folder: SubFolder",
    "      File: document.txt",
    "      File: document.txt",
    "   File: image.png",
    "=== End Printing Structure ==="
  ]

  lemma DemoSubTreeLines()
    ensures Render(DemoSubTree, "   ")
         == ["   Folder: SubFolder", "      File: document.txt", "      File: document.txt"]
  {
    var doc := Leaf("document.txt");
    assert "   " + Step == "      ";
    assert "   " + "Folder: " + "SubFolder" == "   Folder: SubFolder";
    assert "      " + "File: " + "document.txt" == "      File: document.txt";
    assert RenderAll([doc, doc], "      ") == Render(doc, "      ") + Render(doc, "      ") by {
      assert [doc, doc][1..] == [doc] && [doc][1..] == [];
      assert RenderAll([doc], "      ") == Render(doc, "      ");
    }
  }

  lemma DemoTreeLines()
    ensures Render(DemoTree, "") == [
      "Folder: Root",
      "   Folder: SubFolder",
      "      File: document.txt",
      "      File: document.txt",
      "   File: image.png"
    ]
  {
    var img := Leaf("image.png");
    assert "" + Step == "   ";
    assert "" + "Folder: " + "Root" == "Folder: Root";
    assert "   " + "File: " + "image.png" == "   File: image.png";
    assert RenderAll([DemoSubTree, img], "   ") == Render(DemoSubTree, "   ") + Render(img, "   ") by {
      assert [DemoSubTree, img][1..] == [img] && [img][1..] == [];
      assert RenderAll([img], "   ") == Render(img, "   ");
    }
    DemoSubTreeLines();
  }

  /** Printing the demonstration tree gives exactly the seven expected lines. */
  lemma DemoPrints()
    ensures ConsolePrinter.Output(DemoTree) == DemoOutput
    ensures |DemoOutput| == Size(DemoTree) + 2
  {
    DemoTreeLines();
    RenderLength(DemoTree, "");
  }

  /** The body of `main`: builds the tree with constructors, a clone and
      `add` calls, then prints it; the console receives `DemoOutput`. */
  method Run(out: Console)
    modifies out
    ensures out.lines == old(out.lines) + DemoOutput
  {
    var file1 := new MyFile("document.txt");
    var file2 := file1.Clone();
    var file3 := new MyFile("image.png");

    var root := new Folder("Root");
    var subFolder := new Folder("SubFolder");

    subFolder.Add(FileItem(file1));
    subFolder.Add(FileItem(file2));

    root.Add(FolderItem(subFolder));
    root.Add(FileItem(file3));

    assert subFolder.Subtree == DemoSubTree;
    assert root.Subtree == DemoTree;
    ConsolePrinter.Print(FolderItem(root), out);
    DemoPrints();
  }
}
