# File/folder composite printer, modelled in Dafny

The program shows three object-oriented patterns on a small file-system
tree:

- a composite of `MyFile` leaves and `Folder` containers behind the
  `Component` interface, whose `show(indent)` makes one `println` call per node;
- a prototype `MyFile.clone()`;
- a template method `AbstractPrinter.print` that prints a start banner, the
  tree shown from the empty indent, and an end banner. `ConsolePrinter`
  supplies the two banners.

`main` builds one tree and prints it.

The model has two views of the same thing:

- `tree.dfy` (module `Tree`) is the value view: a `Node` datatype
  (`Leaf(name)` for a `MyFile`, `Dir(name, children)` for a `Folder`),
  `Render(n, indent)`, the lines `show` passes to `println`, and
  `Size(n)`, the node count. Lemmas state how many lines are written and in
  what order, and what `add` does to the output.
- `outline.dfy` (module `Outline`) is an independent reference for the
  indentation. `Rows` lists the nodes in pre-order with their depth (root at
  depth 0). `Lines` gives each row its expected line: 3 spaces per level,
  then the node's heading. `Render` is proved to equal it, so a node at
  depth d is printed behind exactly 3·d spaces.
- `composite.dfy` (module `Composite`) is the object view. `MyFile` and
  `Folder` are classes, and `Component` is a datatype holding a reference to
  either kind. `Console` stands for standard output: it is a `seq` of lines,
  and `PrintLn` appends one. Each `Folder` carries, as ghost state, the
  `Node` value it stands for (`Subtree`) and the folders it reaches (`Repr`).
  `Folder.Add` appends to the `components` list in place and says exactly
  what the new state is. `Folder.Show` walks the children with a loop and is
  proved to write exactly `Render(Subtree, indent)`.
- `printer.dfy` (module `Printing`) models the template method as a
  `Printer` value holding the two banners. `Print` runs the fixed three
  steps, and `ConsolePrinter` holds the console banners.
- `driver.dfy` (module `Driver`) is `main`. `Run` builds the same tree with
  constructors, a clone and `Add` calls, prints it, and is proved to write
  exactly the seven expected lines.

## Model

| member | source | states |
|---|---|---|
| `Composite.Console.PrintLn` | TestJava/src/Main.java:24 | one `println` adds exactly one line at the end of the output and changes nothing else |
| `Composite.MyFile.constructor` | TestJava/src/Main.java:18-20 | a new file holds the name it was given, and any name is accepted |
| `Composite.MyFile.Show` | TestJava/src/Main.java:22-25 | a file writes exactly one line, `indent + "File: " + name`, which is its whole rendering |
| `Composite.MyFile.Clone` | TestJava/src/Main.java:27-34 | the clone is a new object with the same name, so it renders the same as the original at every indent; it never fails |
| `Composite.Folder.constructor` | TestJava/src/Main.java:42-47 | a new folder has the given name, no children, and stands for the empty folder node |
| `Composite.Folder.Add` | TestJava/src/Main.java:49-51 | the component is appended at the end of `components`, earlier children keep their places, the folder's tree gains exactly that child last, and the folder stays well formed |
| `Composite.Folder.Show` | TestJava/src/Main.java:53-59 | the folder writes its heading, then each child's lines in insertion order at the indent plus three spaces: exactly `Render` of its tree |
| `Composite.ShowItem` | TestJava/src/Main.java:7-9 | `show` on a component, whichever kind it is, writes exactly the rendering of the node it stands for |
| `Tree.RenderLength` | TestJava/src/Main.java:54-59 | `show` makes one `println` call per node, so the number of lines it passes to `println` equals the node count |
| `Tree.RenderAllLength` | TestJava/src/Main.java:56-58 | the children together write as many lines as they have nodes |
| `Tree.RenderAllAppend` | TestJava/src/Main.java:56-58 | rendering a list of children is the rendering of each part in list order, so children print in the order they were added |
| `Tree.RenderAfterAdd` | TestJava/src/Main.java:49-51 | after `add(c)`, a folder prints what it printed before, followed by exactly `c`'s lines at the folder's indent plus three spaces |
| `Tree.ChildBlock` | TestJava/src/Main.java:56-58 | child k's lines form one contiguous block, placed after all lines of the earlier children |
| `Outline.RenderMatchesRows` | TestJava/src/Main.java:57 | every node is printed by its own `println` call in pre-order, behind the starting indent plus 3 spaces per level below the node `show` was called on |
| `Outline.RenderAllMatchesRows` | TestJava/src/Main.java:56-58 | the same holds for a list of children one level deeper |
| `Outline.RowsLength` | TestJava/src/Main.java:54-59 | the pre-order listing has one row per node and starts with the node itself |
| `Outline.RowsDepth` | TestJava/src/Main.java:56-58 | every node below a folder lies at least one level deeper than that folder |
| `Outline.DescendantsIndentDeeper` | TestJava/src/Main.java:54-59 | printed at depth d, a folder's own line starts with exactly 3·d spaces and every line of its descendants starts with at least 3·(d+1) |
| `Outline.IndentByDepth` | TestJava/src/Main.java:69 | printed from the empty indent, the `println` argument for a node at depth d starts with exactly 3·d spaces, followed by that node's `File: ` or `Folder: ` heading |
| `Printing.Printer.Print` | TestJava/src/Main.java:67-71 | `print` writes the start banner, then exactly what `show("")` writes for the component, then the end banner |
| `Printing.OutputShape` | TestJava/src/Main.java:83-90 | the printed output has node count + 2 lines: the start banner first, the end banner last, and the tree's lines in between |
| `Driver.DemoPrints` | TestJava/src/Main.java:80-113 | the tree that `main` builds, printed with `ConsolePrinter`'s two banners (the constant `Printing.ConsolePrinter`), gives exactly the seven expected lines |
| `Driver.Run` | TestJava/src/Main.java:98-117 | running `main` (build with constructors, `clone` and `add`, then print) appends exactly those seven lines to the console |

## Left out

- Writing to the real console: `System.out.println` is modelled as appending to `Console.lines`. An element of `Console.lines` is the argument of one `println` call, not a line of text on standard output. A name that contains a line terminator prints as several lines in Java, and the lines after the first carry no indent. The model keeps it as one element. So `Tree.RenderLength`, `Outline.RenderMatchesRows` and `Outline.IndentByDepth` count and describe `println` calls. They equal the lines on standard output only when no name contains a line terminator, as in `main`.
- Inheritance and dynamic dispatch. The `Component` interface is a datatype with one case per implementing class, and `ShowItem` dispatches on it. `AbstractPrinter`/`ConsolePrinter` is a `Printer` value holding the two banners, and `ConsolePrinter` is the one instance the program uses.
- The `Cloneable`/`super.clone()` machinery and its `CloneNotSupportedException` → `null` branch: `MyFile` implements `Cloneable` and has only an immutable field, so that branch cannot be taken. `Clone` always returns a new file.
- The unused `String[] args` of `main`.
- `Composite.Folder.Add`: requires that an added folder does not already contain the receiving folder. The source does not check this: with a cycle, `show` prints lines until the JVM throws `StackOverflowError`. The folder being added must also be well formed. Sharing a sub-tree under several parents is still allowed.
- `Composite.Folder.Add`: promises nothing about folders that already contain the receiver. In the source, such a parent sees the new child at once through the shared reference and prints the updated sub-tree. In the model, adding to a folder after it has been added to a parent leaves that parent's ghost `Subtree` out of date, so the parent is no longer `Valid()`. After that, `Show` on the parent, `ShowItem` or `Printer.Print` with it, and any further `Add` to it can no longer be called. The model therefore covers only trees whose folders are filled before they are added to a parent, which is the order `main` uses.
- Java `null`: names and components cannot be null in the model, because `string` and `Component` have no null value. In the source, `new MyFile(null)` and `new Folder(null)` print `File: null` and `Folder: null`, and `add(null)` is accepted; a later `show` on that folder throws `NullPointerException` when it reaches the null child. The indent cannot be null either, whereas Java's public `show(null)` prints `nullFile: …` or `nullFolder: …`.
