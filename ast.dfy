/** The markdown tree the renderer walks: the node variants xml2/renderer.go switches on,
    with the fields its emitters read. Parent and sibling links of the Go tree are not
    stored; a node is located by a `Place` (its parent, its index there and the path of
    child indices from the root), which also serves as the node's identity. */
module Ast {

  datatype Option<T> = None | Some(value: T)

  /** ast.DocumentMatters: the zero value is "no matter" */
  datatype Matter = NoMatter | Front | Main | Back

  /** ast.CitationType */
  datatype CitationType = CitationNone | Suppressed | Informative | Normative

  /** The ast.ListType bits a list or list item carries */
  datatype ListFlags = ListFlags(ordered: bool, definition: bool, term: bool)

  /** One variant per node type RenderNode distinguishes; `attrs` stands for what
      html.BlockAttrs returns for the node, `align` for what Align.String() returns. */
  datatype Kind =
    | Document
    | Title(block: string)
    | Bibliography(refs: string)
    | BibliographyItem(ref: string)
      /** mast.DocumentIndex, IndexLetter, IndexItem, IndexSubItem and IndexLink */
    | GeneratedIndex
    | Text(literal: string)
    | Softbreak
    | Hardbreak
    | Callout(id: string)
    | Emph
    | Strong
    | Del
    | Citation(destinations: seq<string>, types: seq<CitationType>)
    | DocumentMatter(matter: Matter)
    | Heading(level: int, headingID: string, literal: string, isSpecial: bool)
    | Paragraph(attrs: seq<string>)
    | HTMLSpan(literal: string)
    | HTMLBlock
    | List(flags: ListFlags, start: int, isFootnotes: bool, attrs: seq<string>)
    | ListItem(flags: ListFlags, hasRefLink: bool)
    | CodeBlock(literal: string, info: string, attrs: seq<string>)
    | Caption
    | CaptionFigure
    | Table(attrs: seq<string>)
    | TableCell(isHeader: bool, align: string)
    | TableHeader
    | TableBody
    | TableRow
    | TableFooter
    | BlockQuote(attrs: seq<string>)
    | Aside(attrs: seq<string>)
    | CrossReference(destination: string)
    | Index(item: string, primary: bool, subitem: string)
    | Link(destination: string)
    | Math
    | Image(destination: string, title: Option<string>)
    | Code(literal: string)
    | MathBlock(literal: string)
      /** any node type the renderer's switch does not name (it panics on it) */
    | Unsupported(typeName: string)

  /** A node; `container` is whether the walk visits it twice (AsContainer() != nil) */
  datatype Node = Node(kind: Kind, container: bool, children: seq<Node>)

  /** Where a node sits: the root, or child `index` of `parent`, whose own path is `parentPath` */
  datatype Place = Root | Child(parent: Node, index: nat, parentPath: seq<nat>)

  /** The path of child indices from the root to the node at `pl` */
  function PathOf(pl: Place): (p: seq<nat>)
    ensures pl.Child? ==> |p| == |pl.parentPath| + 1 && p[|pl.parentPath|] == pl.index
    ensures pl.Root? ==> p == []
  {
    match pl
    case Root => []
    case Child(_, i, pp) => pp + [i]
  }

  /** `n` really is the node at `pl` */
  ghost predicate At(n: Node, pl: Place) {
    pl.Child? ==> pl.index < |pl.parent.children| && pl.parent.children[pl.index] == n
  }

  /** The kind of the parent, None at the root (a nil Parent in Go) */
  function ParentKind(pl: Place): Option<Kind> {
    if pl.Root? then None else Some(pl.parent.kind)
  }

  /** True when the node has no previous sibling */
  predicate IsFirst(pl: Place) {
    pl.Root? || pl.index == 0
  }

  /** True when the node has a next sibling */
  predicate HasNext(pl: Place) {
    pl.Child? && pl.index + 1 < |pl.parent.children|
  }

  /** ast.WalkStatus */
  datatype WalkStatus = GoToNext | SkipChildren | Terminate
}
