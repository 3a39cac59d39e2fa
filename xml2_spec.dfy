/** The renderer of xml2/renderer.go as functions on a `State` value: one function per
    emitter, the dispatcher `Visit`, and the depth-first `Walk` that the caption and
    table rewrites start on a caption subtree. The class in Xml2Renderer implements
    the same operations step by step and is proved against these functions. */
module Xml2 {
  import opened Ast
  import opened Markup

  /** Flags (xml2/renderer.go:15-25): bits of a Go int */
  type Flags = bv64

  const FlagsNone: Flags := 0
  const XMLFragment: Flags := 2
  const SkipHTML: Flags := 4
  const SkipImages: Flags := 8
  const CommonFlags: Flags := SkipImages

  predicate HasFlag(flags: Flags, f: Flags) {
    flags & f != 0
  }

  /** What RenderNodeHook answers: a status, and whether it handled the node */
  datatype HookAnswer = HookAnswer(status: WalkStatus, handled: bool)

  /** RendererOptions; `comments` is None where the Go slice is nil */
  datatype Options = Options(
    callout: string,
    flags: Flags,
    hook: Option<(Node, bool) -> HookAnswer>,
    comments: Option<seq<string>>)

  /** Collaborators whose bodies are not part of this model, as uninterpreted functions:
      the html and xml library predicates and escapers, and the renderer's own helpers
      defined outside xml2/renderer.go (sectionClose's writes, ensureUniqueHeadingID,
      EscapeHTMLCallouts, appendLanguageAttr, titleBlock, bibliography, bibliographyItem). */
  datatype Library = Library(
    escapeHTML: string -> string,
    is2119: string -> bool,
    isAbstract: string -> bool,
    attributesContains: (string, seq<string>) -> bool,
    escapeCallouts: (seq<string>, string, string) -> string,
    appendLanguageAttr: (seq<string>, string) -> seq<string>,
    sectionClose: (Option<Node>, Option<Node>) -> seq<Chunk>,
    uniqueHeadingID: (map<string, int>, string) -> (string, map<string, int>),
    titleBlock: string -> seq<Chunk>,
    bibliography: (string, bool) -> seq<Chunk>,
    bibliographyItem: string -> seq<Chunk>)

  /** The Renderer's fields (xml2/renderer.go:45-54), what it has written so far, and the
      paths of the caption nodes it has removed from the tree */
  datatype State = State(
    documentMatter: Matter,
    section: Option<Node>,
    title: bool,
    headingIDs: map<string, int>,
    output: seq<Chunk>,
    consumed: set<seq<nat>>)

  /** NewRenderer: no region, no open section, no title, no heading IDs, nothing written */
  function Initial(): State {
    State(NoMatter, None, false, map[], [], {})
  }

  function Emit(s: State, out: seq<Chunk>): State {
    s.(output := s.output + out)
  }

  // ---------------------------------------------------------------- what may be rendered

  /** A node the switch of RenderNode names and that it can render without a panic
      (node.Type[i] is read for every destination of a citation) */
  predicate Known(k: Kind) {
    !k.Unsupported? && (k.Citation? ==> |k.destinations| <= |k.types|)
  }

  predicate Handled(opts: Options, n: Node, entering: bool) {
    opts.hook.Some? && opts.hook.value(n, entering).handled
  }

  /** RenderNode does not panic on this visit */
  predicate Renders(opts: Options, n: Node, entering: bool) {
    Handled(opts, n, entering) || Known(n.kind)
  }

  /** The entering visit of `n` keeps the walk out of its children: the hook answered
      SkipChildren or Terminate, or the node is an image and SkipImages is set */
  predicate SkipsChildren(opts: Options, n: Node) {
    if Handled(opts, n, true) then opts.hook.value(n, true).status != GoToNext
    else n.kind.Image? && HasFlag(opts.flags, SkipImages)
  }

  /** The children of `n` are visited: by the walk, or by a caption figure that walks its
      captions itself */
  predicate VisitsChildren(opts: Options, n: Node) {
    || (n.container && !SkipsChildren(opts, n))
    || (n.kind.CaptionFigure? && !Handled(opts, n, true) && !HasTableChild(n))
  }

  /** No visit of the walk over `n` panics. Children the walk never reaches may be anything. */
  predicate Supported(opts: Options, n: Node)
    decreases n
  {
    && Renders(opts, n, true)
    && (n.container ==> Renders(opts, n, false))
    && (VisitsChildren(opts, n) ==> forall i | 0 <= i < |n.children| :: Supported(opts, n.children[i]))
  }

  predicate SupportedChildren(opts: Options, p: Node) {
    forall i | 0 <= i < |p.children| :: Supported(opts, p.children[i])
  }

  /** What an entering visit of the node at `pl` walks besides the node: a caption figure
      without a table walks its captions, a table in a caption figure the figure's first one */
  predicate CaptionsReady(opts: Options, n: Node, pl: Place, entering: bool) {
    entering ==>
      && (n.kind.CaptionFigure? && !HasTableChild(n) ==> SupportedChildren(opts, n))
      && (n.kind.Table? && InCaptionFigure(pl) ==> SupportedChildren(opts, pl.parent))
  }

  // ---------------------------------------------------------------- state-free emitters

  /** text (xml2/renderer.go:62-82) */
  function TextOut(lib: Library, literal: string, parent: Option<Kind>): seq<Chunk> {
    if parent.Some? && parent.value.Link? then Put(literal)
    else if parent.Some? && parent.value.Heading? then
      if parent.value.isSpecial && lib.isAbstract(parent.value.literal) then []
      else Put(lib.escapeHTML(literal)) + Put("\">")
    else Put(lib.escapeHTML(literal)) + (if parent == Some(Caption) then Put("\">") else [])
  }

  /** hardBreak */
  function HardBreakOut(): seq<Chunk> {
    Put("<vspace />") + [NewLine]
  }

  /** strong: no markup when the first child is an RFC 2119 keyword */
  function StrongOut(lib: Library, n: Node, entering: bool): seq<Chunk> {
    if |n.children| > 0 && n.children[0].kind.Text? && lib.is2119(n.children[0].kind.literal)
    then OneOf(entering, "", "")
    else OneOf(entering, "<spanx style=\"strong\">", "</spanx>")
  }

  function TargetAttr(dest: string): string {
    "target=\"" + dest + "\""
  }

  /** One destination of a citation */
  function CitationRef(dest: string, t: CitationType): seq<Chunk> {
    if t == Suppressed then []
    else Put(TagWithAttributes("<xref", [TargetAttr(dest)])) + Put("</xref>")
  }

  /** citation (xml2/renderer.go:175-188), entering */
  function CitationOut(dests: seq<string>, types: seq<CitationType>): seq<Chunk>
    requires |dests| <= |types|
    decreases |dests|
  {
    if |dests| == 0 then []
    else CitationOut(dests[..|dests| - 1], types) + CitationRef(dests[|dests| - 1], types[|dests| - 1])
  }

  predicate InListItem(pl: Place) {
    pl.Child? && pl.parent.kind.ListItem?
  }

  /** paragraphEnter: inside a list item, only a break before every paragraph but the first */
  function ParagraphEnterOut(attrs: seq<string>, pl: Place): seq<Chunk> {
    if InListItem(pl) then
      if |pl.parent.children| > 1 && pl.index != 0 then HardBreakOut() else []
    else Put(TagWithAttributes("<t", attrs))
  }

  /** paragraphExit */
  function ParagraphExitOut(pl: Place): seq<Chunk> {
    if InListItem(pl) then [] else Put("</t>") + [NewLine]
  }

  /** The style listEnter falls back on */
  function DefaultListStyle(f: ListFlags): string {
    if f.definition then "style=\"hanging\""
    else if f.ordered then "style=\"numbers\""
    else "style=\"symbols\""
  }

  function StartAttrs(f: ListFlags, start: int): seq<string> {
    if f.ordered && start > 0 then ["start=\"" + DecimalString(start) + "\""] else []
  }

  /** The attributes of the <list> tag */
  function ListAttrs(lib: Library, f: ListFlags, start: int, attrs: seq<string>): seq<string> {
    var a := StartAttrs(f, start) + attrs;
    if lib.attributesContains("style", a) then a else a + [DefaultListStyle(f)]
  }

  const FootnotesOpen: string := "\n<div class=\"footnotes\">\n\n"
  const FootnotesClose: string := "\n</div>\n"

  /** listEnter */
  function ListEnterOut(lib: Library, k: Kind): seq<Chunk>
    requires k.List?
  {
    (if k.isFootnotes then Put(FootnotesOpen) + [NewLine] else [])
    + [NewLine]
    + Put(TagWithAttributes("<list", ListAttrs(lib, k.flags, k.start, k.attrs)))
    + [NewLine]
  }

  /** The break listExit writes after </list>, chosen by the parent */
  function ListExitBreak(pl: Place): seq<Chunk> {
    if pl.Root? then []
    else match pl.parent.kind
      case ListItem(_, _) => if HasNext(pl) then [NewLine] else []
      case Document => [NewLine]
      case BlockQuote(_) => [NewLine]
      case Aside(_) => [NewLine]
      case _ => []
  }

  /** listExit */
  function ListExitOut(k: Kind, pl: Place): seq<Chunk>
    requires k.List?
  {
    Put("</list>") + ListExitBreak(pl) + (if k.isFootnotes then Put(FootnotesClose) else [])
  }

  /** list: wrapped in a fresh, parentless paragraph unless inside a list item */
  function ListOut(lib: Library, k: Kind, pl: Place, entering: bool): seq<Chunk>
    requires k.List?
  {
    if entering then
      (if InListItem(pl) then [] else ParagraphEnterOut([], Root)) + ListEnterOut(lib, k)
    else
      ListExitOut(k, pl) + (if InListItem(pl) then [] else ParagraphExitOut(Root))
  }

  function ListItemOpenTag(f: ListFlags): string {
    if f.term then "<t hangText=\"" else if f.definition then "<vspace />" else "<t>"
  }

  function ListItemCloseTag(f: ListFlags): string {
    if f.term then "\">" else "</t>"
  }

  /** listItemEnter / listItemExit */
  function ListItemOut(k: Kind, entering: bool): seq<Chunk>
    requires k.ListItem?
  {
    if entering then (if k.hasRefLink then [] else Put(ListItemOpenTag(k.flags)))
    else Put(ListItemCloseTag(k.flags)) + [NewLine]
  }

  /** The escaping of code and math literals: callout-aware exactly when Comments is set */
  function EscapeLiteral(lib: Library, opts: Options, literal: string): string {
    if opts.comments.Some? then lib.escapeCallouts(opts.comments.value, opts.callout, literal)
    else lib.escapeHTML(literal)
  }

  predicate InCaptionFigure(pl: Place) {
    pl.Child? && pl.parent.kind.CaptionFigure?
  }

  /** codeBlock */
  function CodeBlockOut(lib: Library, opts: Options, k: Kind, pl: Place): seq<Chunk>
    requires k.CodeBlock?
  {
    var attrs := lib.appendLanguageAttr([], k.info) + k.attrs;
    [NewLine]
    + Put(TagWithAttributes(if InCaptionFigure(pl) then "<artwork" else "<figure><artwork", attrs))
    + Put(EscapeLiteral(lib, opts, k.literal))
    + Put(if InCaptionFigure(pl) then "</artwork>" else "</artwork></figure>")
    + [NewLine]
  }

  function AlignAttrs(align: string): seq<string> {
    if align != "" then ["align=\"" + align + "\""] else []
  }

  /** tableCell */
  function TableCellOut(k: Kind, pl: Place, entering: bool): seq<Chunk>
    requires k.TableCell?
  {
    if !entering then OneOf(k.isHeader, "</ttcol>", "</c>") + [NewLine]
    else
      (if IsFirst(pl) then [NewLine] else [])
      + Put(TagWithAttributes(if k.isHeader then "<ttcol" else "<c", AlignAttrs(k.align)))
  }

  /** htmlSpan */
  function HTMLSpanOut(opts: Options, literal: string): seq<Chunk> {
    if !HasFlag(opts.flags, SkipHTML) then Put(literal) else []
  }

  /** callout */
  function CalloutOut(id: string): seq<Chunk> {
    Put("<spanx style=\"emph\">") + Put(id) + Put("</spanx>")
  }

  /** crossReference */
  function CrossReferenceOut(dest: string, entering: bool): seq<Chunk> {
    if entering then Put(TagWithAttributes("<xref", [TargetAttr(dest)])) else Put("</xref>")
  }

  /** index */
  function IndexOut(lib: Library, item: string, primary: bool, subitem: string): seq<Chunk> {
    Put("<iref") + Put(" item=\"") + Put(lib.escapeHTML(item)) + Put("\"")
    + (if primary then Put(" primary=\"true\"") else [])
    + (if |subitem| != 0 then Put(" subitem=\"") + Put(lib.escapeHTML(subitem)) + Put("\"") else [])
    + Put("></iref>")
  }

  /** link: the same text on entering and on exiting */
  function LinkOut(lib: Library, dest: string): seq<Chunk> {
    Put("<eref") + Put(" target=\"") + Put(lib.escapeHTML(dest)) + Put("\"></iref>")
  }

  /** image, imageEnter, imageExit */
  function ImageOut(lib: Library, dest: string, title: Option<string>, entering: bool): seq<Chunk> {
    if entering then Put("<img src=\"") + Put(lib.escapeHTML(dest)) + Put("\" alt=\"")
    else (if title.Some? then Put("\" name=\"") + Put(lib.escapeHTML(title.value)) else []) + Put("\" />")
  }

  /** code */
  function CodeOut(lib: Library, literal: string): seq<Chunk> {
    Put("<spanx style=\"verb\">") + Put(lib.escapeHTML(literal)) + Put("</spanx>")
  }

  /** mathBlock */
  function MathBlockOut(lib: Library, opts: Options, literal: string): seq<Chunk> {
    Put("<artwork type=\"math\">\n") + Put(EscapeLiteral(lib, opts, literal)) + Put("</artwork>") + [NewLine]
  }

  /** Node types whose rendering changes more than the output, or may skip children */
  predicate Stateful(k: Kind) {
    k.Title? || k.DocumentMatter? || k.Heading? || k.CaptionFigure? || k.Table? || k.Image? || k.Unsupported?
  }

  /** Inline markup */
  predicate SpanKind(k: Kind) {
    k.Text? || k.Softbreak? || k.Hardbreak? || k.Emph? || k.Strong? || k.Del? || k.Math? || k.Code?
  }

  /** References, index terms and raw HTML spans */
  predicate ReferenceKind(k: Kind) {
    k.Callout? || k.Citation? || k.CrossReference? || k.Index? || k.Link? || k.HTMLSpan?
  }

  /** The parts of a table, and a figure caption */
  predicate TablePartKind(k: Kind) {
    k.Caption? || k.TableCell? || k.TableHeader? || k.TableBody? || k.TableRow? || k.TableFooter?
  }

  /** Every other node type that only writes */
  predicate BlockKind(k: Kind) {
    !Stateful(k) && !SpanKind(k) && !ReferenceKind(k) && !TablePartKind(k)
  }

  /** What RenderNode writes for every other node type */
  function NodeOut(lib: Library, opts: Options, n: Node, pl: Place, entering: bool): seq<Chunk>
    requires Known(n.kind) && !Stateful(n.kind)
  {
    match n.kind
    case Document => []
    case Bibliography(b) => lib.bibliography(b, entering)
    case BibliographyItem(b) => lib.bibliographyItem(b)
    case GeneratedIndex => []
    case Text(lit) => TextOut(lib, lit, ParentKind(pl))
    case Softbreak => [NewLine]
    case Hardbreak => HardBreakOut()
    case Callout(id) => CalloutOut(id)
    case Emph => OneOf(entering, "<spanx style=\"emph\">", "</spanx>")
    case Strong => StrongOut(lib, n, entering)
    case Del => OneOf(entering, "<del>", "</del>")
    case Citation(d, t) => if entering then CitationOut(d, t) else []
    case Paragraph(attrs) => if entering then ParagraphEnterOut(attrs, pl) else ParagraphExitOut(pl)
    case HTMLSpan(lit) => HTMLSpanOut(opts, lit)
    case HTMLBlock => []
    case List(_, _, _, _) => ListOut(lib, n.kind, pl, entering)
    case ListItem(_, _) => ListItemOut(n.kind, entering)
    case CodeBlock(_, _, _) => CodeBlockOut(lib, opts, n.kind, pl)
    case Caption => OneOf(entering, "", "")
    case TableCell(_, _) => TableCellOut(n.kind, pl, entering)
    case TableHeader => OneOf(entering, "", "")
    case TableBody => OneOfCr(entering, "", "")
    case TableRow => OneOf(entering, "", "")
    case TableFooter => OneOf(entering, "", "")
    case BlockQuote(attrs) => OneOfCr(entering, TagWithAttributes("<blockquote", attrs), "</blockquote>")
    case Aside(attrs) => OneOfCr(entering, TagWithAttributes("<aside", attrs), "</aside>")
    case CrossReference(d) => CrossReferenceOut(d, entering)
    case Index(item, primary, subitem) => if entering then IndexOut(lib, item, primary, subitem) else []
    case Link(d) => LinkOut(lib, d)
    case Math => OneOf(entering, "<spanx style=\"verb\">", "</spanx>")
    case Code(lit) => CodeOut(lib, lit)
    case MathBlock(lit) => MathBlockOut(lib, opts, lit)
  }

  // ---------------------------------------------------------------- structural transitions

  /** sectionClose: writes what the helper writes, then records `next` as the open section */
  function SectionClose(lib: Library, s: State, next: Option<Node>): State {
    s.(output := s.output + lib.sectionClose(s.section, next), section := next)
  }

  /** The region tags matter writes after closing the section */
  function MatterTags(m: Matter): seq<Chunk> {
    match m
    case Front => [NewLine, Piece("<front>"), NewLine]
    case Main => [NewLine, Piece("</front>"), NewLine, NewLine, Piece("<middle>"), NewLine]
    case Back => [NewLine, Piece("</middle>"), NewLine, NewLine, Piece("<back>"), NewLine]
    case NoMatter => []
  }

  /** matter (xml2/renderer.go:103-127) */
  function MatterStep(lib: Library, s: State, m: Matter): State {
    Emit(SectionClose(lib, s, None), MatterTags(m)).(documentMatter := m)
  }

  function AnchorAttr(id: string): string {
    "anchor=\"" + id + "\""
  }

  /** headingEnter (xml2/renderer.go:129-158) */
  function HeadingEnterStep(lib: Library, s: State, n: Node): State
    requires n.kind.Heading?
  {
    var h := n.kind;
    var s1 := Emit(s, [NewLine]);
    if h.isSpecial && lib.isAbstract(h.literal) then Emit(s1, Put("<abstract>"))
    else
      var tag := if h.isSpecial then "<note" else "<section";
      if h.headingID != "" then
        var unique := lib.uniqueHeadingID(s1.headingIDs, h.headingID);
        var attrs := [AnchorAttr(unique.0)];
        Emit(s1.(headingIDs := unique.1), Put(tag) + Put(" " + Join(attrs, " ") + " title=\""))
      else
        Emit(s1, Put(tag) + Put(" title=\""))
  }

  /** heading (xml2/renderer.go:160-173) */
  function HeadingStep(lib: Library, s: State, n: Node, entering: bool): State
    requires n.kind.Heading?
  {
    if !entering then Emit(s, [NewLine])
    else HeadingEnterStep(lib, SectionClose(lib, s, Some(n)), n)
  }

  /** The closing tag RenderFooter writes for the open region, then </rfc> after a title */
  function FooterTail(m: Matter, title: bool): seq<Chunk> {
    (match m
     case Front => Put("\n</front>\n")
     case Main => Put("\n</middle>\n")
     case Back => Put("\n</back>\n")
     case NoMatter => [])
    + (if title then Put("\n</rfc>") else [])
  }

  /** RenderFooter (xml2/renderer.go:643-658) */
  function FooterStep(lib: Library, s: State): State {
    var s1 := SectionClose(lib, s, None);
    Emit(s1, FooterTail(s1.documentMatter, s1.title))
  }

  const XMLDeclaration: string := "<?xml version=\"1.0\" encoding=\"utf-8\"?>"
  const GeneratorComment: string :=
    "<!-- name=\"GENERATOR\" content=\"github.com/mmarkdown/mmark markdown processor for Go\" -->"
  const Doctype: string := "<!DOCTYPE rfc SYSTEM 'rfc2629.dtd' []>"

  /** writeDocumentHeader */
  function DocumentHeaderOut(opts: Options): seq<Chunk> {
    if HasFlag(opts.flags, XMLFragment) then []
    else Put(XMLDeclaration) + [NewLine] + Put(GeneratorComment) + [NewLine] + Put(Doctype) + [NewLine]
  }

  /** RenderHeader */
  function HeaderOut(opts: Options): seq<Chunk> {
    if HasFlag(opts.flags, XMLFragment) then [] else DocumentHeaderOut(opts)
  }

  // ---------------------------------------------------------------- dispatcher and walk

  /** The node whose size bounds the recursion at `pl`: the parent, or the root itself */
  function Scope(n: Node, pl: Place): Node {
    if pl.Root? then n else pl.parent
  }

  function VisitRank(n: Node): nat {
    if n.kind.Caption? then 1 else 6
  }

  function WalkRank(n: Node, pl: Place): nat {
    if pl.Root? then 9 else if n.kind.Caption? then 2 else 7
  }

  function HasTableChild(n: Node): bool {
    exists i | 0 <= i < |n.children| :: n.children[i].kind.Table?
  }

  /** RenderNode (xml2/renderer.go:532-631): the hook first, then the switch */
  function Visit(lib: Library, opts: Options, s: State, n: Node, pl: Place, entering: bool): (r: (State, WalkStatus))
    requires At(n, pl) && Renders(opts, n, entering)
    requires !Handled(opts, n, entering) ==> CaptionsReady(opts, n, pl, entering)
    ensures entering ==> (r.1 == GoToNext <==> !SkipsChildren(opts, n))
    decreases Scope(n, pl), VisitRank(n), 0
  {
    if Handled(opts, n, entering) then (s, opts.hook.value(n, entering).status)
    else Dispatch(lib, opts, s, n, pl, entering)
  }

  /** The switch of RenderNode */
  function Dispatch(lib: Library, opts: Options, s: State, n: Node, pl: Place, entering: bool): (r: (State, WalkStatus))
    requires At(n, pl) && Known(n.kind) && CaptionsReady(opts, n, pl, entering)
    ensures r.1 != Terminate
    ensures r.1 == SkipChildren <==> n.kind.Image? && HasFlag(opts.flags, SkipImages)
    decreases Scope(n, pl), VisitRank(n) - 1, 0
  {
    var k := n.kind;
    if k.Title? then (Emit(s, lib.titleBlock(k.block)).(title := true), GoToNext)
    else if k.DocumentMatter? then (if entering then MatterStep(lib, s, k.matter) else s, GoToNext)
    else if k.Heading? then (HeadingStep(lib, s, n, entering), GoToNext)
    else if k.CaptionFigure? then (CaptionFigureStep(lib, opts, s, n, pl, entering), GoToNext)
    else if k.Table? then (TableStep(lib, opts, s, n, pl, entering), GoToNext)
    else if k.Image? then
      if HasFlag(opts.flags, SkipImages) then (s, SkipChildren)
      else (Emit(s, ImageOut(lib, k.destination, k.title, entering)), GoToNext)
    else (Emit(s, NodeOut(lib, opts, n, pl, entering)), GoToNext)
  }

  /** The switch sends every node type that only writes to NodeOut */
  lemma DispatchContent(lib: Library, opts: Options, s: State, n: Node, pl: Place, entering: bool)
    requires At(n, pl) && Known(n.kind) && !Stateful(n.kind)
    ensures Dispatch(lib, opts, s, n, pl, entering) == (Emit(s, NodeOut(lib, opts, n, pl, entering)), GoToNext)
  {
  }

  /** captionFigure (xml2/renderer.go:464-492) */
  function CaptionFigureStep(lib: Library, opts: Options, s: State, n: Node, pl: Place, entering: bool): State
    requires At(n, pl) && n.kind.CaptionFigure? && CaptionsReady(opts, n, pl, entering)
    decreases Scope(n, pl), 4, 0
  {
    if HasTableChild(n) then s
    else if !entering then Emit(s, Put("</figure>"))
    else RenderCaptions(lib, opts, Emit(s, Put("<figure") + Put(" title=\"")), n, PathOf(pl), 0)
  }

  /** The loop of captionFigure from child `j` on: walk every caption still in the tree, then remove it */
  function RenderCaptions(lib: Library, opts: Options, s: State, cf: Node, path: seq<nat>, j: nat): State
    requires j <= |cf.children| && SupportedChildren(opts, cf)
    decreases cf, 3, |cf.children| - j
  {
    if j == |cf.children| then s
    else if !cf.children[j].kind.Caption? || path + [j] in s.consumed then
      RenderCaptions(lib, opts, s, cf, path, j + 1)
    else RenderCaptions(lib, opts, WalkCaption(lib, opts, s, cf, path, j), cf, path, j + 1)
  }

  /** ast.WalkFunc on the caption at child `j` of the figure, then ast.RemoveFromTree */
  function WalkCaption(lib: Library, opts: Options, s: State, cf: Node, path: seq<nat>, j: nat): State
    requires j < |cf.children| && cf.children[j].kind.Caption? && SupportedChildren(opts, cf)
    decreases cf, 3, 0
  {
    var s1 := Walk(lib, opts, s, cf.children[j], Child(cf, j, path)).0;
    s1.(consumed := s1.consumed + {path + [j]})
  }

  /** table (xml2/renderer.go:494-529) */
  function TableStep(lib: Library, opts: Options, s: State, n: Node, pl: Place, entering: bool): State
    requires At(n, pl) && n.kind.Table? && CaptionsReady(opts, n, pl, entering)
    decreases Scope(n, pl), 4, 0
  {
    if !entering then Emit(s, Put("</texttable>"))
    else
      var attr := if |n.kind.attrs| > 0 then " " + Join(n.kind.attrs, " ") else "";
      var s1 := Emit(s, Put("<texttable") + Put(attr));
      if !InCaptionFigure(pl) then Emit(s1, Put(">"))
      else RenderFirstCaption(lib, opts, Emit(s1, Put(" title=\"")), pl.parent, pl.parentPath, 0)
  }

  /** The loop of table from child `j` of the enclosing figure on: walk and remove the first caption */
  function RenderFirstCaption(lib: Library, opts: Options, s: State, cf: Node, path: seq<nat>, j: nat): State
    requires j <= |cf.children| && SupportedChildren(opts, cf)
    decreases cf, 3, |cf.children| - j
  {
    if j == |cf.children| then s
    else if !cf.children[j].kind.Caption? || path + [j] in s.consumed then
      RenderFirstCaption(lib, opts, s, cf, path, j + 1)
    else WalkCaption(lib, opts, s, cf, path, j)
  }

  /** The depth-first walk of ast.Walk: a container is visited entering and exiting, a leaf
      once; children removed from the tree (consumed) are not visited */
  function Walk(lib: Library, opts: Options, s: State, n: Node, pl: Place): (State, WalkStatus)
    requires At(n, pl) && Supported(opts, n)
    requires !Handled(opts, n, true) ==> CaptionsReady(opts, n, pl, true)
    decreases Scope(n, pl), WalkRank(n, pl), 0
  {
    var entered := Visit(lib, opts, s, n, pl, true);
    if entered.1 == Terminate then
      (if n.container then Visit(lib, opts, entered.0, n, pl, false).0 else entered.0, Terminate)
    else
      var inside :=
        if n.container && entered.1 != SkipChildren then WalkChildren(lib, opts, entered.0, n, PathOf(pl), 0)
        else (entered.0, GoToNext);
      if inside.1 == Terminate then inside
      else if !n.container then (inside.0, GoToNext)
      else
        var exited := Visit(lib, opts, inside.0, n, pl, false);
        (exited.0, if exited.1 == Terminate then Terminate else GoToNext)
  }

  /** The walk over the children of `n` (whose path is `path`) from child `i` on */
  function WalkChildren(lib: Library, opts: Options, s: State, n: Node, path: seq<nat>, i: nat): (State, WalkStatus)
    requires i <= |n.children| && SupportedChildren(opts, n)
    decreases n, 8, |n.children| - i
  {
    if i == |n.children| then (s, GoToNext)
    else if path + [i] in s.consumed then WalkChildren(lib, opts, s, n, path, i + 1)
    else
      var r := Walk(lib, opts, s, n.children[i], Child(n, i, path));
      if r.1 == Terminate then r else WalkChildren(lib, opts, r.0, n, path, i + 1)
  }

  /** One rendering of a document: header, the walk from the root, footer */
  function Render(lib: Library, opts: Options, doc: Node): State
    requires Supported(opts, doc)
  {
    var walked := Walk(lib, opts, Emit(Initial(), HeaderOut(opts)), doc, Root).0;
    FooterStep(lib, walked)
  }
}
