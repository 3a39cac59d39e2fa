/** The Renderer of xml2/renderer.go as a class whose methods write to the output and
    update the fields step by step, as the Go methods do. Every method is proved to
    leave the renderer in the state the matching function of module Xml2 describes. */
module Xml2Renderer {
  import opened Ast
  import opened Markup
  import opened Xml2

  class Renderer {
    const lib: Library
    const opts: Options

    var documentMatter: Matter
    var section: Option<Node>
    var title: bool
    var headingIDs: map<string, int>
    /** the writer */
    var output: seq<Chunk>
    /** paths of the captions removed from the tree (ast.RemoveFromTree) */
    var consumed: set<seq<nat>>

    function Abs(): State
      reads this
    {
      State(documentMatter, section, title, headingIDs, output, consumed)
    }

    /** NewRenderer (xml2/renderer.go:57-60) */
    constructor (lib: Library, opts: Options)
      ensures this.lib == lib && this.opts == opts
      ensures Abs() == Initial()
    {
      this.lib := lib;
      this.opts := opts;
      documentMatter := NoMatter;
      section := None;
      title := false;
      headingIDs := map[];
      output := [];
      consumed := {};
    }

    // ------------------------------------------------------------ writer helpers

    /** outs and out */
    method Outs(s: string)
      modifies this`output
      ensures output == old(output) + Put(s)
    {
      if s != "" {
        output := output + [Piece(s)];
      }
    }

    /** cr */
    method Cr()
      modifies this`output
      ensures output == old(output) + [NewLine]
    {
      output := output + [NewLine];
    }

    /** What a helper outside this file writes */
    method Write(cs: seq<Chunk>)
      modifies this`output
      ensures output == old(output) + cs
    {
      output := output + cs;
    }

    method OutOneOf(first: bool, a: string, b: string)
      modifies this`output
      ensures output == old(output) + OneOf(first, a, b)
    {
      if first {
        Outs(a);
      } else {
        Outs(b);
      }
    }

    method OutOneOfCr(first: bool, a: string, b: string)
      modifies this`output
      ensures output == old(output) + OneOfCr(first, a, b)
    {
      if first {
        Cr();
        Outs(a);
      } else {
        Outs(b);
        Cr();
      }
    }

    method OutTag(name: string, attrs: seq<string>)
      modifies this`output
      ensures output == old(output) + Put(TagWithAttributes(name, attrs))
    {
      Outs(TagWithAttributes(name, attrs));
    }

    /** Writes the text with the HTML special characters escaped */
    method EscapeHTML(text: string)
      modifies this`output
      ensures output == old(output) + Put(lib.escapeHTML(text))
    {
      Outs(lib.escapeHTML(text));
    }

    /** the escaping of code and math literals */
    method EscapeLiteral(text: string)
      modifies this`output
      ensures output == old(output) + Put(Xml2.EscapeLiteral(lib, opts, text))
    {
      if opts.comments.Some? {
        // the callout-aware escaper
        Outs(lib.escapeCallouts(opts.comments.value, opts.callout, text));
      } else {
        EscapeHTML(text);
      }
    }

    method SectionClose(next: Option<Node>)
      modifies this`output, this`section
      ensures output == old(output) + lib.sectionClose(old(section), next)
      ensures section == next
    {
      Write(lib.sectionClose(section, next));
      section := next;
    }

    method EnsureUniqueHeadingID(id: string) returns (unique: string)
      modifies this`headingIDs
      ensures unique == lib.uniqueHeadingID(old(headingIDs), id).0
      ensures headingIDs == lib.uniqueHeadingID(old(headingIDs), id).1
    {
      var r := lib.uniqueHeadingID(headingIDs, id);
      unique := r.0;
      headingIDs := r.1;
    }

    // ------------------------------------------------------------ emitters

    method RenderText(literal: string, pl: Place)
      modifies this`output
      ensures output == old(output) + TextOut(lib, literal, ParentKind(pl))
    {
      var parent := ParentKind(pl);
      if parent.Some? && parent.value.Link? {
        Outs(literal);
        return;
      }
      if parent.Some? && parent.value.Heading? {
        if parent.value.isSpecial && lib.isAbstract(parent.value.literal) {
          return;
        }
        EscapeHTML(literal);
        Outs("\">");
        return;
      }
      EscapeHTML(literal);
      if parent == Some(Caption) {
        Outs("\">");
      }
    }

    method RenderHardBreak()
      modifies this`output
      ensures output == old(output) + HardBreakOut()
    {
      Outs("<vspace />");
      Cr();
    }

    method RenderStrong(n: Node, entering: bool)
      modifies this`output
      ensures output == old(output) + StrongOut(lib, n, entering)
    {
      if |n.children| > 0 {
        var first := n.children[0];
        if first.kind.Text? && lib.is2119(first.kind.literal) {
          OutOneOf(entering, "", "");
          return;
        }
      }
      OutOneOf(entering, "<spanx style=\"strong\">", "</spanx>");
    }

    method RenderMatter(m: Matter)
      modifies this
      ensures Abs() == MatterStep(lib, old(Abs()), m)
    {
      SectionClose(None);
      WriteMatterTags(m);
      documentMatter := m;
    }

    /** The switch of matter that opens the new region */
    method WriteMatterTags(m: Matter)
      modifies this`output
      ensures output == old(output) + MatterTags(m)
    {
      match m {
        case Front =>
          Cr();
          Outs("<front>");
          Cr();
        case Main =>
          Cr();
          Outs("</front>");
          Cr();
          Cr();
          Outs("<middle>");
          Cr();
        case Back =>
          Cr();
          Outs("</middle>");
          Cr();
          Cr();
          Outs("<back>");
          Cr();
        case NoMatter =>
          assert output == old(output) + [];
      }
    }

    method HeadingEnter(n: Node)
      requires n.kind.Heading?
      modifies this
      ensures Abs() == HeadingEnterStep(lib, old(Abs()), n)
    {
      Cr();
      var tag := "<section";
      if n.kind.isSpecial {
        tag := "<note";
        if lib.isAbstract(n.kind.literal) {
          tag := "<abstract>";
          Outs(tag);
          return;
        }
      }
      var attrs: seq<string> := [];
      if n.kind.headingID != "" {
        var id := EnsureUniqueHeadingID(n.kind.headingID);
        var attrID := "anchor=\"" + id + "\"";
        attrs := attrs + [attrID];
        assert attrs == [AnchorAttr(id)];
      }
      var attr := "";
      if |attrs| > 0 {
        attr := attr + " " + Join(attrs, " ");
        assert attr == " " + Join(attrs, " ");
      } else {
        assert attr + " title=\"" == " title=\"";
      }
      ghost var s1 := output;
      Outs(tag);
      Outs(attr + " title=\"");
      AppendAssoc(s1, Put(tag), Put(attr + " title=\""));
    }

    method HeadingExit()
      modifies this`output
      ensures output == old(output) + [NewLine]
    {
      Cr();
    }

    method RenderHeading(n: Node, entering: bool)
      requires n.kind.Heading?
      modifies this
      ensures Abs() == HeadingStep(lib, old(Abs()), n, entering)
    {
      if !entering {
        HeadingExit();
        return;
      }
      SectionClose(Some(n));
      HeadingEnter(n);
    }

    method RenderCitation(dests: seq<string>, types: seq<CitationType>, entering: bool)
      requires |dests| <= |types|
      modifies this`output
      ensures output == old(output) + if entering then CitationOut(dests, types) else []
    {
      if !entering {
        return;
      }
      var i := 0;
      while i < |dests|
        invariant 0 <= i <= |dests|
        invariant output == old(output) + CitationOut(dests[..i], types)
      {
        ghost var before := output;
        if types[i] != Suppressed {
          var attr := [TargetAttr(dests[i])];
          OutTag("<xref", attr);
          Outs("</xref>");
          AppendAssoc(before, Put(TagWithAttributes("<xref", attr)), Put("</xref>"));
        }
        assert output == before + CitationRef(dests[i], types[i]);
        AppendAssoc(old(output), CitationOut(dests[..i], types), CitationRef(dests[i], types[i]));
        assert dests[..i + 1][..i] == dests[..i];
        assert CitationOut(dests[..i + 1], types) == CitationOut(dests[..i], types) + CitationRef(dests[i], types[i]);
        i := i + 1;
      }
      assert dests[..i] == dests;
    }

    method ParagraphEnter(attrs: seq<string>, pl: Place)
      modifies this`output
      ensures output == old(output) + ParagraphEnterOut(attrs, pl)
    {
      if InListItem(pl) {
        if |pl.parent.children| > 1 && pl.index != 0 {
          RenderHardBreak();
        }
        return;
      }
      var tag := TagWithAttributes("<t", attrs);
      Outs(tag);
    }

    method ParagraphExit(pl: Place)
      modifies this`output
      ensures output == old(output) + ParagraphExitOut(pl)
    {
      if InListItem(pl) {
        return;
      }
      Outs("</t>");
      Cr();
    }

    method RenderParagraph(attrs: seq<string>, pl: Place, entering: bool)
      modifies this`output
      ensures output == old(output) + if entering then ParagraphEnterOut(attrs, pl) else ParagraphExitOut(pl)
    {
      if entering {
        ParagraphEnter(attrs, pl);
      } else {
        ParagraphExit(pl);
      }
    }

    method ListEnter(k: Kind)
      requires k.List?
      modifies this`output
      ensures output == old(output) + ListEnterOut(lib, k)
    {
      var attrs: seq<string> := [];
      if k.isFootnotes {
        Outs(FootnotesOpen);
        Cr();
      }
      ghost var footnotes := if k.isFootnotes then Put(FootnotesOpen) + [NewLine] else [];
      assert output == old(output) + footnotes;
      Cr();
      AppendAssoc(old(output), footnotes, [NewLine]);
      ghost var opening := footnotes + [NewLine];
      var openTag := "<list";
      var style := "style=\"symbols\"";
      if k.flags.ordered {
        style := "style=\"numbers\"";
        if k.start > 0 {
          attrs := attrs + ["start=\"" + DecimalString(k.start) + "\""];
        }
      }
      if k.flags.definition {
        style := "style=\"hanging\"";
      }
      attrs := attrs + k.attrs;
      assert attrs == StartAttrs(k.flags, k.start) + k.attrs;
      assert style == DefaultListStyle(k.flags);
      if !lib.attributesContains("style", attrs) {
        attrs := attrs + [style];
      }
      assert attrs == ListAttrs(lib, k.flags, k.start, k.attrs);
      OutTag(openTag, attrs);
      AppendAssoc(old(output), opening, Put(TagWithAttributes(openTag, attrs)));
      Cr();
      AppendAssoc(old(output), opening + Put(TagWithAttributes(openTag, attrs)), [NewLine]);
    }

    method ListExit(k: Kind, pl: Place)
      requires k.List?
      modifies this`output
      ensures output == old(output) + ListExitOut(k, pl)
    {
      Outs("</list>");
      if pl.Child? {
        match pl.parent.kind {
          case ListItem(_, _) =>
            if HasNext(pl) {
              Cr();
            }
          case Document => Cr();
          case BlockQuote(_) => Cr();
          case Aside(_) => Cr();
          case _ =>
        }
      }
      if k.isFootnotes {
        Outs(FootnotesClose);
      }
    }

    method RenderList(k: Kind, pl: Place, entering: bool)
      requires k.List?
      modifies this`output
      ensures output == old(output) + ListOut(lib, k, pl, entering)
    {
      var parentIsList := InListItem(pl);
      if entering {
        if !parentIsList {
          ParagraphEnter([], Root);
        }
        ListEnter(k);
        AppendAssoc(old(output), if parentIsList then [] else ParagraphEnterOut([], Root), ListEnterOut(lib, k));
      } else {
        ListExit(k, pl);
        if !parentIsList {
          ParagraphExit(Root);
        }
        AppendAssoc(old(output), ListExitOut(k, pl), if parentIsList then [] else ParagraphExitOut(Root));
      }
    }

    method ListItemEnter(k: Kind)
      requires k.ListItem?
      modifies this`output
      ensures output == old(output) + ListItemOut(k, true)
    {
      if k.hasRefLink {
        return;
      }
      var openTag := "<t>";
      if k.flags.definition {
        openTag := "<vspace />";
      }
      if k.flags.term {
        openTag := "<t hangText=\"";
      }
      Outs(openTag);
    }

    method ListItemExit(k: Kind)
      requires k.ListItem?
      modifies this`output
      ensures output == old(output) + ListItemOut(k, false)
    {
      var closeTag := "</t>";
      if k.flags.term {
        closeTag := "\">";
      }
      Outs(closeTag);
      Cr();
    }

    method RenderListItem(k: Kind, entering: bool)
      requires k.ListItem?
      modifies this`output
      ensures output == old(output) + ListItemOut(k, entering)
    {
      if entering {
        ListItemEnter(k);
      } else {
        ListItemExit(k);
      }
    }

    method RenderCodeBlock(k: Kind, pl: Place)
      requires k.CodeBlock?
      modifies this`output
      ensures output == old(output) + CodeBlockOut(lib, opts, k, pl)
    {
      var attrs: seq<string> := [];
      attrs := lib.appendLanguageAttr(attrs, k.info);
      attrs := attrs + k.attrs;
      var inFigure := InCaptionFigure(pl);
      ghost var openTag := TagWithAttributes(if inFigure then "<artwork" else "<figure><artwork", attrs);
      ghost var closeTag := if inFigure then "</artwork>" else "</artwork></figure>";
      Cr();
      if inFigure {
        OutTag("<artwork", attrs);
      } else {
        OutTag("<figure><artwork", attrs);
      }
      AppendAssoc(old(output), [NewLine], Put(openTag));
      ghost var written := [NewLine] + Put(openTag);
      EscapeLiteral(k.literal);
      AppendAssoc(old(output), written, Put(Xml2.EscapeLiteral(lib, opts, k.literal)));
      written := written + Put(Xml2.EscapeLiteral(lib, opts, k.literal));
      if inFigure {
        Outs("</artwork>");
      } else {
        Outs("</artwork></figure>");
      }
      AppendAssoc(old(output), written, Put(closeTag));
      written := written + Put(closeTag);
      Cr();
      AppendAssoc(old(output), written, [NewLine]);
    }

    method RenderTableCell(k: Kind, pl: Place, entering: bool)
      requires k.TableCell?
      modifies this`output
      ensures output == old(output) + TableCellOut(k, pl, entering)
    {
      if !entering {
        OutOneOf(k.isHeader, "</ttcol>", "</c>");
        Cr();
        return;
      }
      var attrs: seq<string> := [];
      var openTag := "<c";
      if k.isHeader {
        openTag := "<ttcol";
      }
      if k.align != "" {
        attrs := attrs + ["align=\"" + k.align + "\""];
      }
      assert attrs == AlignAttrs(k.align);
      if IsFirst(pl) {
        Cr();
      }
      OutTag(openTag, attrs);
      AppendAssoc(old(output), if IsFirst(pl) then [NewLine] else [], Put(TagWithAttributes(openTag, attrs)));
    }

    method RenderHTMLSpan(literal: string)
      modifies this`output
      ensures output == old(output) + HTMLSpanOut(opts, literal)
    {
      if opts.flags & SkipHTML == 0 {
        Outs(literal);
      }
    }

    method RenderCallout(id: string)
      modifies this`output
      ensures output == old(output) + CalloutOut(id)
    {
      Outs("<spanx style=\"emph\">");
      Outs(id);
      Outs("</spanx>");
    }

    method RenderCrossReference(dest: string, entering: bool)
      modifies this`output
      ensures output == old(output) + CrossReferenceOut(dest, entering)
    {
      if entering {
        OutTag("<xref", ["target=\"" + dest + "\""]);
        return;
      }
      Outs("</xref>");
    }

    method RenderIndex(item: string, primary: bool, subitem: string)
      modifies this`output
      ensures output == old(output) + IndexOut(lib, item, primary, subitem)
    {
      Outs("<iref");
      Outs(" item=\"");
      AppendAssoc(old(output), Put("<iref"), Put(" item=\""));
      ghost var written := Put("<iref") + Put(" item=\"");
      EscapeHTML(item);
      AppendAssoc(old(output), written, Put(lib.escapeHTML(item)));
      written := written + Put(lib.escapeHTML(item));
      Outs("\"");
      AppendAssoc(old(output), written, Put("\""));
      written := written + Put("\"");
      if primary {
        Outs(" primary=\"true\"");
      }
      ghost var primaryOut := if primary then Put(" primary=\"true\"") else [];
      AppendAssoc(old(output), written, primaryOut);
      written := written + primaryOut;
      ghost var subitemOut := if |subitem| != 0 then Put(" subitem=\"") + Put(lib.escapeHTML(subitem)) + Put("\"") else [];
      ghost var before := output;
      if |subitem| != 0 {
        Outs(" subitem=\"");
        EscapeHTML(subitem);
        AppendAssoc(before, Put(" subitem=\""), Put(lib.escapeHTML(subitem)));
        Outs("\"");
        AppendAssoc(before, Put(" subitem=\"") + Put(lib.escapeHTML(subitem)), Put("\""));
      } else {
        assert output == before + subitemOut;
      }
      AppendAssoc(old(output), written, subitemOut);
      written := written + subitemOut;
      Outs("></iref>");
      AppendAssoc(old(output), written, Put("></iref>"));
    }

    /** `entering` is not read: the same text is written on both visits */
    method RenderLink(dest: string, entering: bool)
      modifies this`output
      ensures output == old(output) + LinkOut(lib, dest)
    {
      Outs("<eref");
      Outs(" target=\"");
      EscapeHTML(dest);
      Outs("\"></iref>");
    }

    method ImageEnter(dest: string)
      modifies this`output
      ensures output == old(output) + ImageOut(lib, dest, None, true)
    {
      Outs("<img src=\"");
      EscapeHTML(dest);
      Outs("\" alt=\"");
    }

    method ImageExit(title: Option<string>)
      modifies this`output
      ensures output == old(output) + ImageOut(lib, "", title, false)
    {
      if title.Some? {
        Outs("\" name=\"");
        EscapeHTML(title.value);
      }
      Outs("\" />");
    }

    method RenderImage(dest: string, title: Option<string>, entering: bool)
      modifies this`output
      ensures output == old(output) + ImageOut(lib, dest, title, entering)
    {
      if entering {
        ImageEnter(dest);
      } else {
        ImageExit(title);
      }
    }

    method RenderCode(literal: string)
      modifies this`output
      ensures output == old(output) + CodeOut(lib, literal)
    {
      Outs("<spanx style=\"verb\">");
      EscapeHTML(literal);
      Outs("</spanx>");
    }

    method RenderMathBlock(literal: string)
      modifies this`output
      ensures output == old(output) + MathBlockOut(lib, opts, literal)
    {
      Outs("<artwork type=\"math\">\n");
      EscapeLiteral(literal);
      Outs("</artwork>");
      Cr();
    }

    // ------------------------------------------------------------ caption rewrites, dispatch, walk

    /** The first loop of captionFigure: does the figure hold a table? */
    method ContainsTable(n: Node) returns (found: bool)
      ensures found <==> exists i | 0 <= i < |n.children| :: n.children[i].kind.Table?
    {
      var i := 0;
      while i < |n.children|
        invariant 0 <= i <= |n.children|
        invariant forall k | 0 <= k < i :: !n.children[k].kind.Table?
      {
        if n.children[i].kind.Table? {
          return true;
        }
        i := i + 1;
      }
      return false;
    }

    method RenderCaptionFigure(n: Node, pl: Place, entering: bool)
      requires At(n, pl) && n.kind.CaptionFigure? && CaptionsReady(opts, n, pl, entering)
      modifies this
      ensures Abs() == CaptionFigureStep(lib, opts, old(Abs()), n, pl, entering)
      decreases Scope(n, pl), 4, 0
    {
      var hasTable := ContainsTable(n);
      if hasTable {
        return;
      }
      if !entering {
        Outs("</figure>");
        return;
      }
      Outs("<figure");
      Outs(" title=\"");
      AppendAssoc(old(output), Put("<figure"), Put(" title=\""));
      var path := PathOf(pl);
      ghost var start := Abs();
      var j := 0;
      while j < |n.children|
        invariant 0 <= j <= |n.children|
        invariant RenderCaptions(lib, opts, start, n, path, 0) == RenderCaptions(lib, opts, Abs(), n, path, j)
      {
        var child := n.children[j];
        if child.kind.Caption? && path + [j] !in consumed {
          RenderCaption(n, path, j);
        }
        j := j + 1;
      }
    }

    /** Walks the caption child `j` of the figure, rendering every node, then removes it from the tree */
    method RenderCaption(cf: Node, path: seq<nat>, j: nat)
      requires j < |cf.children| && cf.children[j].kind.Caption? && SupportedChildren(opts, cf)
      modifies this
      ensures Abs() == WalkCaption(lib, opts, old(Abs()), cf, path, j)
      decreases cf, 3, 0
    {
      var _ := Walk(cf.children[j], Child(cf, j, path));
      consumed := consumed + {path + [j]};
    }

    method RenderTable(n: Node, pl: Place, entering: bool)
      requires At(n, pl) && n.kind.Table? && CaptionsReady(opts, n, pl, entering)
      modifies this
      ensures Abs() == TableStep(lib, opts, old(Abs()), n, pl, entering)
      decreases Scope(n, pl), 4, 0
    {
      if !entering {
        Outs("</texttable>");
        return;
      }
      var attrs := n.kind.attrs;
      var s := "";
      if |attrs| > 0 {
        s := s + " " + Join(attrs, " ");
        assert s == " " + Join(attrs, " ");
      }
      Outs("<texttable");
      Outs(s);
      AppendAssoc(old(output), Put("<texttable"), Put(s));
      if !InCaptionFigure(pl) {
        Outs(">");
        return;
      }
      Outs(" title=\"");
      var captionFigure := pl.parent;
      var path := pl.parentPath;
      ghost var start := Abs();
      var j := 0;
      while j < |captionFigure.children|
        invariant 0 <= j <= |captionFigure.children|
        invariant RenderFirstCaption(lib, opts, start, captionFigure, path, 0)
               == RenderFirstCaption(lib, opts, Abs(), captionFigure, path, j)
      {
        var child := captionFigure.children[j];
        if child.kind.Caption? && path + [j] !in consumed {
          RenderCaption(captionFigure, path, j);
          return;
        }
        j := j + 1;
      }
    }

    /** The cases of RenderNode's switch that only write */
    method RenderContent(n: Node, pl: Place, entering: bool)
      requires Known(n.kind) && !Stateful(n.kind)
      modifies this`output
      ensures output == old(output) + NodeOut(lib, opts, n, pl, entering)
    {
      if SpanKind(n.kind) {
        RenderSpan(n, pl, entering);
      } else if ReferenceKind(n.kind) {
        RenderReference(n, pl, entering);
      } else if TablePartKind(n.kind) {
        RenderTablePart(n, pl, entering);
      } else {
        RenderBlock(n, pl, entering);
      }
    }

    /** Inline markup that only writes */
    method RenderSpan(n: Node, pl: Place, entering: bool)
      requires Known(n.kind) && SpanKind(n.kind)
      modifies this`output
      ensures output == old(output) + NodeOut(lib, opts, n, pl, entering)
    {
      match n.kind {
        case Text(lit) => RenderText(lit, pl);
        case Softbreak => Cr();
        case Hardbreak => RenderHardBreak();
        case Emph => OutOneOf(entering, "<spanx style=\"emph\">", "</spanx>");
        case Strong => RenderStrong(n, entering);
        case Del => OutOneOf(entering, "<del>", "</del>");
        case Math => OutOneOf(entering, "<spanx style=\"verb\">", "</spanx>");
        case Code(lit) => RenderCode(lit);
      }
    }

    /** References, index terms and raw HTML spans */
    method RenderReference(n: Node, pl: Place, entering: bool)
      requires Known(n.kind) && ReferenceKind(n.kind)
      modifies this`output
      ensures output == old(output) + NodeOut(lib, opts, n, pl, entering)
    {
      match n.kind {
        case Callout(id) => RenderCallout(id);
        case Citation(d, t) => RenderCitation(d, t, entering);
        case CrossReference(d) => RenderCrossReference(d, entering);
        case Index(item, primary, subitem) =>
          if entering {
            RenderIndex(item, primary, subitem);
          } else {
            assert output == old(output) + [];
          }
        case Link(d) => RenderLink(d, entering);
        case HTMLSpan(lit) => RenderHTMLSpan(lit);
      }
    }

    /** The parts of a table and a figure caption */
    method RenderTablePart(n: Node, pl: Place, entering: bool)
      requires Known(n.kind) && TablePartKind(n.kind)
      modifies this`output
      ensures output == old(output) + NodeOut(lib, opts, n, pl, entering)
    {
      match n.kind {
        case Caption => OutOneOf(entering, "", "");
        case TableCell(_, _) => RenderTableCell(n.kind, pl, entering);
        case TableHeader => OutOneOf(entering, "", "");
        case TableBody => OutOneOfCr(entering, "", "");
        case TableRow => OutOneOf(entering, "", "");
        case TableFooter => OutOneOf(entering, "", "");
      }
    }

    /** Other block node types that only write */
    method RenderBlock(n: Node, pl: Place, entering: bool)
      requires Known(n.kind) && BlockKind(n.kind)
      modifies this`output
      ensures output == old(output) + NodeOut(lib, opts, n, pl, entering)
    {
      match n.kind {
        case Document =>
          assert output == old(output) + [];
        case Bibliography(b) => Write(lib.bibliography(b, entering));
        case BibliographyItem(b) => Write(lib.bibliographyItem(b));
        case GeneratedIndex =>
          assert output == old(output) + [];
        case Paragraph(attrs) => RenderParagraph(attrs, pl, entering);
        case HTMLBlock =>
          assert output == old(output) + [];
        case List(_, _, _, _) => RenderList(n.kind, pl, entering);
        case ListItem(_, _) => RenderListItem(n.kind, entering);
        case CodeBlock(_, _, _) => RenderCodeBlock(n.kind, pl);
        case BlockQuote(attrs) =>
          var tag := TagWithAttributes("<blockquote", attrs);
          OutOneOfCr(entering, tag, "</blockquote>");
        case Aside(attrs) =>
          var tag := TagWithAttributes("<aside", attrs);
          OutOneOfCr(entering, tag, "</aside>");
        case MathBlock(lit) => RenderMathBlock(lit);
      }
    }

    method RenderNode(n: Node, pl: Place, entering: bool) returns (status: WalkStatus)
      requires At(n, pl) && Renders(opts, n, entering)
      requires !Handled(opts, n, entering) ==> CaptionsReady(opts, n, pl, entering)
      modifies this
      ensures (Abs(), status) == Visit(lib, opts, old(Abs()), n, pl, entering)
      decreases Scope(n, pl), VisitRank(n), 0
    {
      if opts.hook.Some? {
        var answer := opts.hook.value(n, entering);
        if answer.handled {
          return answer.status;
        }
      }
      status := RenderSwitch(n, pl, entering);
    }

    /** The switch of RenderNode */
    method RenderSwitch(n: Node, pl: Place, entering: bool) returns (status: WalkStatus)
      requires At(n, pl) && Known(n.kind) && CaptionsReady(opts, n, pl, entering)
      modifies this
      ensures (Abs(), status) == Dispatch(lib, opts, old(Abs()), n, pl, entering)
      decreases Scope(n, pl), VisitRank(n) - 1, 0
    {
      status := GoToNext;
      if n.kind.Title? {
        Write(lib.titleBlock(n.kind.block));
        title := true;
      } else if n.kind.DocumentMatter? {
        if entering {
          RenderMatter(n.kind.matter);
        }
      } else if n.kind.Heading? {
        RenderHeading(n, entering);
      } else if n.kind.CaptionFigure? {
        RenderCaptionFigure(n, pl, entering);
      } else if n.kind.Table? {
        RenderTable(n, pl, entering);
      } else if n.kind.Image? {
        if opts.flags & SkipImages != 0 {
          return SkipChildren;
        }
        RenderImage(n.kind.destination, n.kind.title, entering);
      } else {
        DispatchContent(lib, opts, old(Abs()), n, pl, entering);
        RenderContent(n, pl, entering);
      }
    }

    /** The depth-first walk of the subtree at `n`, rendering every node it visits */
    method Walk(n: Node, pl: Place) returns (status: WalkStatus)
      requires At(n, pl) && Supported(opts, n)
      requires !Handled(opts, n, true) ==> CaptionsReady(opts, n, pl, true)
      modifies this
      ensures (Abs(), status) == Xml2.Walk(lib, opts, old(Abs()), n, pl)
      decreases Scope(n, pl), WalkRank(n, pl), 0
    {
      status := RenderNode(n, pl, true);
      if status == Terminate {
        if n.container {
          var _ := RenderNode(n, pl, false);
        }
        return Terminate;
      }
      if n.container && status != SkipChildren {
        var path := PathOf(pl);
        ghost var start := Abs();
        var i := 0;
        while i < |n.children|
          invariant 0 <= i <= |n.children|
          invariant WalkChildren(lib, opts, start, n, path, 0) == WalkChildren(lib, opts, Abs(), n, path, i)
        {
          if path + [i] !in consumed {
            var st := Walk(n.children[i], Child(n, i, path));
            if st == Terminate {
              return Terminate;
            }
          }
          i := i + 1;
        }
      }
      if n.container {
        status := RenderNode(n, pl, false);
        if status == Terminate {
          return Terminate;
        }
      }
      return GoToNext;
    }

    // ------------------------------------------------------------ header and footer

    method WriteDocumentHeader()
      modifies this`output
      ensures output == old(output) + DocumentHeaderOut(opts)
    {
      if opts.flags & XMLFragment != 0 {
        return;
      }
      Outs(XMLDeclaration);
      Cr();
      Outs(GeneratorComment);
      Cr();
      Outs(Doctype);
      Cr();
    }

    method RenderHeader()
      modifies this`output
      ensures output == old(output) + HeaderOut(opts)
    {
      if opts.flags & XMLFragment != 0 {
        return;
      }
      WriteDocumentHeader();
    }

    method RenderFooter()
      modifies this
      ensures Abs() == FooterStep(lib, old(Abs()))
    {
      SectionClose(None);
      match documentMatter {
        case Front => Outs("\n</front>\n");
        case Main => Outs("\n</middle>\n");
        case Back => Outs("\n</back>\n");
        case NoMatter =>
      }
      if title {
        Outs("\n</rfc>");
      }
    }
  }
}
