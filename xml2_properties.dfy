/** Properties of the renderer of xml2/renderer.go, proved about the functions of module
    Xml2 (and so, through the methods' postconditions, about the Renderer class). */
module Xml2Properties {
  import opened Ast
  import opened Markup
  import opened Xml2

  // ---------------------------------------------------------------- what the walk may change

  /** A Title node somewhere in the tree below `n` (or `n` itself) */
  ghost predicate HasTitle(n: Node)
    decreases n
  {
    n.kind.Title? || exists i | 0 <= i < |n.children| :: HasTitle(n.children[i])
  }

  /** `p` names a node strictly below the node at `prefix` */
  ghost predicate Below(p: seq<nat>, prefix: seq<nat>) {
    |p| > |prefix| && p[..|prefix|] == prefix
  }

  /** What any stretch of the walk may do to the state: the output only grows, nodes are only
      ever removed from the tree, and only below `prefix`, the title flag is never cleared, and
      it is set only if a Title node lies under `scope` */
  ghost predicate Extends(s: State, r: State, prefix: seq<nat>, scope: Node) {
    && s.output <= r.output
    && s.consumed <= r.consumed
    && (forall p | p in r.consumed && p !in s.consumed :: Below(p, prefix))
    && (s.title ==> r.title)
    && (!HasTitle(scope) ==> r.title == s.title)
  }

  /** The path under which a visit of the node at `pl` may remove nodes: its own, except for
      a table, which removes a caption of its parent figure */
  function VisitPrefix(n: Node, pl: Place): seq<nat> {
    if n.kind.Table? && pl.Child? then pl.parentPath else PathOf(pl)
  }

  lemma PrefixOfAppend(a: seq<Chunk>, b: seq<Chunk>)
    ensures a <= a + b
  {
    assert (a + b)[..|a|] == a;
  }

  lemma ExtendsRefl(s: State, prefix: seq<nat>, scope: Node)
    ensures Extends(s, s, prefix, scope)
  {
  }

  /** A step that only writes */
  lemma WritesOnly(s: State, out: seq<Chunk>, prefix: seq<nat>, scope: Node)
    ensures Extends(s, Emit(s, out), prefix, scope)
  {
    PrefixOfAppend(s.output, out);
  }

  lemma ExtendsTrans(s: State, t: State, r: State, prefix: seq<nat>, scope: Node)
    requires Extends(s, t, prefix, scope) && Extends(t, r, prefix, scope)
    ensures Extends(s, r, prefix, scope)
  {
  }

  /** What holds below a longer path and a smaller subtree holds below a shorter one and a larger one */
  lemma ExtendsWiden(s: State, r: State, prefix: seq<nat>, scope: Node, prefix': seq<nat>, scope': Node)
    requires Extends(s, r, prefix, scope)
    requires prefix' <= prefix
    requires HasTitle(scope) ==> HasTitle(scope')
    ensures Extends(s, r, prefix', scope')
  {
    forall p | p in r.consumed && p !in s.consumed
      ensures Below(p, prefix')
    {
      assert Below(p, prefix);
      assert p[..|prefix'|] == p[..|prefix|][..|prefix'|];
    }
  }

  /** A node lies in the subtree of its parent */
  lemma InScope(n: Node, pl: Place)
    requires At(n, pl)
    ensures HasTitle(n) ==> HasTitle(Scope(n, pl))
  {
    if pl.Child? && HasTitle(n) {
      assert HasTitle(pl.parent.children[pl.index]);
    }
  }

  lemma ChildPath(path: seq<nat>, i: nat)
    ensures path <= path + [i]
  {
    assert (path + [i])[..|path|] == path;
  }

  lemma {:induction false} VisitExtends(lib: Library, opts: Options, s: State, n: Node, pl: Place, entering: bool)
    requires At(n, pl) && Renders(opts, n, entering)
    requires !Handled(opts, n, entering) ==> CaptionsReady(opts, n, pl, entering)
    ensures Extends(s, Visit(lib, opts, s, n, pl, entering).0, VisitPrefix(n, pl), Scope(n, pl))
    decreases Scope(n, pl), VisitRank(n), 0
  {
    if !Handled(opts, n, entering) {
      DispatchExtends(lib, opts, s, n, pl, entering);
    }
  }

  lemma {:induction false} DispatchExtends(lib: Library, opts: Options, s: State, n: Node, pl: Place, entering: bool)
    requires At(n, pl) && Known(n.kind) && CaptionsReady(opts, n, pl, entering)
    ensures Extends(s, Dispatch(lib, opts, s, n, pl, entering).0, VisitPrefix(n, pl), Scope(n, pl))
    decreases Scope(n, pl), VisitRank(n) - 1, 0
  {
    var k := n.kind;
    var r := Dispatch(lib, opts, s, n, pl, entering).0;
    var prefix := VisitPrefix(n, pl);
    var scope := Scope(n, pl);
    if k.Title? {
      InScope(n, pl);
      PrefixOfAppend(s.output, lib.titleBlock(k.block));
    } else if k.DocumentMatter? {
      if entering {
        var s1 := SectionClose(lib, s, None);
        PrefixOfAppend(s.output, lib.sectionClose(s.section, None));
        PrefixOfAppend(s1.output, MatterTags(k.matter));
      }
    } else if k.Heading? {
      if entering {
        var s1 := SectionClose(lib, s, Some(n));
        PrefixOfAppend(s.output, lib.sectionClose(s.section, Some(n)));
        var s2 := Emit(s1, [NewLine]);
        PrefixOfAppend(s1.output, [NewLine]);
        assert s2.output <= r.output by {
          var h := k;
          if !(h.isSpecial && lib.isAbstract(h.literal)) && h.headingID != "" {
            var unique := lib.uniqueHeadingID(s2.headingIDs, h.headingID);
            var tag := if h.isSpecial then "<note" else "<section";
            PrefixOfAppend(s2.output, Put(tag) + Put(" " + Join([AnchorAttr(unique.0)], " ") + " title=\""));
          } else if !(h.isSpecial && lib.isAbstract(h.literal)) {
            var tag := if h.isSpecial then "<note" else "<section";
            PrefixOfAppend(s2.output, Put(tag) + Put(" title=\""));
          } else {
            PrefixOfAppend(s2.output, Put("<abstract>"));
          }
        }
      } else {
        WritesOnly(s, [NewLine], prefix, scope);
      }
    } else if k.CaptionFigure? {
      CaptionFigureExtends(lib, opts, s, n, pl, entering);
    } else if k.Table? {
      TableExtends(lib, opts, s, n, pl, entering);
    } else if k.Image? {
      if !HasFlag(opts.flags, SkipImages) {
        WritesOnly(s, ImageOut(lib, k.destination, k.title, entering), prefix, scope);
      }
    } else {
      WritesOnly(s, NodeOut(lib, opts, n, pl, entering), prefix, scope);
    }
  }

  lemma {:induction false} CaptionFigureExtends(lib: Library, opts: Options, s: State, n: Node, pl: Place, entering: bool)
    requires At(n, pl) && n.kind.CaptionFigure? && CaptionsReady(opts, n, pl, entering)
    ensures Extends(s, CaptionFigureStep(lib, opts, s, n, pl, entering), PathOf(pl), Scope(n, pl))
    decreases Scope(n, pl), 4, 0
  {
    if HasTableChild(n) {
    } else if !entering {
      WritesOnly(s, Put("</figure>"), PathOf(pl), Scope(n, pl));
    } else {
      var s1 := Emit(s, Put("<figure") + Put(" title=\""));
      WritesOnly(s, Put("<figure") + Put(" title=\""), PathOf(pl), Scope(n, pl));
      var r := RenderCaptions(lib, opts, s1, n, PathOf(pl), 0);
      RenderCaptionsExtends(lib, opts, s1, n, PathOf(pl), 0);
      InScope(n, pl);
      ExtendsWiden(s1, r, PathOf(pl), n, PathOf(pl), Scope(n, pl));
      ExtendsTrans(s, s1, r, PathOf(pl), Scope(n, pl));
    }
  }

  lemma {:induction false} RenderCaptionsExtends(lib: Library, opts: Options, s: State, cf: Node, path: seq<nat>, j: nat)
    requires j <= |cf.children| && SupportedChildren(opts, cf)
    ensures Extends(s, RenderCaptions(lib, opts, s, cf, path, j), path, cf)
    decreases cf, 3, |cf.children| - j
  {
    if j == |cf.children| {
    } else if !cf.children[j].kind.Caption? || path + [j] in s.consumed {
      RenderCaptionsExtends(lib, opts, s, cf, path, j + 1);
    } else {
      var s1 := WalkCaption(lib, opts, s, cf, path, j);
      WalkCaptionExtends(lib, opts, s, cf, path, j);
      RenderCaptionsExtends(lib, opts, s1, cf, path, j + 1);
      ExtendsTrans(s, s1, RenderCaptions(lib, opts, s1, cf, path, j + 1), path, cf);
    }
  }

  /** Walking a caption removes it, and otherwise only nodes below it */
  lemma {:induction false} WalkCaptionExtends(lib: Library, opts: Options, s: State, cf: Node, path: seq<nat>, j: nat)
    requires j < |cf.children| && cf.children[j].kind.Caption? && SupportedChildren(opts, cf)
    ensures Extends(s, WalkCaption(lib, opts, s, cf, path, j), path, cf)
    ensures path + [j] in WalkCaption(lib, opts, s, cf, path, j).consumed
    ensures forall p | p in WalkCaption(lib, opts, s, cf, path, j).consumed && p !in s.consumed ::
              p == path + [j] || Below(p, path + [j])
    decreases cf, 3, 0
  {
    var s1 := Walk(lib, opts, s, cf.children[j], Child(cf, j, path)).0;
    WalkExtends(lib, opts, s, cf.children[j], Child(cf, j, path));
    assert Extends(s, s1, path + [j], cf);
    ChildPath(path, j);
    ExtendsWiden(s, s1, path + [j], cf, path, cf);
    assert Below(path + [j], path);
  }

  lemma {:induction false} TableExtends(lib: Library, opts: Options, s: State, n: Node, pl: Place, entering: bool)
    requires At(n, pl) && n.kind.Table? && CaptionsReady(opts, n, pl, entering)
    ensures Extends(s, TableStep(lib, opts, s, n, pl, entering), VisitPrefix(n, pl), Scope(n, pl))
    decreases Scope(n, pl), 4, 0
  {
    var prefix := VisitPrefix(n, pl);
    var scope := Scope(n, pl);
    if !entering {
      WritesOnly(s, Put("</texttable>"), prefix, scope);
    } else {
      var attr := if |n.kind.attrs| > 0 then " " + Join(n.kind.attrs, " ") else "";
      var s1 := Emit(s, Put("<texttable") + Put(attr));
      WritesOnly(s, Put("<texttable") + Put(attr), prefix, scope);
      if !InCaptionFigure(pl) {
        WritesOnly(s1, Put(">"), prefix, scope);
        ExtendsTrans(s, s1, Emit(s1, Put(">")), prefix, scope);
      } else {
        var s2 := Emit(s1, Put(" title=\""));
        WritesOnly(s1, Put(" title=\""), prefix, scope);
        ExtendsTrans(s, s1, s2, prefix, scope);
        RenderFirstCaptionExtends(lib, opts, s2, pl.parent, pl.parentPath, 0);
        ExtendsTrans(s, s2, RenderFirstCaption(lib, opts, s2, pl.parent, pl.parentPath, 0), prefix, scope);
      }
    }
  }

  lemma {:induction false} RenderFirstCaptionExtends(lib: Library, opts: Options, s: State, cf: Node, path: seq<nat>, j: nat)
    requires j <= |cf.children| && SupportedChildren(opts, cf)
    ensures Extends(s, RenderFirstCaption(lib, opts, s, cf, path, j), path, cf)
    decreases cf, 3, |cf.children| - j
  {
    if j == |cf.children| {
    } else if !cf.children[j].kind.Caption? || path + [j] in s.consumed {
      RenderFirstCaptionExtends(lib, opts, s, cf, path, j + 1);
    } else {
      WalkCaptionExtends(lib, opts, s, cf, path, j);
    }
  }

  lemma {:induction false} WalkExtends(lib: Library, opts: Options, s: State, n: Node, pl: Place)
    requires At(n, pl) && Supported(opts, n)
    requires !Handled(opts, n, true) ==> CaptionsReady(opts, n, pl, true)
    ensures Extends(s, Walk(lib, opts, s, n, pl).0, VisitPrefix(n, pl), Scope(n, pl))
    decreases Scope(n, pl), WalkRank(n, pl), 0
  {
    var prefix := VisitPrefix(n, pl);
    var scope := Scope(n, pl);
    var entered := Visit(lib, opts, s, n, pl, true);
    VisitExtends(lib, opts, s, n, pl, true);
    if entered.1 == Terminate {
      if n.container {
        VisitExtends(lib, opts, entered.0, n, pl, false);
        ExtendsTrans(s, entered.0, Visit(lib, opts, entered.0, n, pl, false).0, prefix, scope);
      }
    } else {
      var inside :=
        if n.container && entered.1 != SkipChildren then WalkChildren(lib, opts, entered.0, n, PathOf(pl), 0)
        else (entered.0, GoToNext);
      if n.container && entered.1 != SkipChildren {
        WalkChildrenExtends(lib, opts, entered.0, n, PathOf(pl), 0);
        InScope(n, pl);
        if pl.Child? {
          ChildPath(pl.parentPath, pl.index);
        }
        ExtendsWiden(entered.0, inside.0, PathOf(pl), n, prefix, scope);
        ExtendsTrans(s, entered.0, inside.0, prefix, scope);
      }
      if inside.1 != Terminate && n.container {
        VisitExtends(lib, opts, inside.0, n, pl, false);
        ExtendsTrans(s, inside.0, Visit(lib, opts, inside.0, n, pl, false).0, prefix, scope);
      }
    }
  }

  lemma {:induction false} WalkChildrenExtends(lib: Library, opts: Options, s: State, n: Node, path: seq<nat>, i: nat)
    requires i <= |n.children| && SupportedChildren(opts, n)
    ensures Extends(s, WalkChildren(lib, opts, s, n, path, i).0, path, n)
    decreases n, 8, |n.children| - i
  {
    if i == |n.children| {
    } else if path + [i] in s.consumed {
      WalkChildrenExtends(lib, opts, s, n, path, i + 1);
    } else {
      var child := n.children[i];
      var r := Walk(lib, opts, s, child, Child(n, i, path));
      WalkExtends(lib, opts, s, child, Child(n, i, path));
      ChildPath(path, i);
      ExtendsWiden(s, r.0, VisitPrefix(child, Child(n, i, path)), n, path, n);
      if r.1 != Terminate {
        WalkChildrenExtends(lib, opts, r.0, n, path, i + 1);
        ExtendsTrans(s, r.0, WalkChildren(lib, opts, r.0, n, path, i + 1).0, path, n);
      }
    }
  }

  // ---------------------------------------------------------------- text helpers

  predicate StartsWith(s: string, p: string) {
    |p| <= |s| && s[..|p|] == p
  }

  predicate EndsWith(s: string, p: string) {
    |p| <= |s| && s[|s| - |p|..] == p
  }

  // ---------------------------------------------------------------- regions and the footer

  /** The strings matter writes for each region: it closes the previous region and opens its own */
  function RegionTags(m: Matter): seq<string> {
    match m
    case Front => ["<front>"]
    case Main => ["</front>", "<middle>"]
    case Back => ["</middle>", "<back>"]
    case NoMatter => []
  }

  lemma FrontTagPieces()
    ensures Pieces(MatterTags(Front)) == RegionTags(Front)
  {
    PiecesCons(NewLine, []);
    PiecesCons(Piece("<front>"), [NewLine]);
    PiecesCons(NewLine, [Piece("<front>"), NewLine]);
  }

  /** A closing and an opening tag, each on a line of its own */
  lemma SwitchTagPieces(close: string, open: string)
    ensures Pieces([NewLine, Piece(close), NewLine, NewLine, Piece(open), NewLine]) == [close, open]
  {
    PiecesCons(NewLine, []);
    PiecesCons(Piece(open), [NewLine]);
    PiecesCons(NewLine, [Piece(open), NewLine]);
    PiecesCons(NewLine, [NewLine, Piece(open), NewLine]);
    PiecesCons(Piece(close), [NewLine, NewLine, Piece(open), NewLine]);
    PiecesCons(NewLine, [Piece(close), NewLine, NewLine, Piece(open), NewLine]);
  }

  /** matter closes the open section before anything else, writes the region tags and
      records the region; nothing else of the state changes */
  lemma {:induction false} MatterOpensRegion(lib: Library, s: State, m: Matter)
    ensures var r := MatterStep(lib, s, m);
      && r.output == s.output + lib.sectionClose(s.section, None) + MatterTags(m)
      && Pieces(MatterTags(m)) == RegionTags(m)
      && r.documentMatter == m && r.section == None
      && r.title == s.title && r.headingIDs == s.headingIDs && r.consumed == s.consumed
  {
    match m
    case NoMatter =>
    case Front => FrontTagPieces();
    case Main => SwitchTagPieces("</front>", "<middle>");
    case Back => SwitchTagPieces("</middle>", "<back>");
  }

  function RegionClose(m: Matter): string
    requires m != NoMatter
  {
    match m
    case Front => "\n</front>\n"
    case Main => "\n</middle>\n"
    case Back => "\n</back>\n"
  }

  /** RenderFooter closes the open section, then writes exactly one closing tag for the
      region it is in (none outside a region), then </rfc> exactly when a title was rendered */
  lemma {:induction false} FooterClosesRegion(lib: Library, s: State)
    ensures var r := FooterStep(lib, s);
      var tail := Pieces(FooterTail(s.documentMatter, s.title));
      && r.output == s.output + lib.sectionClose(s.section, None) + FooterTail(s.documentMatter, s.title)
      && r.section == None && r.documentMatter == s.documentMatter && r.title == s.title
      && r.headingIDs == s.headingIDs && r.consumed == s.consumed
      && |tail| == (if s.documentMatter == NoMatter then 0 else 1) + (if s.title then 1 else 0)
      && (s.documentMatter != NoMatter ==> tail[0] == RegionClose(s.documentMatter))
      && ("\n</rfc>" in tail <==> s.title)
  {
    var m := s.documentMatter;
    var region := match m
      case Front => Put("\n</front>\n")
      case Main => Put("\n</middle>\n")
      case Back => Put("\n</back>\n")
      case NoMatter => [];
    var closing := if s.title then Put("\n</rfc>") else [];
    assert FooterTail(m, s.title) == region + closing;
    PiecesAppend(region, closing);
    if m != NoMatter {
      PiecesCons(Piece(RegionClose(m)), []);
    }
    PiecesCons(Piece("\n</rfc>"), []);
    assert Pieces(region) == (if m == NoMatter then [] else [RegionClose(m)]);
    assert Pieces(closing) == (if s.title then ["\n</rfc>"] else []);
    if m != NoMatter {
      assert RegionClose(m)[3] != "\n</rfc>"[3];
    }
  }

  /** writeDocumentHeader: nothing for a fragment, otherwise the XML declaration, the
      generator comment and the DOCTYPE, in that order */
  lemma {:induction false} HeaderShape(opts: Options)
    ensures HeaderOut(opts) == [] <==> HasFlag(opts.flags, XMLFragment)
    ensures !HasFlag(opts.flags, XMLFragment) ==>
      Pieces(HeaderOut(opts)) == [XMLDeclaration, GeneratorComment, Doctype]
  {
    if !HasFlag(opts.flags, XMLFragment) {
      var d := Piece(Doctype);
      var g := Piece(GeneratorComment);
      var x := Piece(XMLDeclaration);
      assert HeaderOut(opts) == [x, NewLine, g, NewLine, d, NewLine];
      PiecesCons(NewLine, []);
      PiecesCons(d, [NewLine]);
      PiecesCons(NewLine, [d, NewLine]);
      PiecesCons(g, [NewLine, d, NewLine]);
      PiecesCons(NewLine, [g, NewLine, d, NewLine]);
      PiecesCons(x, [NewLine, g, NewLine, d, NewLine]);
    }
  }

  // ---------------------------------------------------------------- headings

  /** What a heading writes and records. Entering closes the open section first and makes
      the heading the open section; exiting writes only a line break. */
  lemma {:induction false} HeadingOpensSection(lib: Library, s: State, n: Node)
    requires n.kind.Heading?
    ensures var r := HeadingStep(lib, s, n, true);
      && s.output + lib.sectionClose(s.section, Some(n)) + [NewLine] <= r.output
      && r.section == Some(n)
      && r.documentMatter == s.documentMatter && r.title == s.title && r.consumed == s.consumed
    ensures HeadingStep(lib, s, n, false) == Emit(s, [NewLine])
  {
    var s1 := SectionClose(lib, s, Some(n));
    var s2 := Emit(s1, [NewLine]);
    var r := HeadingStep(lib, s, n, true);
    assert r.output[..|s2.output|] == s2.output;
  }

  /** What headingEnter writes after the output it found */
  ghost function Written(s: State, r: State): seq<string>
    requires s.output <= r.output
  {
    Pieces(r.output[|s.output|..])
  }

  /** headingEnter for an abstract: <abstract> alone, after a line break; no anchor, and the
      heading IDs are left alone */
  lemma {:induction false} AbstractHeading(lib: Library, s: State, n: Node)
    requires n.kind.Heading? && n.kind.isSpecial && lib.isAbstract(n.kind.literal)
    ensures var r := HeadingEnterStep(lib, s, n);
      && s.output <= r.output
      && Written(s, r) == ["<abstract>"]
      && r.headingIDs == s.headingIDs && r.section == s.section
      && r.documentMatter == s.documentMatter && r.title == s.title && r.consumed == s.consumed
  {
    var r := HeadingEnterStep(lib, s, n);
    assert r.output == s.output + [NewLine, Piece("<abstract>")];
    assert r.output[|s.output|..] == [NewLine, Piece("<abstract>")];
    PiecesCons(Piece("<abstract>"), []);
    PiecesCons(NewLine, [Piece("<abstract>")]);
  }

  /** The attribute text of a heading with an ID */
  lemma AnchoredTitle(u: string)
    ensures var text := " " + Join([AnchorAttr(u)], " ") + " title=\"";
      && text == " " + AnchorAttr(u) + " title=\""
      && StartsWith(text, " anchor=\"") && EndsWith(text, " title=\"")
  {
    var text := " " + AnchorAttr(u) + " title=\"";
    assert text[..9] == " anchor=\"";
    assert text[|text| - 8..] == " title=\"";
  }

  /** The two pieces headingEnter writes for a heading that is not an abstract */
  lemma SectionHeadingText(lib: Library, s: State, n: Node, tag: string, text: string)
    requires n.kind.Heading? && !(n.kind.isSpecial && lib.isAbstract(n.kind.literal))
    requires tag == if n.kind.isSpecial then "<note" else "<section"
    requires text == if n.kind.headingID != "" then
        " " + Join([AnchorAttr(lib.uniqueHeadingID(s.headingIDs, n.kind.headingID).0)], " ") + " title=\""
      else " title=\""
    ensures var r := HeadingEnterStep(lib, s, n);
      s.output <= r.output && Written(s, r) == [tag, text]
  {
    var r := HeadingEnterStep(lib, s, n);
    var s1 := Emit(s, [NewLine]);
    assert Put(tag) + Put(text) == [Piece(tag), Piece(text)];
    if n.kind.headingID != "" {
      var unique := lib.uniqueHeadingID(s1.headingIDs, n.kind.headingID);
      assert r == Emit(s1.(headingIDs := unique.1), Put(tag) + Put(text));
    } else {
      assert r == Emit(s1, Put(tag) + Put(text));
    }
    assert r.output == s.output + [NewLine] + [Piece(tag), Piece(text)];
    assert r.output[|s.output|..] == [NewLine, Piece(tag), Piece(text)];
    PiecesCons(Piece(text), []);
    PiecesCons(Piece(tag), [Piece(text)]);
    PiecesCons(NewLine, [Piece(tag), Piece(text)]);
  }

  /** headingEnter for any other heading: <note (special) or <section, then the attribute text,
      which carries an anchor exactly when the heading has an ID (made unique, and recorded in
      the heading IDs) and ends with ` title="` */
  lemma {:induction false} SectionHeading(lib: Library, s: State, n: Node)
    requires n.kind.Heading? && !(n.kind.isSpecial && lib.isAbstract(n.kind.literal))
    ensures var h := n.kind;
      var r := HeadingEnterStep(lib, s, n);
      && s.output <= r.output
      && |Written(s, r)| == 2
      && Written(s, r)[0] == (if h.isSpecial then "<note" else "<section")
      && EndsWith(Written(s, r)[1], " title=\"")
      && (StartsWith(Written(s, r)[1], " anchor=\"") <==> h.headingID != "")
      && r.section == s.section && r.documentMatter == s.documentMatter
      && r.title == s.title && r.consumed == s.consumed
      && (h.headingID == "" ==> r.headingIDs == s.headingIDs)
      && (h.headingID != "" ==>
            var unique := lib.uniqueHeadingID(s.headingIDs, h.headingID);
            Written(s, r)[1] == " " + AnchorAttr(unique.0) + " title=\"" && r.headingIDs == unique.1)
  {
    var h := n.kind;
    var tag := if h.isSpecial then "<note" else "<section";
    if h.headingID == "" {
      SectionHeadingText(lib, s, n, tag, " title=\"");
      assert " title=\""[1] != " anchor=\""[1];
    } else {
      var unique := lib.uniqueHeadingID(s.headingIDs, h.headingID);
      SectionHeadingText(lib, s, n, tag, " " + Join([AnchorAttr(unique.0)], " ") + " title=\"");
      AnchoredTitle(unique.0);
    }
  }

  // ---------------------------------------------------------------- figures and tables

  /** A path at or below child `j` of the node at `path` */
  lemma UnderChild(p: seq<nat>, path: seq<nat>, j: nat)
    requires p == path + [j] || Below(p, path + [j])
    ensures Below(p, path) && p[|path|] == j && (|p| == |path| + 1 ==> p == path + [j])
  {
    if p != path + [j] {
      assert p[..|path|] == p[..|path| + 1][..|path|];
      assert p[|path|] == p[..|path| + 1][|path|];
    }
  }

  /** The caption loop from child `j` on: every caption child from `j` on ends up removed,
      and what it removes lies under a child at index `j` or later, a direct child being a caption */
  lemma {:induction false} RenderCaptionsRemoves(lib: Library, opts: Options, s: State, cf: Node, path: seq<nat>, j: nat)
    requires j <= |cf.children| && SupportedChildren(opts, cf)
    ensures var r := RenderCaptions(lib, opts, s, cf, path, j);
      && s.consumed <= r.consumed
      && (forall k | j <= k < |cf.children| && cf.children[k].kind.Caption? :: path + [k] in r.consumed)
      && (forall p | p in r.consumed && p !in s.consumed ::
            Below(p, path) && p[|path|] >= j
            && (|p| == |path| + 1 ==> p[|path|] < |cf.children| && cf.children[p[|path|]].kind.Caption?))
    decreases |cf.children| - j
  {
    var r := RenderCaptions(lib, opts, s, cf, path, j);
    if j == |cf.children| {
    } else if !cf.children[j].kind.Caption? || path + [j] in s.consumed {
      RenderCaptionsRemoves(lib, opts, s, cf, path, j + 1);
    } else {
      var s1 := WalkCaption(lib, opts, s, cf, path, j);
      WalkCaptionExtends(lib, opts, s, cf, path, j);
      RenderCaptionsRemoves(lib, opts, s1, cf, path, j + 1);
      forall p | p in s1.consumed && p !in s.consumed
        ensures Below(p, path) && p[|path|] == j && (|p| == |path| + 1 ==> p == path + [j])
      {
        UnderChild(p, path, j);
      }
    }
  }

  /** captionFigure with a table among its children changes nothing (the table writes the
      figure); without one, exiting writes </figure> */
  lemma CaptionFigureShape(lib: Library, opts: Options, s: State, n: Node, pl: Place)
    requires At(n, pl) && n.kind.CaptionFigure? && (!HasTableChild(n) ==> SupportedChildren(opts, n))
    ensures HasTableChild(n) ==>
      CaptionFigureStep(lib, opts, s, n, pl, true) == s && CaptionFigureStep(lib, opts, s, n, pl, false) == s
    ensures !HasTableChild(n) ==> CaptionFigureStep(lib, opts, s, n, pl, false) == Emit(s, [Piece("</figure>")])
  {
  }

  /** captionFigure without a table, entering: writes `<figure title="`, then renders every
      caption child and removes it from the tree; no other child is removed */
  lemma {:induction false} CaptionFigureEffect(lib: Library, opts: Options, s: State, n: Node, pl: Place)
    requires At(n, pl) && n.kind.CaptionFigure? && SupportedChildren(opts, n)
    requires !HasTableChild(n)
    ensures
      var r := CaptionFigureStep(lib, opts, s, n, pl, true);
      var path := PathOf(pl);
      && s.output + [Piece("<figure"), Piece(" title=\"")] <= r.output
      && forall k | 0 <= k < |n.children| ::
           && (n.children[k].kind.Caption? ==> path + [k] in r.consumed)
           && (!n.children[k].kind.Caption? ==> (path + [k] in r.consumed <==> path + [k] in s.consumed))
  {
    var path := PathOf(pl);
    var s1 := Emit(s, Put("<figure") + Put(" title=\""));
    var r := RenderCaptions(lib, opts, s1, n, path, 0);
    RenderCaptionsRemoves(lib, opts, s1, n, path, 0);
    RenderCaptionsExtends(lib, opts, s1, n, path, 0);
    forall k | 0 <= k < |n.children| && !n.children[k].kind.Caption? && path + [k] in r.consumed
      ensures path + [k] in s.consumed
    {
      assert (path + [k])[|path|] == k;
    }
  }

  /** The first caption child from `j` on that is still in the tree, or the number of children */
  ghost function FirstFreeCaption(cf: Node, path: seq<nat>, consumed: set<seq<nat>>, j: nat): (f: nat)
    requires j <= |cf.children|
    ensures j <= f <= |cf.children|
    ensures f < |cf.children| ==> cf.children[f].kind.Caption? && path + [f] !in consumed
    ensures forall k | j <= k < f :: !cf.children[k].kind.Caption? || path + [k] in consumed
    decreases |cf.children| - j
  {
    if j == |cf.children| then j
    else if cf.children[j].kind.Caption? && path + [j] !in consumed then j
    else FirstFreeCaption(cf, path, consumed, j + 1)
  }

  /** The loop of table: the first caption still in the tree is removed and no other child is */
  lemma {:induction false} RenderFirstCaptionRemoves(lib: Library, opts: Options, s: State, cf: Node, path: seq<nat>, j: nat)
    requires j <= |cf.children| && SupportedChildren(opts, cf)
    ensures var r := RenderFirstCaption(lib, opts, s, cf, path, j);
      var f := FirstFreeCaption(cf, path, s.consumed, j);
      && (f < |cf.children| ==> path + [f] in r.consumed)
      && forall k | 0 <= k < |cf.children| && k != f :: path + [k] in r.consumed <==> path + [k] in s.consumed
    decreases |cf.children| - j
  {
    if j == |cf.children| {
    } else if !cf.children[j].kind.Caption? || path + [j] in s.consumed {
      RenderFirstCaptionRemoves(lib, opts, s, cf, path, j + 1);
    } else {
      var r := WalkCaption(lib, opts, s, cf, path, j);
      WalkCaptionExtends(lib, opts, s, cf, path, j);
      forall k | 0 <= k < |cf.children| && k != j && path + [k] in r.consumed
        ensures path + [k] in s.consumed
      {
        if path + [k] !in s.consumed {
          UnderChild(path + [k], path, j);
        }
      }
    }
  }

  /** table outside a figure. Exiting writes </texttable>; entering writes the tag, its
      attributes and `>`, and removes nothing from the tree. */
  lemma TableOutsideFigure(lib: Library, opts: Options, s: State, n: Node, pl: Place)
    requires At(n, pl) && n.kind.Table? && !InCaptionFigure(pl)
    ensures TableStep(lib, opts, s, n, pl, false) == Emit(s, [Piece("</texttable>")])
    ensures var attr := if |n.kind.attrs| > 0 then " " + Join(n.kind.attrs, " ") else "";
      TableStep(lib, opts, s, n, pl, true) == Emit(s, [Piece("<texttable")] + Put(attr) + [Piece(">")])
  {
  }

  /** table inside a figure. Entering writes ` title="` in place of `>`, then renders the first
      caption of the figure that is still in the tree and removes it; no other child of the
      figure is removed. */
  lemma {:induction false} TableInFigure(lib: Library, opts: Options, s: State, n: Node, pl: Place)
    requires At(n, pl) && n.kind.Table? && InCaptionFigure(pl) && SupportedChildren(opts, pl.parent)
    ensures var attr := if |n.kind.attrs| > 0 then " " + Join(n.kind.attrs, " ") else "";
      var r := TableStep(lib, opts, s, n, pl, true);
      var cf := pl.parent;
      var path := pl.parentPath;
      var f := FirstFreeCaption(cf, path, s.consumed, 0);
      && s.output + [Piece("<texttable")] + Put(attr) + [Piece(" title=\"")] <= r.output
      && (f < |cf.children| ==> path + [f] in r.consumed)
      && forall k | 0 <= k < |cf.children| && k != f :: path + [k] in r.consumed <==> path + [k] in s.consumed
  {
    var attr := if |n.kind.attrs| > 0 then " " + Join(n.kind.attrs, " ") else "";
    var s2 := Emit(Emit(s, Put("<texttable") + Put(attr)), Put(" title=\""));
    assert s2.output == s.output + [Piece("<texttable")] + Put(attr) + [Piece(" title=\"")];
    RenderFirstCaptionRemoves(lib, opts, s2, pl.parent, pl.parentPath, 0);
    RenderFirstCaptionExtends(lib, opts, s2, pl.parent, pl.parentPath, 0);
  }

  /** Without a hook nothing answers Terminate: every walk goes on to the next node */
  lemma {:induction false} WalkGoesOn(lib: Library, opts: Options, s: State, n: Node, pl: Place)
    requires opts.hook.None? && At(n, pl) && Supported(opts, n) && CaptionsReady(opts, n, pl, true)
    ensures Walk(lib, opts, s, n, pl).1 == GoToNext
    decreases Scope(n, pl), WalkRank(n, pl), 0
  {
    var entered := Visit(lib, opts, s, n, pl, true);
    if n.container && entered.1 != SkipChildren {
      WalkChildrenGoesOn(lib, opts, entered.0, n, PathOf(pl), 0);
    }
  }

  lemma {:induction false} WalkChildrenGoesOn(lib: Library, opts: Options, s: State, n: Node, path: seq<nat>, i: nat)
    requires opts.hook.None? && i <= |n.children| && SupportedChildren(opts, n)
    ensures WalkChildren(lib, opts, s, n, path, i).1 == GoToNext
    decreases n, 8, |n.children| - i
  {
    if i == |n.children| {
    } else if path + [i] in s.consumed {
      WalkChildrenGoesOn(lib, opts, s, n, path, i + 1);
    } else {
      var r := Walk(lib, opts, s, n.children[i], Child(n, i, path));
      WalkGoesOn(lib, opts, s, n.children[i], Child(n, i, path));
      WalkChildrenGoesOn(lib, opts, r.0, n, path, i + 1);
    }
  }

  /** Without a hook, a visit of a caption figure or a table is its step, and goes on */
  lemma NoHookVisit(lib: Library, opts: Options, s: State, n: Node, pl: Place, entering: bool)
    requires opts.hook.None? && At(n, pl) && Known(n.kind) && CaptionsReady(opts, n, pl, entering)
    ensures n.kind.CaptionFigure? ==>
      Visit(lib, opts, s, n, pl, entering) == (CaptionFigureStep(lib, opts, s, n, pl, entering), GoToNext)
    ensures n.kind.Table? ==>
      Visit(lib, opts, s, n, pl, entering) == (TableStep(lib, opts, s, n, pl, entering), GoToNext)
  {
    assert Visit(lib, opts, s, n, pl, entering) == Dispatch(lib, opts, s, n, pl, entering);
  }

  /** captionFigure's loop over a block and a caption walks the caption alone */
  lemma CaptionAfterBlock(lib: Library, opts: Options, s: State, cf: Node, path: seq<nat>)
    requires |cf.children| == 2 && SupportedChildren(opts, cf)
    requires !cf.children[0].kind.Caption? && cf.children[1].kind.Caption? && path + [1] !in s.consumed
    ensures RenderCaptions(lib, opts, s, cf, path, 0) == WalkCaption(lib, opts, s, cf, path, 1)
  {
    var s2 := WalkCaption(lib, opts, s, cf, path, 1);
    assert RenderCaptions(lib, opts, s, cf, path, 1) == RenderCaptions(lib, opts, s2, cf, path, 2);
  }

  /** table's loop over the figure of the table and a caption walks the caption */
  lemma CaptionAfterTable(lib: Library, opts: Options, s: State, cf: Node, path: seq<nat>)
    requires |cf.children| == 2 && SupportedChildren(opts, cf)
    requires !cf.children[0].kind.Caption? && cf.children[1].kind.Caption? && path + [1] !in s.consumed
    ensures RenderFirstCaption(lib, opts, s, cf, path, 0) == WalkCaption(lib, opts, s, cf, path, 1)
  {
    assert RenderFirstCaption(lib, opts, s, cf, path, 0) == RenderFirstCaption(lib, opts, s, cf, path, 1);
  }

  /** The walk over two children, the second of which is already removed, walks the first alone */
  lemma FirstChildOnly(lib: Library, opts: Options, s: State, n: Node, path: seq<nat>)
    requires |n.children| == 2 && SupportedChildren(opts, n)
    requires path + [0] !in s.consumed
    requires var r := Walk(lib, opts, s, n.children[0], Child(n, 0, path));
      r.1 == GoToNext && path + [1] in r.0.consumed
    ensures WalkChildren(lib, opts, s, n, path, 0) == (Walk(lib, opts, s, n.children[0], Child(n, 0, path)).0, GoToNext)
  {
    var r := Walk(lib, opts, s, n.children[0], Child(n, 0, path));
    assert WalkChildren(lib, opts, r.0, n, path, 1) == WalkChildren(lib, opts, r.0, n, path, 2);
  }

  /** The walk of a caption figure holding a block and its caption, the shape a figure caption
      takes, in a rendering without a hook: `<figure title="`, then the caption's own rendering,
      after which it is removed from the tree, then the block's rendering, then `</figure>`.
      The caption is rendered exactly once, straight after ` title="`. */
  lemma {:induction false} FigureWalk(lib: Library, opts: Options, s: State, cf: Node, pl: Place)
    requires opts.hook.None? && At(cf, pl) && Supported(opts, cf)
    requires cf.kind.CaptionFigure? && cf.container && |cf.children| == 2
    requires !cf.children[0].kind.Table? && !cf.children[0].kind.Caption? && cf.children[1].kind.Caption?
    requires PathOf(pl) + [0] !in s.consumed && PathOf(pl) + [1] !in s.consumed
    ensures
      var path := PathOf(pl);
      var s1 := Emit(s, Put("<figure") + Put(" title=\""));
      var c := Walk(lib, opts, s1, cf.children[1], Child(cf, 1, path)).0;
      var s2 := c.(consumed := c.consumed + {path + [1]});
      var s3 := Walk(lib, opts, s2, cf.children[0], Child(cf, 0, path)).0;
      Walk(lib, opts, s, cf, pl) == (Emit(s3, Put("</figure>")), GoToNext)
  {
    var path := PathOf(pl);
    var s1 := Emit(s, Put("<figure") + Put(" title=\""));
    var s2 := WalkCaption(lib, opts, s1, cf, path, 1);
    assert !HasTableChild(cf);
    CaptionAfterBlock(lib, opts, s1, cf, path);
    NoHookVisit(lib, opts, s, cf, pl, true);
    WalkCaptionExtends(lib, opts, s1, cf, path, 1);
    assert path + [0] !in s2.consumed;
    var child := Walk(lib, opts, s2, cf.children[0], Child(cf, 0, path));
    WalkGoesOn(lib, opts, s2, cf.children[0], Child(cf, 0, path));
    WalkExtends(lib, opts, s2, cf.children[0], Child(cf, 0, path));
    FirstChildOnly(lib, opts, s2, cf, path);
    NoHookVisit(lib, opts, child.0, cf, pl, false);
  }

  /** The walk of a caption figure holding a table and its caption, in a rendering without a
      hook: the figure writes nothing; the table writes `<texttable`, its attributes and
      ` title="`, then the caption's own rendering, after which it is removed from the tree, then
      the rows of the table, then `</texttable>`. The figure's own walk does not reach the caption
      again. (The rows' requirement follows from the figure's; it is stated for the rows' walk.) */
  lemma {:induction false} TableFigureWalk(lib: Library, opts: Options, s: State, cf: Node, pl: Place)
    requires opts.hook.None? && At(cf, pl) && Supported(opts, cf)
    requires cf.kind.CaptionFigure? && cf.container && |cf.children| == 2
    requires cf.children[0].kind.Table? && cf.children[0].container && cf.children[1].kind.Caption?
    requires SupportedChildren(opts, cf.children[0])
    requires PathOf(pl) + [0] !in s.consumed && PathOf(pl) + [1] !in s.consumed
    ensures
      var path := PathOf(pl);
      var t := cf.children[0];
      var attr := if |t.kind.attrs| > 0 then " " + Join(t.kind.attrs, " ") else "";
      var s1 := Emit(Emit(s, Put("<texttable") + Put(attr)), Put(" title=\""));
      var c := Walk(lib, opts, s1, cf.children[1], Child(cf, 1, path)).0;
      var s2 := c.(consumed := c.consumed + {path + [1]});
      var s3 := WalkChildren(lib, opts, s2, t, path + [0], 0).0;
      Walk(lib, opts, s, cf, pl) == (Emit(s3, Put("</texttable>")), GoToNext)
  {
    var path := PathOf(pl);
    var t := cf.children[0];
    var tp := Child(cf, 0, path);
    var attr := if |t.kind.attrs| > 0 then " " + Join(t.kind.attrs, " ") else "";
    var s1 := Emit(Emit(s, Put("<texttable") + Put(attr)), Put(" title=\""));
    var s2 := WalkCaption(lib, opts, s1, cf, path, 1);
    assert HasTableChild(cf);
    NoHookVisit(lib, opts, s, cf, pl, true);
    CaptionAfterTable(lib, opts, s1, cf, path);
    NoHookVisit(lib, opts, s, t, tp, true);
    WalkCaptionExtends(lib, opts, s1, cf, path, 1);
    var rows := WalkChildren(lib, opts, s2, t, path + [0], 0);
    WalkChildrenGoesOn(lib, opts, s2, t, path + [0], 0);
    WalkChildrenExtends(lib, opts, s2, t, path + [0], 0);
    var s4 := Emit(rows.0, Put("</texttable>"));
    NoHookVisit(lib, opts, rows.0, t, tp, false);
    assert Walk(lib, opts, s, t, tp) == (s4, GoToNext);
    FirstChildOnly(lib, opts, s, cf, path);
    NoHookVisit(lib, opts, s4, cf, pl, false);
  }

  /** Without a hook, a visit of a node that only writes writes its output and goes on */
  lemma ContentVisit(lib: Library, opts: Options, s: State, n: Node, pl: Place, entering: bool)
    requires opts.hook.None? && At(n, pl) && Known(n.kind) && !Stateful(n.kind)
    ensures Visit(lib, opts, s, n, pl, entering) == (Emit(s, NodeOut(lib, opts, n, pl, entering)), GoToNext)
  {
    DispatchContent(lib, opts, s, n, pl, entering);
    assert Visit(lib, opts, s, n, pl, entering) == Dispatch(lib, opts, s, n, pl, entering);
  }

  /** Without a hook, a caption of one text writes the escaped text and `">` */
  lemma TextCaptionWalk(lib: Library, opts: Options, s: State, caption: Node, pl: Place, t: string)
    requires opts.hook.None? && pl.Child? && At(caption, pl) && PathOf(pl) + [0] !in s.consumed
    requires caption == Node(Caption, true, [Node(Text(t), false, [])])
    ensures Supported(opts, caption)
    ensures Walk(lib, opts, s, caption, pl) == (Emit(s, Put(lib.escapeHTML(t)) + Put("\">")), GoToNext)
  {
    var text := caption.children[0];
    var tp := Child(caption, 0, PathOf(pl));
    var written := Put(lib.escapeHTML(t)) + Put("\">");
    assert Supported(opts, text);
    ContentVisit(lib, opts, s, caption, pl, true);
    assert Emit(s, NodeOut(lib, opts, caption, pl, true)) == s;
    ContentVisit(lib, opts, s, text, tp, true);
    assert Walk(lib, opts, s, text, tp) == (Emit(s, written), GoToNext);
    assert WalkChildren(lib, opts, s, caption, PathOf(pl), 0) == (Emit(s, written), GoToNext);
    ContentVisit(lib, opts, Emit(s, written), caption, pl, false);
    assert Emit(Emit(s, written), []) == Emit(s, written);
  }

  /** Without a hook every node type the switch names renders */
  lemma CaptionedTableSupported(opts: Options, t: string)
    requires opts.hook.None?
    ensures Supported(opts, Node(CaptionFigure, true, [Node(Table([]), true, []), Node(Caption, true, [Node(Text(t), false, [])])]))
  {
    var caption := Node(Caption, true, [Node(Text(t), false, [])]);
    assert Supported(opts, caption.children[0]);
    assert Supported(opts, caption);
    assert Supported(opts, Node(Table([]), true, []));
  }

  /** A table with a caption of one text, rendered at the root without a hook: the caption's
      escaped text comes once, between ` title="` and the table's own content */
  lemma {:induction false} CaptionedTable(lib: Library, opts: Options, s: State, t: string)
    requires opts.hook.None? && s.consumed == {}
    ensures var caption := Node(Caption, true, [Node(Text(t), false, [])]);
      var cf := Node(CaptionFigure, true, [Node(Table([]), true, []), caption]);
      && Supported(opts, cf)
      && Walk(lib, opts, s, cf, Root).0.output
         == s.output + [Piece("<texttable"), Piece(" title=\"")] + Put(lib.escapeHTML(t))
            + [Piece("\">"), Piece("</texttable>")]
  {
    var caption := Node(Caption, true, [Node(Text(t), false, [])]);
    var table := Node(Table([]), true, []);
    var cf := Node(CaptionFigure, true, [table, caption]);
    var cp := Child(cf, 1, []);
    var s1 := Emit(Emit(s, Put("<texttable") + Put("")), Put(" title=\""));
    var written := Put(lib.escapeHTML(t)) + Put("\">");
    CaptionedTableSupported(opts, t);
    assert PathOf(cp) + [0] == [1, 0];
    TextCaptionWalk(lib, opts, s1, caption, cp, t);
    var s2 := Emit(s1, written).(consumed := {[1]});
    assert WalkChildren(lib, opts, s2, table, [0], 0) == (s2, GoToNext);
    assert PathOf(Root) + [0] == [0] && PathOf(Root) + [1] == [1];
    TableFigureWalk(lib, opts, s, cf, Root);
    assert s2.output == s.output + [Piece("<texttable"), Piece(" title=\"")] + Put(lib.escapeHTML(t)) + [Piece("\">")];
  }

  // ---------------------------------------------------------------- the dispatcher

  /** RenderNode's outcomes: a node the hook handled leaves the state alone and returns the
      hook's status; a skipped image writes nothing and skips its children; every other visit
      goes on to the next node */
  lemma VisitOutcome(lib: Library, opts: Options, s: State, n: Node, pl: Place, entering: bool)
    requires At(n, pl) && Renders(opts, n, entering)
    requires !Handled(opts, n, entering) ==> CaptionsReady(opts, n, pl, entering)
    ensures Handled(opts, n, entering) ==>
      Visit(lib, opts, s, n, pl, entering) == (s, opts.hook.value(n, entering).status)
    ensures !Handled(opts, n, entering) && n.kind.Image? && HasFlag(opts.flags, SkipImages) ==>
      Visit(lib, opts, s, n, pl, entering) == (s, SkipChildren)
    ensures !Handled(opts, n, entering) && !(n.kind.Image? && HasFlag(opts.flags, SkipImages)) ==>
      Visit(lib, opts, s, n, pl, entering).1 == GoToNext
  {
  }

  /** With SkipImages and no hook, an image renders whatever its alt text holds, node types the
      switch does not name included: the walk never enters it, and the image writes nothing */
  lemma SkippedImage(lib: Library, opts: Options, s: State, n: Node, pl: Place)
    requires opts.hook.None? && HasFlag(opts.flags, SkipImages) && n.kind.Image? && At(n, pl)
    ensures Supported(opts, n)
    ensures Walk(lib, opts, s, n, pl) == (s, GoToNext)
  {
    assert Visit(lib, opts, s, n, pl, true) == Dispatch(lib, opts, s, n, pl, true);
    assert Visit(lib, opts, s, n, pl, false) == Dispatch(lib, opts, s, n, pl, false);
  }

  /** Two quirks of the switch: link writes the same text on entering and on exiting, and
      listItemExit writes its closing tag whether or not the item is a reference link, whose
      entering writes nothing */
  lemma SwitchQuirks(lib: Library, opts: Options, n: Node, pl: Place, k: Kind)
    requires n.kind.Link? && k.ListItem?
    ensures NodeOut(lib, opts, n, pl, true) == NodeOut(lib, opts, n, pl, false)
    ensures k.hasRefLink ==> ListItemOut(k, true) == []
    ensures ListItemOut(k, false) == ListItemOut(k.(hasRefLink := !k.hasRefLink), false)
  {
  }

  // ---------------------------------------------------------------- emitters

  /** listEnter's attributes: a start attribute exactly for an ordered list with a positive
      start (whose digits read back as the start), then the node's attributes, then a default
      style only when neither already names one; the default style goes last in the tag */
  lemma {:induction false} ListTag(lib: Library, f: ListFlags, start: int, attrs: seq<string>)
    ensures StartAttrs(f, start) != [] <==> f.ordered && start > 0
    ensures f.ordered && start > 0 ==>
      var digits := DecimalString(start);
      StartAttrs(f, start) == ["start=\"" + digits + "\""] && DecimalValue(digits) == start
    ensures var a := StartAttrs(f, start) + attrs;
      && (lib.attributesContains("style", a) ==> ListAttrs(lib, f, start, attrs) == a)
      && (!lib.attributesContains("style", a) ==>
            var t := TagWithAttributes("<list", a);
            TagWithAttributes("<list", ListAttrs(lib, f, start, attrs)) == t[..|t| - 1] + " " + DefaultListStyle(f) + ">")
    ensures DefaultListStyle(f) == "style=\"hanging\"" <==> f.definition
  {
    if f.ordered && start > 0 {
      DecimalRoundTrip(start);
    }
    TagWithAttributesAppend("<list", StartAttrs(f, start) + attrs, DefaultListStyle(f));
    if !f.definition {
      assert DefaultListStyle(f)[7] != "style=\"hanging\""[7];
    }
  }

  /** The destinations of a citation that are not suppressed, in order */
  function CitedDestinations(dests: seq<string>, types: seq<CitationType>): seq<string>
    requires |dests| <= |types|
    decreases |dests|
  {
    if |dests| == 0 then []
    else
      var last := |dests| - 1;
      CitedDestinations(dests[..last], types) + (if types[last] == Suppressed then [] else [dests[last]])
  }

  /** `ps` is an <xref> to each of `cited` followed by its closing tag, in order */
  ghost predicate XrefPairs(ps: seq<string>, cited: seq<string>) {
    && |ps| == 2 * |cited|
    && forall i | 0 <= i < |cited| ::
         ps[2 * i] == TagWithAttributes("<xref", [TargetAttr(cited[i])]) && ps[2 * i + 1] == "</xref>"
  }

  lemma XrefPairsAppend(ps: seq<string>, cited: seq<string>, d: string)
    requires XrefPairs(ps, cited)
    ensures XrefPairs(ps + [TagWithAttributes("<xref", [TargetAttr(d)]), "</xref>"], cited + [d])
  {
    var ps' := ps + [TagWithAttributes("<xref", [TargetAttr(d)]), "</xref>"];
    var cited' := cited + [d];
    forall i | 0 <= i < |cited'|
      ensures ps'[2 * i] == TagWithAttributes("<xref", [TargetAttr(cited'[i])]) && ps'[2 * i + 1] == "</xref>"
    {
      if i < |cited| {
        assert cited'[i] == cited[i];
      }
    }
  }

  lemma CitationRefPieces(d: string, t: CitationType)
    ensures Pieces(CitationRef(d, t))
         == if t == Suppressed then [] else [TagWithAttributes("<xref", [TargetAttr(d)]), "</xref>"]
  {
    if t != Suppressed {
      var tag := TagWithAttributes("<xref", [TargetAttr(d)]);
      PiecesCons(Piece("</xref>"), []);
      PiecesCons(Piece(tag), [Piece("</xref>")]);
      assert CitationRef(d, t) == [Piece(tag), Piece("</xref>")];
    }
  }

  /** citation writes, for each destination that is not suppressed and in order, an <xref>
      to it and its closing tag, and nothing else */
  lemma {:induction false} CitationLinks(dests: seq<string>, types: seq<CitationType>)
    requires |dests| <= |types|
    ensures XrefPairs(Pieces(CitationOut(dests, types)), CitedDestinations(dests, types))
    decreases |dests|
  {
    if |dests| > 0 {
      var last := |dests| - 1;
      var init := dests[..last];
      CitationLinks(init, types);
      PiecesAppend(CitationOut(init, types), CitationRef(dests[last], types[last]));
      CitationRefPieces(dests[last], types[last]);
      if types[last] != Suppressed {
        XrefPairsAppend(Pieces(CitationOut(init, types)), CitedDestinations(init, types), dests[last]);
      }
    }
  }

  /** The artwork tags with and without a figure of their own */
  lemma ArtworkTags(attrs: seq<string>)
    ensures StartsWith(TagWithAttributes("<figure><artwork", attrs), "<figure>")
    ensures !StartsWith(TagWithAttributes("<artwork", attrs), "<figure>")
    ensures EndsWith("</artwork></figure>", "</figure>") && !EndsWith("</artwork>", "</figure>")
  {
    var t := TagWithAttributes("<artwork", attrs);
    assert t[1] == 'a';
    assert "</artwork>"[1..] != "</figure>";
  }

  /** A body between two tags, on a line of its own */
  lemma WrappedPieces(open: string, body: seq<Chunk>, close: string)
    ensures Pieces([NewLine] + ([Piece(open)] + (body + [Piece(close), NewLine])))
         == [open] + Pieces(body) + [close]
  {
    var tail := [Piece(close), NewLine];
    PiecesCons(NewLine, []);
    PiecesCons(Piece(close), [NewLine]);
    PiecesAppend(body, tail);
    PiecesCons(Piece(open), body + tail);
    PiecesCons(NewLine, [Piece(open)] + (body + tail));
  }

  lemma CodeBlockShape(lib: Library, opts: Options, k: Kind, pl: Place)
    requires k.CodeBlock?
    ensures var attrs := lib.appendLanguageAttr([], k.info) + k.attrs;
      var open := TagWithAttributes(if InCaptionFigure(pl) then "<artwork" else "<figure><artwork", attrs);
      var close := if InCaptionFigure(pl) then "</artwork>" else "</artwork></figure>";
      CodeBlockOut(lib, opts, k, pl)
        == [NewLine] + ([Piece(open)] + (Put(EscapeLiteral(lib, opts, k.literal)) + [Piece(close), NewLine]))
  {
  }

  lemma CodeBlockPieces(open: string, body: seq<Chunk>, close: string)
    ensures var ps := Pieces([NewLine] + ([Piece(open)] + (body + [Piece(close), NewLine])));
      |ps| >= 2 && ps[0] == open && ps[|ps| - 1] == close && ps[1..|ps| - 1] == Pieces(body)
  {
    WrappedPieces(open, body, close);
    var ps := [open] + Pieces(body) + [close];
    assert ps[1..|ps| - 1] == Pieces(body);
  }

  /** The opening tag starts a figure, and the closing tag ends one, exactly outside a figure */
  lemma ArtworkEnds(attrs: seq<string>, inFigure: bool)
    ensures var open := TagWithAttributes(if inFigure then "<artwork" else "<figure><artwork", attrs);
      var close := if inFigure then "</artwork>" else "</artwork></figure>";
      && (StartsWith(open, "<figure>") <==> !inFigure)
      && (EndsWith(close, "</figure>") <==> !inFigure)
  {
    ArtworkTags(attrs);
  }

  /** The artwork, in a figure of its own unless `inFigure` */
  lemma ArtworkPieces(attrs: seq<string>, body: seq<Chunk>, inFigure: bool)
    ensures var open := TagWithAttributes(if inFigure then "<artwork" else "<figure><artwork", attrs);
      var close := if inFigure then "</artwork>" else "</artwork></figure>";
      var ps := Pieces([NewLine] + ([Piece(open)] + (body + [Piece(close), NewLine])));
      && |ps| >= 2
      && (StartsWith(ps[0], "<figure>") <==> !inFigure)
      && (EndsWith(ps[|ps| - 1], "</figure>") <==> !inFigure)
      && ps[1..|ps| - 1] == Pieces(body)
  {
    var open := TagWithAttributes(if inFigure then "<artwork" else "<figure><artwork", attrs);
    var close := if inFigure then "</artwork>" else "</artwork></figure>";
    ArtworkEnds(attrs, inFigure);
    CodeBlockPieces(open, body, close);
  }

  /** codeBlock: outside a figure it opens and closes a figure of its own around the
      artwork, inside one it writes the artwork alone; between the tags comes only the escaped
      literal */
  lemma {:induction false} CodeBlockFigure(lib: Library, opts: Options, k: Kind, pl: Place)
    requires k.CodeBlock?
    ensures var ps := Pieces(CodeBlockOut(lib, opts, k, pl));
      && |ps| >= 2
      && (StartsWith(ps[0], "<figure>") <==> !InCaptionFigure(pl))
      && (EndsWith(ps[|ps| - 1], "</figure>") <==> !InCaptionFigure(pl))
      && ps[1..|ps| - 1] == Pieces(Put(EscapeLiteral(lib, opts, k.literal)))
  {
    CodeBlockShape(lib, opts, k, pl);
    ArtworkPieces(lib.appendLanguageAttr([], k.info) + k.attrs, Put(EscapeLiteral(lib, opts, k.literal)), InCaptionFigure(pl));
  }

  // ---------------------------------------------------------------- the whole document

  /** One rendering writes the header first and the footer last, never removes the root, and
      sets the title flag (and so writes </rfc>) only for a document with a Title node */
  lemma {:induction false} RenderFramesDocument(lib: Library, opts: Options, doc: Node)
    requires Supported(opts, doc)
    ensures var walked := Walk(lib, opts, Emit(Initial(), HeaderOut(opts)), doc, Root).0;
      var r := Render(lib, opts, doc);
      && HeaderOut(opts) <= walked.output
      && r.output == walked.output + lib.sectionClose(walked.section, None)
                     + FooterTail(walked.documentMatter, walked.title)
      && r.section == None
      && (forall p | p in r.consumed :: |p| > 0)
      && (!HasTitle(doc) ==> !r.title)
  {
    var start := Emit(Initial(), HeaderOut(opts));
    WalkExtends(lib, opts, start, doc, Root);
    assert start.output == HeaderOut(opts);
  }
}
