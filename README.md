# xml2 renderer of mmark, in Dafny

This project models the XML2 renderer of mmark (`xml2/renderer.go`). The renderer walks a parsed markdown tree once, in document order, and writes xml2rfc "v2" XML. It closes and opens structural elements as it goes:
- `<front>`, `<middle>` and `<back>` regions;
- `<section>`, `<note>` and `<abstract>` for headings;
- `<figure>` and `<texttable>`, with their captions pulled into a `title="` attribute.

The project has five modules:

- `Ast` (ast.dfy): the node tree, with one `Kind` per node type the renderer's switch names.
  - A node is located by a `Place`: its parent, its index there, and the path of child indices from the root.
  - That path is also the node's identity.
- `Markup` (markup.dfy): the output and the string builders.
  - The output is a sequence of `Chunk`s. A chunk is a written string or the line break `cr` asks for. An empty write leaves no trace.
  - It also defines `strings.Join`, `tagWithAttributes`, and the decimal text `%d` prints.
- `Xml2` (xml2_spec.dfy): the renderer as functions on a `State` value.
  - `State` holds the Renderer's fields (`documentMatter`, `section`, `title`, `headingIDs`), the output so far, and the set of caption paths removed from the tree.
  - It has one function per emitter and the dispatcher `Visit` (RenderNode).
  - `Walk` is the depth-first walk that RenderNode is driven by. captionFigure and table restart it on a caption subtree.
- `Xml2Renderer` (xml2_renderer.dfy): `class Renderer`, whose methods write to the output and update the fields step by step, as the Go methods do.
  - Each method is proved to produce what the matching `Xml2` function says.
  - Output-only methods state `output == old(output) + ...`.
  - Methods that change other fields state `Abs() == Step(old(Abs()))`.
- `Xml2Properties` (xml2_properties.dfy): what the source promises, proved about the `Xml2` functions and so about the class.

Collaborators that `xml2/renderer.go` calls but does not define are the function-valued fields of `Xml2.Library`:
- `html.EscapeHTML`, `xml.Is2119`, `xml.IsAbstract` and `xml.AttributesContains`;
- the renderer's own helpers from other files: the bytes `sectionClose` writes, `ensureUniqueHeadingID`, `EscapeHTMLCallouts`, `appendLanguageAttr`, `titleBlock`, `bibliography` and `bibliographyItem`.

The writers `outs`, `out`, `cr`, `outOneOf`, `outOneOfCr` and `outTag` are also defined elsewhere. The class implements them as the methods `Outs`, `Cr`, `OutOneOf`, `OutOneOfCr` and `OutTag`, with the effect their uses imply.

## Behaviour of the code worth knowing

- captionFigure writes ` title="` whether or not the figure has a caption.
- An abstract heading goes through `heading`, so `sectionClose` records it as the open section like any other heading.
- The output is the v2 vocabulary of RFC 7749 (`<texttable>`, `<spanx>`, `<list>`, a DOCTYPE for `rfc2629.dtd`), not the vocabulary of RFC 7991.

## Model

| member | source | states |
|---|---|---|
| Xml2Renderer.Renderer.constructor | xml2/renderer.go:57-60 | a new renderer has no region, no open section, no title, no heading IDs and has written nothing |
| Xml2Renderer.Renderer.RenderText | xml2/renderer.go:62-82 | text under a link is written raw; under an abstract heading nothing; under a heading or caption escaped and followed by `">`; elsewhere escaped |
| Xml2Renderer.Renderer.RenderHardBreak | xml2/renderer.go:84-87 | writes `<vspace />` and a line break |
| Xml2Renderer.Renderer.RenderStrong | xml2/renderer.go:89-101 | a strong node whose first child is RFC 2119 keyword text writes no tags; otherwise `<spanx style="strong">` / `</spanx>` |
| Xml2Renderer.Renderer.RenderMatter | xml2/renderer.go:103-127 | the new state is `MatterStep`: section closed, region tags written, region recorded |
| Xml2Renderer.Renderer.WriteMatterTags | xml2/renderer.go:106-125 | writes the line-broken region tags of the matter, nothing for an unknown one |
| Xml2Properties.MatterOpensRegion | xml2/renderer.go:103-127 | matter closes the open section first, then writes exactly `<front>`, or `</front>` `<middle>`, or `</middle>` `<back>`; records the region and changes nothing else |
| Xml2Renderer.Renderer.HeadingEnter | xml2/renderer.go:129-158 | the new state is `HeadingEnterStep` |
| Xml2Properties.AbstractHeading | xml2/renderer.go:132-138 | an abstract writes a line break and `<abstract>` only, with no anchor, and leaves the heading IDs alone |
| Xml2Properties.SectionHeading | xml2/renderer.go:131-157 | any other heading writes `<note` (special) or `<section`, then text that carries ` anchor="<unique id>"` exactly when the heading has an ID and always ends with ` title="`; the unique ID's map replaces the heading IDs exactly when there is an ID |
| Xml2Renderer.Renderer.HeadingExit | xml2/renderer.go:160-162 | writes a line break only |
| Xml2Renderer.Renderer.RenderHeading | xml2/renderer.go:164-173 | the new state is `HeadingStep` |
| Xml2Properties.HeadingOpensSection | xml2/renderer.go:164-173 | entering closes the open section before writing anything else and makes the heading the open section; region, title and removed nodes are unchanged; exiting writes a line break only |
| Xml2Renderer.Renderer.RenderCitation | xml2/renderer.go:175-188 | entering writes `CitationOut` of the destinations, exiting nothing |
| Xml2Properties.CitationLinks | xml2/renderer.go:175-188 | the pieces written are, for each destination that is not suppressed and in order, `<xref target="d">` followed by `</xref>`, and nothing else |
| Xml2Renderer.Renderer.ParagraphEnter | xml2/renderer.go:190-205 | in a list item only a hard break before every paragraph but the first of several; elsewhere `<t` with the block attributes |
| Xml2Renderer.Renderer.ParagraphExit | xml2/renderer.go:207-215 | nothing in a list item; elsewhere `</t>` and a line break |
| Xml2Renderer.Renderer.RenderParagraph | xml2/renderer.go:217-223 | the enter or exit output, by direction |
| Xml2Renderer.Renderer.ListEnter | xml2/renderer.go:225-253 | footnotes wrapper if a footnotes list, a line break, `<list` with `ListAttrs`, a line break |
| Xml2Properties.ListTag | xml2/renderer.go:234-250 | a start attribute exactly for an ordered list with positive start, whose digits read back as the start; the default style only when no attribute names a style, then as the last attribute; the style is hanging exactly for a definition list |
| Xml2Renderer.Renderer.ListExit | xml2/renderer.go:255-278 | `</list>`, a line break chosen by the parent (list item with a next sibling, document, block quote, aside), the footnotes closer |
| Xml2Renderer.Renderer.RenderList | xml2/renderer.go:280-294 | outside a list item the list is wrapped in the output of a parentless paragraph |
| Xml2Renderer.Renderer.ListItemEnter | xml2/renderer.go:296-309 | nothing for a reference link; otherwise `<t hangText="` for a term, `<vspace />` for a definition, `<t>` else |
| Xml2Renderer.Renderer.ListItemExit | xml2/renderer.go:311-318 | `">` for a term, `</t>` else, then a line break |
| Xml2Renderer.Renderer.RenderListItem | xml2/renderer.go:320-326 | the enter or exit output, by direction |
| Xml2Properties.SwitchQuirks | xml2/renderer.go:296-318 | link writes the same text both ways (417-422); a reference-link item writes nothing entering but its closing tag exiting |
| Xml2Renderer.Renderer.EscapeLiteral | xml2/renderer.go:341-345 | the callout-aware escaper exactly when comment markers are configured, `html.EscapeHTML` otherwise |
| Xml2Renderer.Renderer.RenderCodeBlock | xml2/renderer.go:328-352 | the new output is `CodeBlockOut` |
| Xml2Properties.CodeBlockFigure | xml2/renderer.go:328-352 | outside a caption figure the artwork is wrapped in a figure of its own, opened and closed; inside one it is not; between the tags comes only the escaped literal |
| Xml2Renderer.Renderer.RenderTableCell | xml2/renderer.go:354-375 | exit: `</ttcol>` or `</c>` and a line break; enter: a line break for a first cell, then `<ttcol` or `<c` with an align attribute when the alignment is set |
| Xml2Renderer.Renderer.RenderHTMLSpan | xml2/renderer.go:381-385 | the literal, unless SkipHTML is set |
| Xml2Renderer.Renderer.RenderCallout | xml2/renderer.go:387-391 | the ID in an emphasised spanx |
| Xml2Renderer.Renderer.RenderCrossReference | xml2/renderer.go:393-399 | `<xref target="d">` entering, `</xref>` exiting |
| Xml2Renderer.Renderer.RenderIndex | xml2/renderer.go:401-415 | `<iref item="...">`, with primary and subitem attributes exactly when set, closed by `</iref>` |
| Xml2Renderer.Renderer.RenderLink | xml2/renderer.go:417-422 | `<eref target="...">` closed by `</iref>`, on both visits |
| Xml2Renderer.Renderer.ImageEnter | xml2/renderer.go:432-437 | `<img src="` escaped destination `" alt="` |
| Xml2Renderer.Renderer.ImageExit | xml2/renderer.go:439-445 | `" name="` and the escaped title when there is a title, then `" />` |
| Xml2Renderer.Renderer.RenderImage | xml2/renderer.go:424-430 | the enter or exit output, by direction |
| Xml2Renderer.Renderer.RenderCode | xml2/renderer.go:447-451 | the escaped literal in a verbatim spanx |
| Xml2Renderer.Renderer.RenderMathBlock | xml2/renderer.go:453-462 | a math artwork around the escaped literal, then a line break |
| Xml2Renderer.Renderer.ContainsTable | xml2/renderer.go:467-471 | true exactly when some child is a table |
| Xml2Renderer.Renderer.RenderCaptionFigure | xml2/renderer.go:464-492 | the new state is `CaptionFigureStep` |
| Xml2Renderer.Renderer.RenderCaption | xml2/renderer.go:482-489 | the caption is walked, then removed from the tree |
| Xml2Properties.CaptionFigureShape | xml2/renderer.go:464-478 | with a table child nothing changes on either visit; without one, exiting writes `</figure>` only |
| Xml2Properties.CaptionFigureEffect | xml2/renderer.go:480-491 | entering writes `<figure` ` title="`, then every caption child ends up removed from the tree and no other child is removed (what the captions write: FigureWalk) |
| Xml2Renderer.Renderer.RenderTable | xml2/renderer.go:494-529 | the new state is `TableStep` |
| Xml2Properties.TableOutsideFigure | xml2/renderer.go:494-514 | exiting writes `</texttable>`; entering outside a figure writes `<texttable`, the attributes and `>`, and removes nothing |
| Xml2Properties.TableInFigure | xml2/renderer.go:516-528 | inside a figure: ` title="` after the attributes, then the first caption still in the tree is removed, and no other child of the figure is (what the caption writes: TableFigureWalk) |
| Xml2Properties.FigureWalk | xml2/renderer.go:464-492 | the walk of a figure of a block and its caption writes `<figure title="`, then exactly the caption's own rendering, after which the caption is removed, then the block's rendering, then `</figure>`; the figure's walk does not visit the caption a second time |
| Xml2Properties.TableFigureWalk | xml2/renderer.go:494-529 | the walk of a figure of a table and its caption writes nothing for the figure, `<texttable`, the attributes and ` title="`, then exactly the caption's own rendering, after which the caption is removed, then the rows, then `</texttable>`; the caption is not visited a second time |
| Xml2Properties.CaptionedTable | xml2/renderer.go:494-529 | a table with the caption text `t` renders as `<texttable`, ` title="`, the escaped `t`, `">`, `</texttable>` |
| Xml2Properties.WalkGoesOn | xml2/renderer.go:532-631 | without a hook no visit answers Terminate, so every walk goes on to the next node |
| Xml2Renderer.Renderer.RenderContent | xml2/renderer.go:539-631 | every node type that only writes produces its `NodeOut` |
| Xml2Renderer.Renderer.RenderSpan | xml2/renderer.go:551-564 | text, breaks, emphasis, strong, deletion, math and code produce their `NodeOut` |
| Xml2Renderer.Renderer.RenderReference | xml2/renderer.go:608-615 | callouts, citations, cross references, index entries, links and HTML spans produce their `NodeOut` |
| Xml2Renderer.Renderer.RenderTablePart | xml2/renderer.go:585-601 | caption, cells, header, body, rows and footer produce their `NodeOut` |
| Xml2Renderer.Renderer.RenderBlock | xml2/renderer.go:573-584 | document, bibliography, generated index, paragraphs, HTML blocks, lists, list items, code blocks, quotes, asides and math blocks produce their `NodeOut` |
| Xml2Renderer.Renderer.RenderNode | xml2/renderer.go:532-631 | the new state and the status are `Visit`: the hook first, then the switch; it may be called on any node the switch names, whatever its children, and needs supported children only where it walks a caption |
| Xml2.Visit | xml2/renderer.go:532-631 | an entering visit answers GoToNext exactly when it does not keep the walk out of the node's children (`SkipsChildren`: the hook said so, or an image under SkipImages) |
| Xml2.Dispatch | xml2/renderer.go:539-631 | the switch never answers Terminate, and answers SkipChildren exactly for an image under SkipImages (618-621) |
| Xml2Renderer.Renderer.RenderSwitch | xml2/renderer.go:539-631 | the new state and the status are `Dispatch`; a caption figure without a table needs supported children when entered, a table in a caption figure needs the figure's, nothing else reads children |
| Xml2Properties.SkippedImage | xml2/renderer.go:618-621 | under SkipImages an image renders whatever its alt text holds (node types the switch does not name included) and writes nothing |
| Xml2Properties.VisitOutcome | xml2/renderer.go:533-538 | a handled node leaves the state alone and returns the hook's status; with SkipImages an image writes nothing and skips its children (618-621); every other visit returns GoToNext |
| Xml2Renderer.Renderer.Walk | xml2/renderer.go:482-484 | the new state and the status are `Xml2.Walk`: a container entered and exited, a leaf once, removed children skipped, Terminate honoured; it requires only that the nodes the walk reaches render (`Supported`), not the children of a skipped node |
| Xml2Properties.WalkExtends | xml2/renderer.go:532-631 | a walk only appends to the output, only removes nodes (and only below the node, or the figure of a table), never clears the title flag, and sets it only when a Title node lies in scope (542-544) |
| Xml2Properties.WalkChildrenExtends | xml2/renderer.go:482-491 | the same for the walk over the children of a node |
| Xml2Properties.VisitExtends | xml2/renderer.go:532-631 | the same for one visit |
| Xml2Properties.DispatchExtends | xml2/renderer.go:539-631 | the same for the switch |
| Xml2Properties.CaptionFigureExtends | xml2/renderer.go:464-492 | the same for captionFigure |
| Xml2Properties.RenderCaptionsExtends | xml2/renderer.go:482-490 | the same for its caption loop |
| Xml2Properties.WalkCaptionExtends | xml2/renderer.go:483-488 | walking a caption removes it and otherwise only nodes below it |
| Xml2Properties.TableExtends | xml2/renderer.go:494-529 | the same for table |
| Xml2Properties.RenderFirstCaptionExtends | xml2/renderer.go:519-528 | the same for its caption loop |
| Xml2Properties.RenderCaptionsRemoves | xml2/renderer.go:482-490 | the caption loop from child j removes every caption child from j on, and what it removes lies under a later child that is a caption |
| Xml2Properties.RenderFirstCaptionRemoves | xml2/renderer.go:519-528 | the table's loop removes the first caption still in the tree and no other child |
| Xml2Renderer.Renderer.WriteDocumentHeader | xml2/renderer.go:660-670 | nothing for a fragment, otherwise the three preamble lines |
| Xml2Renderer.Renderer.RenderHeader | xml2/renderer.go:634-640 | the header output |
| Xml2Properties.HeaderShape | xml2/renderer.go:634-670 | the header is empty exactly for a fragment, otherwise the XML declaration, the generator comment and the DOCTYPE, in that order |
| Xml2Renderer.Renderer.RenderFooter | xml2/renderer.go:643-658 | the new state is `FooterStep` |
| Xml2Properties.FooterClosesRegion | xml2/renderer.go:643-658 | closes the section first, then exactly one closing tag for the region (none outside one), then `</rfc>` exactly when a title was rendered |
| Xml2Properties.RenderFramesDocument | xml2/renderer.go:542-544 | a whole rendering starts with the header, ends with the footer, never removes the root, and sets the title flag (so writes `</rfc>`) only for a tree with a Title node |
| Markup.TagWithAttributes | xml2/renderer.go:672-678 | the tag starts with the name and ends with `>`, and is the name and `>` alone exactly when there are no attributes |
| Markup.TagWithAttributesAppend | xml2/renderer.go:672-678 | one more attribute goes, after a space, just before the closing `>` |
| Markup.DecimalRoundTrip | xml2/renderer.go:240-242 | the digits of the `start` attribute read back as the number |

## Left out

- I/O: the `io.Writer` and write errors are not modelled. The output is a sequence of chunks, and the exact bytes of a line break are not modelled.
- The bodies of the helpers named above, which are defined outside `xml2/renderer.go`, are not part of this model. They are uninterpreted functions.
- `outTag` is assumed to write `tagWithAttributes` of its arguments, and `outOneOfCr` to put its line break before the opening text and after the closing one.
- `sectionClose` is assumed to record its argument as the open section; what it writes is uninterpreted.
- Xml2Renderer.Renderer.EnsureUniqueHeadingID: uniqueness of the IDs is not proved, because `ensureUniqueHeadingID` is not part of this model.
- `html.IDTag = "anchor"` in NewRenderer sets a global of another package and is not modelled.
- `html.BlockAttrs` and `Align.String()` are not modelled; their results are carried on the node.
- The hook may write to the writer; what it writes is not modelled, only its status and whether it handled the node.
- `panic` on an unknown node type (and on a citation with fewer types than destinations) is a precondition (`Supported`), not an error result.
- Xml2Renderer.Renderer.Walk: `Supported` asks every child of a node whose children the walk enters to render, including children after one whose walk answered Terminate, which Go never reaches. It also asks a container's exiting visit to render although a Terminate from its children skips that visit. Those inputs (a hook answering Terminate on a subtree followed by a node type the switch does not name) are excluded.
- Removal from the tree is modelled as a set of removed paths that the walk skips; `ast.RemoveFromTree` is not part of this model. If it shifts the parent's children in place in the slice a `range` is reading (xml2/renderer.go:482, 519, and the walk over the figure's children), Go's loop can skip the child right after a removed caption and reach the last child twice, and the walk can reach a removed caption again. The model does neither: Xml2Properties.CaptionFigureEffect, Xml2Properties.RenderCaptionsRemoves, Xml2Properties.FigureWalk and Xml2Properties.TableFigureWalk state the behaviour without that aliasing.
- Xml2Properties.FigureWalk, Xml2Properties.TableFigureWalk: the end-to-end output is proved for a figure of one block (or one table) and one caption, the shape a figure caption produces, and for a rendering without a hook; other shapes are covered only by the removal and frame lemmas.
- The walk driver is the library's `ast.Walk`, which is not part of this model. `Xml2.Walk` follows its contract: a container is entered and exited, a leaf is visited once, SkipChildren skips the children, and Terminate stops the walk.
- Xml2Properties.WalkExtends: states that the output grows and the title flag is set only under a Title node. It does not prove the converse, that every Title node reached sets the flag.
- Xml2Renderer.Renderer.RenderContent: the Go switch is one method. The class splits it into RenderSpan, RenderReference, RenderTablePart and RenderBlock to keep each proof small.
- `Flags` are a Go `int`, modelled as 64 bits. Only the bits the renderer tests are used.
