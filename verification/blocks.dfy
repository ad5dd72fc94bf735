/**
 * The admin dashboard's conversion between a plain description string and the
 * content management system's rich-text "blocks" structure
 * (app/dashboard/page.tsx, `textToBlocks` and `blocksToText`).
 *
 * A description is a list of root blocks; each block may carry a list of
 * inline children, and an inline child may carry a text. Missing pieces are
 * `None`, as the loosely typed JSON from the backend may omit them.
 */
module Blocks {
  import opened Common

  datatype Inline = Inline(kind: string, text: Option<string>)

  datatype Block = Block(kind: string, children: Option<seq<Inline>>)

  /** The rich-text value stored on a product; `None` stands for null/undefined. */
  type Description = Option<seq<Block>>

  /**
   * What evaluating `blocks[0]?.children[0]?.text` produces: it throws when
   * `blocks` itself or the first block's `children` is missing, yields
   * `undefined` when an optional step finds nothing, and otherwise the text.
   */
  datatype Probe = Threw | Undefined | Found(text: string)

  /** The first block exists, has a first child, and that child carries a text. */
  predicate HasFirstText(blocks: Description) {
    && blocks.Some? && |blocks.value| > 0
    && blocks.value[0].children.Some? && |blocks.value[0].children.value| > 0
    && blocks.value[0].children.value[0].text.Some?
  }

  function ProbeFirstText(blocks: Description): (p: Probe)
    ensures p.Found? <==> HasFirstText(blocks)
    ensures p.Found? ==> p.text == blocks.value[0].children.value[0].text.value
    ensures p.Threw? <==> blocks.None? || (|blocks.value| > 0 && blocks.value[0].children.None?)
  {
    match blocks
    case None => Threw
    case Some(bs) =>
      if |bs| == 0 then Undefined
      else match bs[0].children
        case None => Threw
        case Some(cs) =>
          if |cs| == 0 then Undefined
          else match cs[0].text
            case None => Undefined
            case Some(t) => Found(t)
  }

  /** One paragraph block whose single text child holds the whole string. */
  function TextToBlocks(text: string): (blocks: seq<Block>)
    ensures |blocks| == 1 && blocks[0].kind == "paragraph"
    ensures blocks[0].children == Some([Inline("text", Some(text))])
  {
    [Block("paragraph", Some([Inline("text", Some(text))]))]
  }

  /**
   * The text of the first child of the first block, or "" when that text is
   * missing, empty, or the lookup throws (the exception is caught).
   */
  function BlocksToText(blocks: Description): (text: string)
    ensures HasFirstText(blocks) ==> text == blocks.value[0].children.value[0].text.value
    ensures !HasFirstText(blocks) ==> text == ""
  {
    match ProbeFirstText(blocks)
    case Threw => ""
    case Undefined => ""
    case Found(t) => if t != "" then t else ""
  }

  /** Every string survives the trip into blocks and back. */
  lemma TextRoundTrip(text: string)
    ensures BlocksToText(Some(TextToBlocks(text))) == text
  {
  }

  /** A block list that came from `TextToBlocks` survives the trip out and back in. */
  lemma BlocksRoundTrip(blocks: seq<Block>, text: string)
    requires blocks == TextToBlocks(text)
    ensures TextToBlocks(BlocksToText(Some(blocks))) == blocks
  {
    TextRoundTrip(text);
  }

  /** Nothing but the first child of the first block is read. */
  lemma OnlyFirstChildRead(kind: string, first: Inline, otherChildren: seq<Inline>,
                           otherKind: string, otherBlocks: seq<Block>)
    ensures BlocksToText(Some([Block(kind, Some([first] + otherChildren))] + otherBlocks))
         == BlocksToText(Some([Block(otherKind, Some([first]))]))
  {
  }

  /** The empty cases: no list, an empty list, a first block without children or without text. */
  lemma EmptyCases(blocks: Description)
    requires || blocks.None?
             || blocks.value == []
             || blocks.value[0].children.None?
             || blocks.value[0].children.value == []
             || blocks.value[0].children.value[0].text.None?
    ensures BlocksToText(blocks) == ""
  {
  }

  /**
   * Text held in a second paragraph is lost: converting such a description
   * to a string and back does not reproduce it.
   */
  lemma LaterBlocksAreDropped()
    ensures var two := [Block("paragraph", Some([Inline("text", Some("a"))])),
                        Block("paragraph", Some([Inline("text", Some("b"))]))];
            BlocksToText(Some(two)) == "a" && TextToBlocks(BlocksToText(Some(two))) != two
  {
  }
}
