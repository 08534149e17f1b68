/**
 * Turning the completion endpoint's content blocks into the one result
 * string the handler returns.
 */
module Extraction {
  import opened Wrappers
  import opened JsValues

  /**
   * One content block of the reply: its `type` tag and its `text` and
   * `thinking` fields, either of which a block may lack.
   */
  datatype Block = Block(kind: string, text: Option<string>, thinking: Option<string>)

  /** What the loop appends for one block. */
  function Piece(block: Block): string {
    if block.kind == "text" then Appended(block.text)
    else if block.kind == "thinking" then Appended(block.thinking)
    else ""
  }

  function TextBlock(s: string): Block {
    Block("text", Some(s), None)
  }

  function ThinkingBlock(s: string): Block {
    Block("thinking", None, Some(s))
  }

  /** The result after processing `blocks` from first to last. */
  function Extracted(blocks: seq<Block>): string
    decreases |blocks|
  {
    if |blocks| == 0 then ""
    else Extracted(blocks[..|blocks| - 1]) + Piece(blocks[|blocks| - 1])
  }

  /** The extraction loop: appends each block's piece, in order, to an initially empty result. */
  method ExtractResult(content: seq<Block>) returns (result: string)
    ensures result == Extracted(content)
  {
    result := "";
    var i := 0;
    while i < |content|
      invariant 0 <= i <= |content|
      invariant result == Extracted(content[..i])
    {
      var block := content[i];
      if block.kind == "text" {
        result := result + Appended(block.text);
      } else if block.kind == "thinking" {
        result := result + Appended(block.thinking);
      }
      assert content[..i + 1][..i] == content[..i];
      i := i + 1;
    }
    assert content[..i] == content;
  }

  /** One more block appends exactly that block's piece to the result so far. */
  lemma ExtractedSnoc(before: seq<Block>, block: Block)
    ensures Extracted(before + [block]) == Extracted(before) + Piece(block)
  {
    assert (before + [block])[..|before|] == before;
  }

  /** Extraction of two runs of blocks is the extraction of the first followed by that of the second. */
  lemma {:induction false} ExtractedAppend(a: seq<Block>, b: seq<Block>)
    ensures Extracted(a + b) == Extracted(a) + Extracted(b)
    decreases |b|
  {
    if |b| == 0 {
      assert a + b == a;
      assert Extracted(a) + "" == Extracted(a);
    } else {
      var front := b[..|b| - 1];
      var last := b[|b| - 1];
      assert b == front + [last];
      assert a + b == (a + front) + [last];
      ExtractedSnoc(a + front, last);
      ExtractedSnoc(front, last);
      ExtractedAppend(a, front);
      assert Extracted(a) + (Extracted(front) + Piece(last))
          == (Extracted(a) + Extracted(front)) + Piece(last);
    }
  }

  /** Front-to-back reference definition: the first block's piece, then the rest. */
  function ExtractedFromFront(blocks: seq<Block>): string
    decreases |blocks|
  {
    if |blocks| == 0 then "" else Piece(blocks[0]) + ExtractedFromFront(blocks[1..])
  }

  /** The loop's back-to-front fold equals the front-to-back concatenation of pieces. */
  lemma {:induction false} ExtractedIsConcatenationOfPieces(blocks: seq<Block>)
    ensures Extracted(blocks) == ExtractedFromFront(blocks)
    decreases |blocks|
  {
    if |blocks| > 0 {
      assert blocks == [blocks[0]] + blocks[1..];
      ExtractedAppend([blocks[0]], blocks[1..]);
      assert [blocks[0]][..0] == [];
      ExtractedIsConcatenationOfPieces(blocks[1..]);
    }
  }

  /** A block of any other type contributes nothing, wherever it stands. */
  lemma IgnoredBlockAddsNothing(before: seq<Block>, block: Block, after: seq<Block>)
    requires block.kind != "text" && block.kind != "thinking"
    ensures Extracted(before + [block] + after) == Extracted(before + after)
  {
    ExtractedAppend(before + [block], after);
    ExtractedSnoc(before, block);
    assert Extracted(before + [block]) == Extracted(before);
    ExtractedAppend(before, after);
  }

  /** A text block without a `text` field appends the word "undefined". */
  lemma MissingTextAppendsUndefined(before: seq<Block>, thinking: Option<string>)
    ensures Extracted(before + [Block("text", None, thinking)]) == Extracted(before) + "undefined"
  {
    ExtractedSnoc(before, Block("text", None, thinking));
  }

  /** A thinking block without a `thinking` field appends the word "undefined". */
  lemma MissingThinkingAppendsUndefined(before: seq<Block>, text: Option<string>)
    ensures Extracted(before + [Block("thinking", text, None)]) == Extracted(before) + "undefined"
  {
    ExtractedSnoc(before, Block("thinking", text, None));
  }

  /** A text block appends its `text` alone, whatever its `thinking` field holds, and vice versa. */
  lemma PresentPayloadAppended(before: seq<Block>, payload: string, other: Option<string>)
    ensures Extracted(before + [Block("text", Some(payload), other)]) == Extracted(before) + payload
    ensures Extracted(before + [Block("thinking", other, Some(payload))]) == Extracted(before) + payload
  {
    ExtractedSnoc(before, Block("text", Some(payload), other));
    ExtractedSnoc(before, Block("thinking", other, Some(payload)));
  }

  /** Blocks none of which is of type "text" or "thinking" give the empty result. */
  lemma {:induction false} UntaggedBlocksGiveEmpty(blocks: seq<Block>)
    requires forall i :: 0 <= i < |blocks| ==> blocks[i].kind != "text" && blocks[i].kind != "thinking"
    ensures Extracted(blocks) == ""
    decreases |blocks|
  {
    if |blocks| > 0 {
      UntaggedBlocksGiveEmpty(blocks[..|blocks| - 1]);
    }
  }

  /** Text and thinking payloads are kept in block order. */
  lemma ExtractedExample()
    ensures Extracted([TextBlock("A"), ThinkingBlock("B"), TextBlock("C")]) == "ABC"
  {
    var blocks := [TextBlock("A"), ThinkingBlock("B"), TextBlock("C")];
    assert blocks[..2] == [TextBlock("A"), ThinkingBlock("B")];
    assert blocks[..2][..1] == [TextBlock("A")];
    assert blocks[..2][..1][..0] == [];
    assert Extracted(blocks[..2][..1]) == "A";
    assert Extracted(blocks[..2]) == "AB";
  }
}
