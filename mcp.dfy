/** The result envelope every tool handler returns to the protocol server. */
module Mcp {

  /** One entry of `content`: its `type` tag and its `text`. */
  datatype Block = Block(kind: string, text: string)

  /** `{ content: [...] }`. */
  datatype ToolResult = ToolResult(content: seq<Block>)

  /** Exactly one content block, and it is of type `text`. */
  predicate IsSingleText(r: ToolResult) {
    |r.content| == 1 && r.content[0].kind == "text"
  }

  /** The text of a single-block result. */
  function TextOf(r: ToolResult): string
    requires |r.content| >= 1
  {
    r.content[0].text
  }

  /** The envelope `{ content: [{ type: 'text', text }] }`. */
  function TextResult(text: string): (r: ToolResult)
    ensures IsSingleText(r) && TextOf(r) == text
  {
    ToolResult([Block("text", text)])
  }

  /** Two envelopes built by TextResult are equal exactly when their texts are. */
  lemma TextResultInjective(a: string, b: string)
    ensures TextResult(a) == TextResult(b) <==> a == b
  {
    if TextResult(a) == TextResult(b) {
      assert TextOf(TextResult(a)) == TextOf(TextResult(b));
    }
  }
}
