/**
 * The product enumeration and the shape of a product's configuration.
 * The table of prompt texts itself is not modelled: callers receive it as
 * a function from product to configuration, expected to give a positive
 * token budget and a temperature in [0, 2].
 */
module Products {
  import opened Wrappers

  datatype ProductType = Chatbot | WritingHelper | CodeReviewer | SupportBot | ContentSummarizer
  {
    /** The enum member's string value. */
    function Value(): string
    {
      match this
      case Chatbot => "chatbot"
      case WritingHelper => "writing_helper"
      case CodeReviewer => "code_reviewer"
      case SupportBot => "support_bot"
      case ContentSummarizer => "content_summarizer"
    }
  }

  /** `ProductType(v)`: the member whose value is `v`, or None where Python raises ValueError. */
  function ProductOf(v: string): (r: Option<ProductType>)
    ensures r.Some? ==> r.value.Value() == v
    ensures r.None? ==> forall p: ProductType :: p.Value() != v
  {
    if v == "chatbot" then Some(Chatbot)
    else if v == "writing_helper" then Some(WritingHelper)
    else if v == "code_reviewer" then Some(CodeReviewer)
    else if v == "support_bot" then Some(SupportBot)
    else if v == "content_summarizer" then Some(ContentSummarizer)
    else None
  }

  /** Every product value is recovered by `ProductOf` and contains no ':'. */
  lemma ValueFacts(p: ProductType)
    ensures ProductOf(p.Value()) == Some(p)
    ensures ':' !in p.Value() && p.Value() != ""
  {
  }

  /** The members in declaration order, which is also the order of the product table. */
  const AllProducts: seq<ProductType> := [Chatbot, WritingHelper, CodeReviewer, SupportBot, ContentSummarizer]

  /** A product's configuration; the prompt-variant tag is not modelled. */
  datatype ProductConfig = ProductConfig(
    name: string,
    description: string,
    systemPrompt: string,
    version: string,
    maxTokens: int,
    temperature: real)

  predicate WellFormedConfig(c: ProductConfig)
  {
    c.maxTokens > 0 && 0.0 <= c.temperature <= 2.0
  }
}
