/**
 * The records and the per-thread state of the financial RAG pipeline
 * (app/assistant/controller/state_service.py).
 */
module State {
  import opened Wrappers

  /** The five company tickers the metadata filter may name. */
  datatype Ticker = AAPL | MSFT | GOOG | AMZN | META

  /** The two filing sections the metadata filter may name. */
  datatype Category = Risks | ManagementDis

  /** The literal string value a ticker has in the document store. */
  function TickerValue(t: Ticker): string
  {
    match t
    case AAPL => "AAPL"
    case MSFT => "MSFT"
    case GOOG => "GOOG"
    case AMZN => "AMZN"
    case META => "META"
  }

  /** Validation of the `company` literal: only the five ticker strings are accepted. */
  function ParseTicker(s: string): (r: Option<Ticker>)
    ensures r.Some? ==> TickerValue(r.value) == s
  {
    if s == "AAPL" then Some(AAPL)
    else if s == "MSFT" then Some(MSFT)
    else if s == "GOOG" then Some(GOOG)
    else if s == "AMZN" then Some(AMZN)
    else if s == "META" then Some(META)
    else None
  }

  /** The literal string value a category has in the document store. */
  function CategoryValue(c: Category): string
  {
    match c
    case Risks => "risks"
    case ManagementDis => "management_dis"
  }

  /** Validation of the `category` literal: only the two category strings are accepted. */
  function ParseCategory(s: string): (r: Option<Category>)
    ensures r.Some? ==> CategoryValue(r.value) == s
  {
    if s == "risks" then Some(Risks)
    else if s == "management_dis" then Some(ManagementDis)
    else None
  }

  /** Every ticker validates to itself, and nothing outside the five strings validates. */
  lemma TickerLiterals(t: Ticker, s: string)
    ensures ParseTicker(TickerValue(t)) == Some(t)
    ensures ParseTicker(s).Some? <==> s in {"AAPL", "MSFT", "GOOG", "AMZN", "META"}
  {
    match t
    case AAPL =>
    case MSFT =>
    case GOOG =>
    case AMZN =>
    case META =>
  }

  /** Every category validates to itself, and nothing outside the two strings validates. */
  lemma CategoryLiterals(c: Category, s: string)
    ensures ParseCategory(CategoryValue(c)) == Some(c)
    ensures ParseCategory(s).Some? <==> s in {"risks", "management_dis"}
  {
    match c
    case Risks =>
    case ManagementDis =>
  }

  /** The metadata filter: each field is unset (`None`) or one value of its enumeration. */
  datatype Metadata = Metadata(company: Option<Ticker>, category: Option<Category>)

  /** `Metadata()`: both fields default to unset, i.e. no constraint. */
  const NoFilter: Metadata := Metadata(None, None)

  /** `model_dump()` of a filter: one (key, value) item per field, in declaration order. */
  function Dump(m: Metadata): (items: seq<(string, Option<string>)>)
    ensures |items| == 2 && items[0].0 == "company" && items[1].0 == "category"
    ensures items[0].1.Some? <==> m.company.Some?
    ensures items[1].1.Some? <==> m.category.Some?
  {
    [("company", if m.company.Some? then Some(TickerValue(m.company.value)) else None),
     ("category", if m.category.Some? then Some(CategoryValue(m.category.value)) else None)]
  }

  /** The query construction: the filter defaults to `NoFilter`, the refined query has no default. */
  datatype QueryConstruct = QueryConstruct(filter: Metadata, refinedQuery: string)

  /** A conversation message: a human turn or an AI turn. */
  datatype Message = HumanMessage(content: string) | AIMessage(content: string)

  /** `messages[-1].content`: the latest message, which every node takes as the query. */
  function LatestQuery(messages: seq<Message>): string
    requires |messages| > 0
  {
    messages[|messages| - 1].content
  }

  /** A stored snapshot of the state of one conversation thread. */
  datatype Checkpoint = Checkpoint(
    messages: seq<Message>,
    structuredQuery: Option<QueryConstruct>,
    sourceDocuments: seq<string>,
    cacheHit: bool)

  /** The snapshot of a thread that has no checkpoint yet: every key absent. */
  const EmptyCheckpoint: Checkpoint := Checkpoint([], None, [], false)

  /**
   * The state dictionary the graph nodes update in place. A key that is absent reads as
   * `None`, `[]` or `False`, the values `state.get` yields in the code that reads them.
   */
  class FinancialAnalysisState {
    var messages: seq<Message>
    var structuredQuery: Option<QueryConstruct>
    var sourceDocuments: seq<string>
    var cacheHit: bool

    /** Resumes a thread from its checkpoint with `input` merged into the message list. */
    constructor Resume(c: Checkpoint, input: seq<Message>)
      ensures messages == c.messages + input
      ensures structuredQuery == c.structuredQuery
      ensures sourceDocuments == c.sourceDocuments
      ensures cacheHit == c.cacheHit
    {
      messages := c.messages + input;
      structuredQuery := c.structuredQuery;
      sourceDocuments := c.sourceDocuments;
      cacheHit := c.cacheHit;
    }

    /** The value the checkpointer stores for this state. */
    function Snapshot(): (c: Checkpoint)
      reads this
    {
      Checkpoint(messages, structuredQuery, sourceDocuments, cacheHit)
    }

    /** The `add_messages` reducer, taken as plain appending. */
    method AddMessages(update: seq<Message>)
      modifies this`messages
      ensures messages == old(messages) + update
    {
      messages := messages + update;
    }
  }
}
