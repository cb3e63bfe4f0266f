/** The context agent (app/agents/context.py): the intent short-circuit, the merge of
    the turn's extraction into the query, the missing-field check and the three-way
    routing decision. The intent check and the extraction are language-model calls;
    their results are inputs here. */
module Context {
  import opened Common
  import opened ChatQueries

  /** The verdict of the external intent check. */
  datatype IntentVerdict = IntentVerdict(isShoppingRelated: bool, responseIfNotRelated: string)

  /** The dictionary the agent returns; `chatQuery` is `None` when the key is absent.
      Each message stands for the content of one `AIMessage`. */
  datatype ContextResult<Q> = ContextResult(
    userIntent: string,
    nextStep: string,
    currentAgent: string,
    messages: seq<string>,
    chatQuery: Option<Q>)

  const AgentName := "context_agent"
  const ProceedMessage := "Great! I have all the details. Searching for products and generating styling visualizations... This may take a moment."
  const ClarificationPrefix := "To generate the best recommendations, I need to know the "

  /** The human-readable labels of the required attributes, in the order they are checked. */
  const AllLabels: seq<string> := ["destination", "product type", "occasion"]

  /** `a` is a subsequence of `b`: `b` with some elements dropped and the rest in order. */
  predicate IsSubsequence(a: seq<string>, b: seq<string>)
    decreases |b|
  {
    if a == [] then true
    else if b == [] then false
    else if a[0] == b[0] then IsSubsequence(a[1..], b[1..])
    else IsSubsequence(a, b[1..])
  }

  /** Every required attribute is truthy. */
  predicate Complete(fields: Fields)
    requires RequiredNames <= fields.Keys
  {
    !Falsy(fields["destination"]) && !Falsy(fields["category"]) && !Falsy(fields["occasion"])
  }

  /** The labels of the falsy required attributes, appended in the fixed order. */
  function MissingLabels(fields: Fields): (r: seq<string>)
    requires RequiredNames <= fields.Keys
    ensures IsSubsequence(r, AllLabels)
    ensures "destination" in r <==> Falsy(fields["destination"])
    ensures "product type" in r <==> Falsy(fields["category"])
    ensures "occasion" in r <==> Falsy(fields["occasion"])
    ensures r == [] <==> Complete(fields)
  {
    (if Falsy(fields["destination"]) then ["destination"] else [])
    + (if Falsy(fields["category"]) then ["product type"] else [])
    + (if Falsy(fields["occasion"]) then ["occasion"] else [])
  }

  /** The question asked when attributes are missing. */
  function ClarificationMessage(missing: seq<string>): (m: string)
    ensures |ClarificationPrefix| < |m| && m[..|ClarificationPrefix|] == ClarificationPrefix && m[|m| - 1] == '.'
    ensures m[|ClarificationPrefix|..|m| - 1] == Join(missing, ", ")
  {
    ClarificationPrefix + Join(missing, ", ") + "."
  }

  /** The result when the turn is not about shopping. */
  function GeneralChat<Q>(reply: string): (r: ContextResult<Q>)
    ensures r.userIntent == "general_chat" && r.nextStep == "END" && r.currentAgent == AgentName
    ensures r.messages == [reply] && r.chatQuery.None?
  {
    ContextResult("general_chat", "END", AgentName, [reply], None)
  }

  /** The routing decision once the query `q`, whose attributes are `fields`, is final:
      clarification without the query while a required attribute is falsy, otherwise
      recommendation handing `q` on to the research agent. */
  function Route<Q>(fields: Fields, q: Q): (r: ContextResult<Q>)
    requires RequiredNames <= fields.Keys
    ensures r.currentAgent == AgentName
    ensures r.userIntent == "recommendation" <==> Complete(fields)
    ensures r.userIntent == "clarification" <==> !Complete(fields)
    ensures r.nextStep == (if Complete(fields) then "research_agent" else "END")
    ensures r.chatQuery == (if Complete(fields) then Some(q) else None)
    ensures r.messages == [if Complete(fields) then ProceedMessage else ClarificationMessage(MissingLabels(fields))]
  {
    var missing := MissingLabels(fields);
    if missing != [] then
      ContextResult("clarification", "END", AgentName, [ClarificationMessage(missing)], None)
    else
      ContextResult("recommendation", "research_agent", AgentName, [ProceedMessage], Some(q))
  }

  /** `context_agent`. `existing` is the query already in the state (`null` when there is
      none) and `schema` the attribute names `ChatQuery` declares. The out-parameter
      `query` is the agent's `final_query`: `existing` itself when there was one, which
      the merge updates in place whichever way the routing goes. */
  method ContextAgent(intent: IntentVerdict, existing: ChatQuery?, extraction: Extraction, schema: set<string>)
    returns (r: ContextResult<ChatQuery>, query: ChatQuery?)
    requires existing != null ==> existing.Valid()
    requires RequiredNames <= schema
    modifies existing
    ensures !intent.isShoppingRelated ==> r == GeneralChat(intent.responseIfNotRelated) && query == null
    ensures !intent.isShoppingRelated && existing != null ==> existing.fields == old(existing.fields)
    ensures intent.isShoppingRelated ==> query != null && query.Valid() && r == Route<ChatQuery>(query.fields, query)
    ensures intent.isShoppingRelated && existing != null ==>
      query == existing && query.fields == Overlay(old(existing.fields), Dump(extraction))
    ensures intent.isShoppingRelated && existing == null ==>
      fresh(query) && query.fields == Build(schema, Dump(extraction))
  {
    if !intent.isShoppingRelated {
      return GeneralChat(intent.responseIfNotRelated), null;
    }
    var update := Dump(extraction);
    if existing != null {
      existing.Merge(update);
      query := existing;
    } else {
      query := new ChatQuery(schema, update);
    }
    r := Route<ChatQuery>(query.fields, query);
  }

  /** The clarification message tells exactly which required attributes are missing:
      two queries that draw the same question lack the same attributes. */
  lemma ClarificationNamesExactlyMissing(f: Fields, g: Fields)
    requires RequiredNames <= f.Keys && RequiredNames <= g.Keys
    requires ClarificationMessage(MissingLabels(f)) == ClarificationMessage(MissingLabels(g))
    ensures Falsy(f["destination"]) == Falsy(g["destination"])
    ensures Falsy(f["category"]) == Falsy(g["category"])
    ensures Falsy(f["occasion"]) == Falsy(g["occasion"])
  {
  }

  /** The turn "I want jewelry for a wedding in Paris", extracted completely into a new
      query: the agent proceeds to research with exactly those three attributes set. */
  lemma ParisWeddingJewelry<Q>(schema: set<string>, others: Extraction, q: Q)
    requires RequiredNames <= schema
    requires forall k :: k in others ==> others[k].None?
    ensures var x := others["destination" := Some("Paris")]["category" := Some("jewelry")]["occasion" := Some("wedding")];
      var fields := Build(schema, Dump(x));
      && fields["destination"] == Some("Paris")
      && fields["category"] == Some("jewelry")
      && fields["occasion"] == Some("wedding")
      && (forall k :: k in schema && k !in RequiredNames ==> fields[k].None?)
      && Route(fields, q) == ContextResult("recommendation", "research_agent", AgentName, [ProceedMessage], Some(q))
  {
  }
}
