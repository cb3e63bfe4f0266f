# Context and styling agents of a shopping-assistant backend, in Dafny

This project models the two deterministic agents of a conversational shopping assistant.

- The **context agent** (`app/agents/context.py`) works in four steps. It stops early when an upstream intent check says the turn is not about shopping. Otherwise it merges the turn's extracted fields into the conversation's `ChatQuery`, lists the missing required fields (destination, product category, occasion) and routes to one of three outcomes: `general_chat`, `clarification` or `recommendation`.
- The **styling agent** (`app/agents/styling.py`) has two guard clauses: no search results, then no user photos. It then loops over the search results. For each one it composes the user's first photo with the product image and embeds the composed image. A product whose compose or embed call raises is skipped. The agent returns the embeddings of the products that succeeded, in input order, with a message that reports how many there were.

Modules:

- `Common` (`common.dfy`): `Option` and `Outcome`, Python's `", ".join`, and the decimal rendering of a count inside an f-string, with its inverse.
- `ChatQueries` (`chat_query.dfy`): the `ChatQuery` class. Its `fields` map is updated in place by the `Merge` loop. `Dump` stands for `model_dump(exclude_none=True)`. `Overlay` and `Build` are the specification functions of the merge and of the constructor. Lemmas cover what merging preserves.
- `Context` (`context.dfy`): the missing-field list, the routing function `Route`, and the `ContextAgent` method.
  - `ContextAgent` returns the agent's `final_query` beside its result.
  - When a query already exists, `final_query` is that same object. The method's contract says so.
  - The merge therefore changes that object even in the clarification branch, where the query is not returned.
- `Styling` (`styling.dfy`): the specification function `StylingSpec` and the filter functions it uses (`Successes`, `SuccessIndices`, `FailureCount`). The `StylingAgent` method does the loop with a counter. Lemmas cover each terminal outcome.

The external calls are inputs:
- the intent verdict is an `IntentVerdict` value;
- the extraction is a map from attribute name to optional value;
- the image composer and the embedding call are the function parameters `compose` and `embed`, whose `Outcome` says whether the call raised.

`StylingAgent` also returns `composeCalls`, the arguments of every composer call in order. The contract can then state that every call uses the first photo, and that no call is made when a guard fires.

The source's `app/schema.py` is not part of this model. `ChatQuery`'s attribute set is therefore the constructor parameter `schema`, which must include the three required names. Every attribute is assumed to default to `None`.

Two behaviours of the code are worth stating outright:
- An empty string overwrites a set attribute; only `None` is skipped (`app/agents/context.py:47-50`). `MergeExtraction` states this.
- In the clarification branch the result leaves the query out. But when a query already existed, that object has already been changed in place (`app/agents/context.py:48-51`). `ContextAgent`'s contract states this.

## Model

| member | source | states |
|---|---|---|
| `Context.ContextAgent` | app/agents/context.py:14-86 | If the turn is not about shopping: the general-chat result, no query, and the existing query unchanged. Otherwise the final query is the existing object itself, merged in place by `Overlay` with the dumped extraction, or a fresh `ChatQuery` built from the dump. The result is `Route` of the final query, in every branch. |
| `Context.GeneralChat` | app/agents/context.py:26-33 | The result is `general_chat`, next step `END`, tag `context_agent`. Its only message is the canned reply, and it has no `chat_query_json`. |
| `ChatQueries.Falsy` | app/agents/context.py:58-62 | An optional string is truthy iff it is set and non-empty, as `not x` tests it. |
| `ChatQueries.Dump` | app/agents/context.py:47 | The dump holds exactly the extracted keys whose value is not `None`, each with its value. |
| `ChatQueries.ChatQuery.Merge` | app/agents/context.py:47-51 | The `setattr` loop over the dumped pairs leaves the query's attributes equal to `Overlay` of the old attributes. The schema is unchanged. |
| `ChatQueries.Overlay` | app/agents/context.py:48-50 | The merge keeps the query's key set. A key that the query declares and the update carries takes the update's value. Every other key keeps its old value. |
| `ChatQueries.MergeExtraction` | app/agents/context.py:45-51 | Every attribute the extraction sets takes the extracted value, the empty string included. Every attribute the extraction leaves `None` keeps its old value. No attribute is added or removed. |
| `ChatQueries.UnknownKeysIgnored` | app/agents/context.py:48-50 | Merging an update gives the same query as merging only the keys the query declares. |
| `ChatQueries.MergeAlreadyHeld` | app/agents/context.py:45-51 | Merging values the query already holds leaves the query equal to what it was. |
| `ChatQueries.MergeIdempotent` | app/agents/context.py:45-51 | Merging the same extraction twice gives the same query as merging it once. |
| `ChatQueries.Build` | app/agents/context.py:52-54 | A new query has exactly the schema's attributes. Each takes the dumped value if there is one and is `None` otherwise. Keys outside the schema are ignored. |
| `ChatQueries.ChatQuery.constructor` | app/agents/context.py:54 | The new object is valid, has the given schema, and its attributes are `Build` of the dump. |
| `ChatQueries.BuildIsMergeIntoBlank` | app/agents/context.py:45-54 | Building a new query from an update is the same as merging that update into a query with every attribute unset. |
| `Context.MissingLabels` | app/agents/context.py:57-63 | The list is a subsequence of `["destination", "product type", "occasion"]`. Each label is in it iff its attribute is falsy (`None` or `""`). The list is empty iff all three attributes are truthy. |
| `Common.Join` | app/agents/context.py:66 | An empty list joins to `""` and a one-element list to its element. A list of two or more parts starts with its first part, followed by the separator and the join of the remaining parts. |
| `Common.JoinSnoc` | app/agents/context.py:66 | Joining a non-empty list with one more part appended gives the old join, then the separator, then the new part. |
| `Context.ClarificationMessage` | app/agents/context.py:66 | The message is the fixed prefix, then the missing labels joined with `", "`, then a final `.`. |
| `Context.Route` | app/agents/context.py:65-86 | The tag is always `context_agent`. If all three attributes are truthy: `recommendation`, next step `research_agent`, the fixed proceed message, and `chat_query_json` equal to the final query. Otherwise: `clarification`, next step `END`, the message built from the missing labels, and no `chat_query_json`. |
| `Context.ClarificationNamesExactlyMissing` | app/agents/context.py:57-72 | Two queries that get the same clarification message lack the same required attributes. |
| `Context.ParisWeddingJewelry` | app/agents/context.py:52-86 | A fresh query built from a complete Paris, jewelry, wedding extraction holds exactly those three values, with every other attribute unset. The route is `recommendation` towards `research_agent`, carrying that query. |
| `Common.NatToString` | app/agents/styling.py:92 | The rendered count is a non-empty string of decimal digits with no leading zero. |
| `Styling.SuccessMessage` | app/agents/styling.py:92 | The message is the fixed prefix, then the decimal digits of the count, then the fixed suffix. |
| `Styling.SuccessMessageInjective` | app/agents/styling.py:92 | Two different counts give two different success messages. |
| `Common.ParseNatToString` | app/agents/styling.py:92 | Reading the digits of the rendered count gives back the count. |
| `Common.NatToStringInjective` | app/agents/styling.py:92 | Different counts are rendered differently, so the success message determines the count. |
| `Styling.StylingAgent` | app/agents/styling.py:13-99 | The result equals `StylingSpec`. No composer call is made when either guard fires. Otherwise there is one composer call per product, in order, each with the first photo and that product's image. The loop keeps the counter equal to the length of the list, and the list equal to the successes so far. |
| `Styling.StylingSpec` | app/agents/styling.py:25-99 | Every result has `next_step` `None` and the tag `styling_agent`. A selected item is present iff there are embeddings, and it is the first search result. |
| `Styling.Empty` | app/agents/styling.py:26-48 | An early return has one message, no embeddings, no selected item, `next_step` `None` and the tag `styling_agent`. |
| `Styling.NoSearchResults` | app/agents/styling.py:25-32 | Without search results the result is the "couldn't find any items" message with no embeddings, whatever the photos. |
| `Styling.NoPhotos` | app/agents/styling.py:35-48 | With search results but no photos the result is the upload-photos message with no embeddings. |
| `Styling.FirstPhotoOnly` | app/agents/styling.py:58-66 | The result depends only on the first photo. |
| `Styling.ItemOutcome` | app/agents/styling.py:62-71 | An item succeeds iff composing the photo with its image succeeds and embedding the composed image succeeds. Its value is then that embedding. |
| `Styling.Outcomes` | app/agents/styling.py:61-75 | There is one outcome per product, in input order, each the item outcome of that product with the given photo. |
| `Styling.Successes` | app/agents/styling.py:55-75 | The accumulated list is no longer than the product list, and each of its values is the value of some successful outcome. |
| `Styling.SuccessesAtIndices` | app/agents/styling.py:55-75 | The accumulated embeddings are exactly the values of the successful items, in input order. The k-th embedding comes from the k-th success position, the positions increase strictly, and every successful item is among them. |
| `Styling.SuccessesLength` | app/agents/styling.py:61-75 | N items with K failures give N − K embeddings. |
| `Styling.NoSuccessesIffAllFailed` | app/agents/styling.py:77 | The list is empty iff every item failed. |
| `Styling.AllFailed` | app/agents/styling.py:77-87 | If every item fails, the result is the "encountered an error" message with no embeddings. |
| `Styling.SomeSucceeded` | app/agents/styling.py:89-99 | If some item succeeds, the message reports N minus the number of failures. The embeddings are the successes in input order, and the selected item is the first search result. |

## Left out

- `main.py`, the HTTP layer, is not part of this model. That covers the graph handle, CORS, the 503/500 mapping and the generated thread id.
- `app/tools/embedding.py` is not part of this model. It draws floating-point vectors from a hash-seeded generator. An embedding here is a value of the type parameter `E`.
- The intent check, the extraction call and the image composer are language-model or network calls. Their results are inputs. An exception they raise outside the styling loop's `try` is not modelled.
- The embedding call at `app/agents/styling.py:69` is not awaited, so the source appends a coroutine object. The model appends the `embed` parameter's value and does not model async semantics.
- Logging (`print`) is left out, and so is reading `user_id` and `thread_id` from the config; neither affects the result. `AIMessage` wrappers are plain strings.
- The `ChatQuery` and extraction schemas are not part of this model. Every attribute value is a string or `None`. `hasattr` is true exactly for the schema's attributes; methods and other non-field attributes are not modelled.
- `ChatQueries.ChatQuery.Merge` visits the dumped keys in an arbitrary order rather than dict insertion order. The keys are distinct, so the order does not change the result.
- `Context.ContextAgent` takes the existing query to be a `ChatQuery` object or absent. A state that held a plain dictionary instead is not modelled.
- Pydantic validation on construction and on assignment is not modelled.
- `Styling.StylingAgent`: `embed` may fail, but in the source it cannot. `get_image_embedding` is `async def` (`app/tools/embedding.py:72`), and `app/agents/styling.py:69` calls it without `await`, so the call only builds a coroutine and never raises. The source's behaviour is the case where `embed` always returns `Ok`; the lemmas cover every case.
- `Styling.ItemOutcome`: `compose` is a function of the photo and the image, so two products with the same image get the same outcome. The source's network call can succeed once and fail the next time with the same arguments; the model does not capture that. No proved property depends on it.
- `Context.ContextAgent`: the extraction is an input on every path. The contract shows that the general-chat result, and the existing query, do not depend on it. It cannot state that no extraction call is made when the turn is not about shopping (`app/agents/context.py:27-39`).
