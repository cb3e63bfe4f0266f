/** The styling agent (app/agents/styling.py): two guard clauses, then a loop that
    composes the user's first photo with every product image and embeds the composed
    image, skipping every product for which either call raises. The image composer
    (`merge_images`) and the embedding call are external; here they are the function
    parameters `compose` and `embed`, whose results say whether the call raised. */
module Styling {
  import opened Common

  /** A search result: only its title and image reference are read. */
  datatype Product = Product(title: string, image: string)

  /** The dictionary the agent returns; `selectedItem` is `None` when the key is absent.
      Each message stands for the content of one `AIMessage`. */
  datatype StylingResult<E> = StylingResult(
    messages: seq<string>,
    currentAgent: string,
    nextStep: Option<string>,
    embeddings: seq<E>,
    selectedItem: Option<Product>)

  const AgentName := "styling_agent"
  const NoItemsMessage := "I couldn't find any items to style."
  const NoPhotosMessage := "I need your photos to show how the products look on you. Please upload your photos."
  const ErrorMessage := "I encountered an error while processing the images. Please try again."

  const SuccessPrefix := "I've generated styling visualizations for "
  const SuccessSuffix := " product(s). Here are the embeddings."

  /** The message reporting how many products were processed. */
  function SuccessMessage(count: nat): (m: string)
    ensures |m| == |SuccessPrefix| + |NatToString(count)| + |SuccessSuffix|
    ensures m[..|SuccessPrefix|] == SuccessPrefix && m[|m| - |SuccessSuffix|..] == SuccessSuffix
    ensures m[|SuccessPrefix|..|m| - |SuccessSuffix|] == NatToString(count)
  {
    SuccessPrefix + NatToString(count) + SuccessSuffix
  }

  /** The success message names its count: two different counts give two different messages. */
  lemma SuccessMessageInjective(m: nat, n: nat)
    requires SuccessMessage(m) == SuccessMessage(n)
    ensures m == n
  {
    NatToStringInjective(m, n);
  }

  /** A result without embeddings, as every early return builds it. */
  function Empty<E>(message: string): (r: StylingResult<E>)
    ensures r.messages == [message] && r.embeddings == [] && r.selectedItem.None?
    ensures r.currentAgent == AgentName && r.nextStep.None?
  {
    StylingResult([message], AgentName, None, [], None)
  }

  /** One iteration of the loop's `try` block: compose, then embed the composed image. */
  function ItemOutcome<I, E>(compose: (string, string) -> Outcome<I>, embed: I -> Outcome<E>,
                             photo: string, p: Product): (r: Outcome<E>)
    ensures r.Ok? <==> compose(photo, p.image).Ok? && embed(compose(photo, p.image).value).Ok?
    ensures r.Ok? ==> r == embed(compose(photo, p.image).value)
  {
    match compose(photo, p.image)
    case Fail => Fail
    case Ok(image) => embed(image)
  }

  /** The outcome of every product, in input order. */
  function Outcomes<I, E>(compose: (string, string) -> Outcome<I>, embed: I -> Outcome<E>,
                          photo: string, products: seq<Product>): (os: seq<Outcome<E>>)
    ensures |os| == |products|
    ensures forall i :: 0 <= i < |products| ==> os[i] == ItemOutcome(compose, embed, photo, products[i])
  {
    seq(|products|, i requires 0 <= i < |products| => ItemOutcome(compose, embed, photo, products[i]))
  }

  /** The values of the successful outcomes, in order. */
  function Successes<E>(os: seq<Outcome<E>>): (r: seq<E>)
    ensures |r| <= |os|
    ensures forall x :: x in r ==> Ok(x) in os
  {
    if os == [] then []
    else Successes(os[..|os| - 1]) + (if os[|os| - 1].Ok? then [os[|os| - 1].value] else [])
  }

  /** The positions of the successful outcomes, in increasing order. */
  function SuccessIndices<E>(os: seq<Outcome<E>>): seq<nat>
  {
    if os == [] then []
    else SuccessIndices(os[..|os| - 1]) + (if os[|os| - 1].Ok? then [|os| - 1] else [])
  }

  /** The number of failed outcomes. */
  function FailureCount<E>(os: seq<Outcome<E>>): (n: nat)
    ensures n <= |os|
  {
    if os == [] then 0
    else FailureCount(os[..|os| - 1]) + (if os[|os| - 1].Fail? then 1 else 0)
  }

  /** The result the agent returns for `products` and `photos`. */
  function StylingSpec<I, E>(compose: (string, string) -> Outcome<I>, embed: I -> Outcome<E>,
                             products: seq<Product>, photos: seq<string>): (r: StylingResult<E>)
    ensures r.currentAgent == AgentName && r.nextStep.None?
    ensures r.selectedItem.Some? <==> r.embeddings != []
    ensures r.selectedItem.Some? ==> products != [] && r.selectedItem.value == products[0]
  {
    if products == [] then Empty(NoItemsMessage)
    else if photos == [] then Empty(NoPhotosMessage)
    else
      var embeddings := Successes(Outcomes(compose, embed, photos[0], products));
      if embeddings == [] then Empty(ErrorMessage)
      else StylingResult([SuccessMessage(|embeddings|)], AgentName, None, embeddings, Some(products[0]))
  }

  /** The successes are exactly the values at the success positions, in order, and every
      success position is listed. */
  lemma {:induction false} SuccessesAtIndices<E>(os: seq<Outcome<E>>)
    ensures |SuccessIndices(os)| == |Successes(os)|
    ensures forall k :: 0 <= k < |SuccessIndices(os)| ==>
      SuccessIndices(os)[k] < |os| && os[SuccessIndices(os)[k]] == Ok(Successes(os)[k])
    ensures forall k, l :: 0 <= k < l < |SuccessIndices(os)| ==> SuccessIndices(os)[k] < SuccessIndices(os)[l]
    ensures forall i :: 0 <= i < |os| && os[i].Ok? ==> i in SuccessIndices(os)
  {
    if os != [] {
      var init := os[..|os| - 1];
      SuccessesAtIndices(init);
      forall i | 0 <= i < |os| - 1 && os[i].Ok?
        ensures i in SuccessIndices(os)
      {
        assert init[i] == os[i];
      }
    }
  }

  /** Every failure costs one embedding: N products with K failures give N - K. */
  lemma {:induction false} SuccessesLength<E>(os: seq<Outcome<E>>)
    ensures |Successes(os)| == |os| - FailureCount(os)
  {
    if os != [] {
      SuccessesLength(os[..|os| - 1]);
    }
  }

  /** There are no embeddings exactly when every product failed. */
  lemma {:induction false} NoSuccessesIffAllFailed<E>(os: seq<Outcome<E>>)
    ensures Successes(os) == [] <==> forall i :: 0 <= i < |os| ==> os[i].Fail?
  {
    SuccessesAtIndices(os);
    if Successes(os) != [] {
      assert os[SuccessIndices(os)[0]].Ok?;
    }
  }

  /** Without search results the agent reports that there is nothing to style, whatever
      the photos. */
  lemma NoSearchResults<I, E>(compose: (string, string) -> Outcome<I>, embed: I -> Outcome<E>,
                              photos: seq<string>)
    ensures StylingSpec(compose, embed, [], photos) == Empty(NoItemsMessage)
  {
  }

  /** With search results but no photos the agent asks for photos. */
  lemma NoPhotos<I, E>(compose: (string, string) -> Outcome<I>, embed: I -> Outcome<E>,
                       products: seq<Product>)
    requires products != []
    ensures StylingSpec(compose, embed, products, []) == Empty(NoPhotosMessage)
  {
  }

  /** Only the first photo matters. */
  lemma FirstPhotoOnly<I, E>(compose: (string, string) -> Outcome<I>, embed: I -> Outcome<E>,
                             products: seq<Product>, photos: seq<string>)
    requires photos != []
    ensures StylingSpec(compose, embed, products, photos) == StylingSpec(compose, embed, products, photos[..1])
  {
  }

  /** When every product fails the agent reports an error and no embeddings. */
  lemma AllFailed<I, E>(compose: (string, string) -> Outcome<I>, embed: I -> Outcome<E>,
                        products: seq<Product>, photos: seq<string>)
    requires products != [] && photos != []
    requires forall i :: 0 <= i < |products| ==> ItemOutcome(compose, embed, photos[0], products[i]).Fail?
    ensures StylingSpec(compose, embed, products, photos) == Empty(ErrorMessage)
  {
    var os := Outcomes(compose, embed, photos[0], products);
    NoSuccessesIffAllFailed(os);
  }

  /** When some product succeeds the agent returns the successes' embeddings in input
      order, reports N minus the number of failures, and selects the first search result. */
  lemma SomeSucceeded<I, E>(compose: (string, string) -> Outcome<I>, embed: I -> Outcome<E>,
                            products: seq<Product>, photos: seq<string>, j: nat)
    requires photos != [] && j < |products|
    requires ItemOutcome(compose, embed, photos[0], products[j]).Ok?
    ensures var os := Outcomes(compose, embed, photos[0], products);
      StylingSpec(compose, embed, products, photos) ==
        StylingResult([SuccessMessage(|products| - FailureCount(os))], AgentName, None,
                      Successes(os), Some(products[0]))
  {
    var os := Outcomes(compose, embed, photos[0], products);
    NoSuccessesIffAllFailed(os);
    assert os[j].Ok?;
    SuccessesLength(os);
  }

  /** `styling_agent`. Besides the result it returns `composeCalls`, the arguments of
      every call of the image composer, in call order. */
  method StylingAgent<I, E>(compose: (string, string) -> Outcome<I>, embed: I -> Outcome<E>,
                            products: seq<Product>, photos: seq<string>)
    returns (r: StylingResult<E>, composeCalls: seq<(string, string)>)
    ensures r == StylingSpec(compose, embed, products, photos)
    ensures products == [] || photos == [] ==> composeCalls == []
    ensures products != [] && photos != [] ==>
      |composeCalls| == |products| &&
      forall i :: 0 <= i < |products| ==> composeCalls[i] == (photos[0], products[i].image)
  {
    composeCalls := [];
    if products == [] {
      return Empty(NoItemsMessage), composeCalls;
    }
    if photos == [] {
      return Empty(NoPhotosMessage), composeCalls;
    }
    var embeddings: seq<E> := [];
    var processed := 0;
    var photo := photos[0];
    ghost var os := Outcomes(compose, embed, photo, products);
    for i := 0 to |products|
      invariant embeddings == Successes(os[..i])
      invariant processed == |embeddings|
      invariant |composeCalls| == i
      invariant forall j :: 0 <= j < i ==> composeCalls[j] == (photo, products[j].image)
    {
      var product := products[i];
      composeCalls := composeCalls + [(photo, product.image)];
      var composed := compose(photo, product.image);
      if composed.Ok? {
        var embedded := embed(composed.value);
        if embedded.Ok? {
          embeddings := embeddings + [embedded.value];
          processed := processed + 1;
        }
      }
      assert os[..i + 1][..i] == os[..i];
    }
    assert os[..|products|] == os;
    if embeddings == [] {
      return Empty(ErrorMessage), composeCalls;
    }
    r := StylingResult([SuccessMessage(processed)], AgentName, None, embeddings, Some(products[0]));
  }
}
