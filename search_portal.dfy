/**
 * The search page (`SearchPortal` in
 * `frontend/src/components/VectorSearchPortal.jsx`): four pieces of state,
 * the search handler that updates them, and the render logic that maps
 * them to what the page shows. The network is not modelled: the outcome of
 * the one request a search issues is a parameter of the handler.
 */
module SearchPortal {
  import opened Wrappers
  import opened Json
  import Text

  const VectorMode := "vector"
  const TraditionalMode := "traditional"
  const VectorEndpoint := "http://localhost:8000/api/search"
  const TraditionalEndpoint := "http://localhost:8000/api/traditional_search"
  const NoExplanation := "No explanation available."
  const NoProfile := "No profile information available."

  // ---------------------------------------------------------------------
  // Dispatch
  // ---------------------------------------------------------------------

  /** The endpoint a mode selects: the vector one for "vector", the traditional one for any other mode. */
  function Endpoint(mode: string): (url: string)
    ensures url == VectorEndpoint <==> mode == VectorMode
    ensures url == TraditionalEndpoint <==> mode != VectorMode
  {
    if mode == VectorMode then VectorEndpoint else TraditionalEndpoint
  }

  /** A POST with a JSON body `{query: ...}`. */
  datatype Request = Request(verb: string, url: string, contentType: string, query: string)

  /**
   * The request a search issues for the given state: none when the query is
   * blank for JavaScript's `trim`, otherwise one POST to the mode's endpoint
   * carrying the query as typed, untrimmed.
   */
  function RequestFor(query: string, mode: string): (req: Option<Request>)
    ensures req.None? <==> Text.JsTrim(query) == []
    ensures req.Some? ==> req.value.verb == "POST" && req.value.contentType == "application/json"
    ensures req.Some? ==> req.value.url == Endpoint(mode) && req.value.query == query
  {
    if Text.JsTrim(query) == [] then None
    else Some(Request("POST", Endpoint(mode), "application/json", query))
  }

  /** No request is issued exactly when every character of the query is JavaScript whitespace. */
  lemma BlankQueryIssuesNothing(query: string, mode: string)
    ensures RequestFor(query, mode).None? <==> forall i :: 0 <= i < |query| ==> Text.IsJsWhitespace(query[i])
  {
    Text.TrimSpec(query, Text.JavaScript);
    assert Text.AllSpace(query, Text.JavaScript) <==> forall i :: 0 <= i < |query| ==> Text.IsJsWhitespace(query[i]);
  }

  /** The parsed response body: a JSON array of records, or a single JSON object such as `{"detail": ...}`. */
  datatype Payload = List(items: seq<Object>) | Single(fields: Object)

  /**
   * How a request settles: no response at all (`fetch` rejects), or a
   * response with a status and a body that parsed as JSON or did not
   * (`None`, `response.json()` rejects).
   */
  datatype Outcome = NetworkError | Response(status: int, body: Option<Payload>)

  predicate IsOk(status: int) {
    200 <= status < 300
  }

  /**
   * `results` after a search settles, as the handler is written: whatever
   * body parses replaces the results wholesale, whatever the HTTP status;
   * a network error or an unparseable body leaves them as they were.
   */
  function Settle(prior: Payload, outcome: Outcome): (r: Payload)
    ensures r == prior || (outcome.Response? && outcome.body == Some(r))
    ensures outcome.Response? && outcome.body.Some? ==> r == outcome.body.value
    ensures outcome.NetworkError? || outcome.body.None? ==> r == prior
  {
    match outcome
    case NetworkError => prior
    case Response(_, body) => if body.Some? then body.value else prior
  }

  /**
   * `results` after a search settles when a non-2xx response is treated as
   * a failure (the check `if (!response.ok) throw ...` before the body is
   * stored): only a successful response replaces the results.
   */
  function SettleCheckingStatus(prior: Payload, outcome: Outcome): (r: Payload)
    ensures r == prior || (outcome.Response? && IsOk(outcome.status) && outcome.body == Some(r))
    ensures outcome.Response? && IsOk(outcome.status) && outcome.body.Some? ==> r == outcome.body.value
    ensures outcome.Response? && !IsOk(outcome.status) ==> r == prior
  {
    match outcome
    case NetworkError => prior
    case Response(status, body) => if IsOk(status) && body.Some? then body.value else prior
  }

  // ---------------------------------------------------------------------
  // Render
  // ---------------------------------------------------------------------

  /**
   * What React shows for a value in a child position: strings and numbers
   * as text; a missing value, null and booleans as nothing.
   */
  function Rendered(v: Option<Value>): (r: Option<Value>)
    ensures r.Some? <==> v.Some? && (v.value.Str? || v.value.Num?)
    ensures r.Some? ==> r == v
  {
    match v
    case Some(Str(_)) => v
    case Some(Num(_)) => v
    case _ => None
  }

  /** The similarity slot of a card: nothing, a "% Match" badge for a similarity, or a stray text node. */
  datatype BadgeSlot = NoBadge | Match(similarity: Value) | StrayText(text: Value)

  /**
   * The similarity slot as written, `searchMode === 'vector' &&
   * result.Similarity && <badge>`: when the similarity is falsy the chain's
   * value is that similarity itself. React shows nothing for a missing
   * value, null, false or the empty string, but renders the number 0, so a
   * similarity of 0 shows as a bare "0".
   */
  function BadgeAsWritten(result: Object, mode: string): (b: BadgeSlot)
    ensures b.Match? <==> mode == VectorMode && Truthy(Get(result, "Similarity"))
    ensures b.Match? ==> b.similarity == result["Similarity"]
    ensures b.StrayText? <==> mode == VectorMode && Get(result, "Similarity") == Some(Num(0.0))
    ensures b.StrayText? ==> b.text == Num(0.0)
  {
    var similarity := Get(result, "Similarity");
    if mode != VectorMode then NoBadge
    else if Truthy(similarity) then Match(similarity.value)
    else match similarity
      case Some(Num(_)) => StrayText(similarity.value)
      case _ => NoBadge
  }

  /** The similarity slot as intended: a badge in vector mode for a truthy similarity, otherwise nothing at all. */
  function Badge(result: Object, mode: string): (b: BadgeSlot)
    ensures b.Match? <==> mode == VectorMode && Truthy(Get(result, "Similarity"))
    ensures b.Match? ==> b.similarity == result["Similarity"]
    ensures !b.StrayText?
  {
    if mode == VectorMode && Truthy(Get(result, "Similarity")) then Match(result["Similarity"]) else NoBadge
  }

  /** The link slot of a card: nothing, an external link to a URL, or a stray text node. */
  datatype LinkSlot = NoLink | Link(url: Value) | StrayLinkText(text: Value)

  /**
   * The link slot as written, `result.URL && <a href=...>`: when the URL is
   * falsy the expression's value is the URL itself. React shows nothing for
   * a missing value, null, false or the empty string, but renders the
   * number 0, so a URL of 0 shows as a bare "0".
   */
  function LinkAsWritten(result: Object): (l: LinkSlot)
    ensures l.Link? <==> Truthy(Get(result, "URL"))
    ensures l.Link? ==> l.url == result["URL"]
    ensures l.StrayLinkText? <==> Get(result, "URL") == Some(Num(0.0))
    ensures l.StrayLinkText? ==> l.text == Num(0.0)
  {
    var url := Get(result, "URL");
    if Truthy(url) then Link(url.value)
    else match url
      case Some(Num(_)) => StrayLinkText(url.value)
      case _ => NoLink
  }

  /** The link slot as intended: a link for a truthy URL, otherwise nothing at all. */
  function LinkIntended(result: Object): (l: LinkSlot)
    ensures l.Link? <==> Truthy(Get(result, "URL"))
    ensures l.Link? ==> l.url == result["URL"]
    ensures !l.StrayLinkText?
  {
    if Truthy(Get(result, "URL")) then Link(result["URL"]) else NoLink
  }

  /**
   * The value in the body of a card: in vector mode the explanation,
   * otherwise the profile chunk, each replaced by a fixed placeholder when
   * falsy; so the value itself is never falsy.
   */
  function BodyText(result: Object, mode: string): (v: Value)
    ensures Truthy(Some(v))
    ensures mode == VectorMode ==>
      v == (if Truthy(Get(result, "Explanation")) then result["Explanation"] else Str(NoExplanation))
    ensures mode != VectorMode ==>
      v == (if Truthy(Get(result, "Profile_Chunk")) then result["Profile_Chunk"] else Str(NoProfile))
  {
    var field := if mode == VectorMode then "Explanation" else "Profile_Chunk";
    var placeholder := if mode == VectorMode then NoExplanation else NoProfile;
    if Truthy(Get(result, field)) then result[field] else Str(placeholder)
  }

  /**
   * One result card as the page shows it: title, category and label, the
   * similarity slot, the external link, and the body text (each text slot
   * `None` when React shows nothing there).
   */
  datatype Card = Card(title: Option<Value>, category: Option<Value>, labelText: Option<Value>,
                       badge: BadgeSlot, link: LinkSlot, body: Option<Value>)

  /**
   * The card for one result as written: the similarity slot is
   * `BadgeAsWritten` and the link slot `LinkAsWritten`, so a similarity of 0
   * in vector mode, or a URL of 0, shows as "0". The body is shown for every
   * string or number and is then never empty (a truthy value, the
   * placeholder in place of an empty text); it may still be whitespace only.
   */
  function CardFor(result: Object, mode: string): (c: Card)
    ensures c.title == Rendered(Get(result, "Name"))
    ensures c.category == Rendered(Get(result, "Category")) && c.labelText == Rendered(Get(result, "Label"))
    ensures c.link == LinkAsWritten(result)
    ensures c.badge == BadgeAsWritten(result, mode)
    ensures c.body == Rendered(Some(BodyText(result, mode)))
    ensures c.body.Some? <==> !BodyText(result, mode).Bool?
    ensures c.body.Some? ==> Truthy(c.body)
  {
    Card(Rendered(Get(result, "Name")), Rendered(Get(result, "Category")), Rendered(Get(result, "Label")),
         BadgeAsWritten(result, mode), LinkAsWritten(result),
         Rendered(Some(BodyText(result, mode))))
  }

  /**
   * The card as intended: the same card with the corrected similarity and
   * link slots. It differs from the card as written only where a falsy
   * similarity or URL would be rendered as stray text.
   */
  function CardForIntended(result: Object, mode: string): (c: Card)
    ensures c.badge == Badge(result, mode) && !c.badge.StrayText?
    ensures c.link == LinkIntended(result) && !c.link.StrayLinkText?
    ensures c == CardFor(result, mode) <==>
              !CardFor(result, mode).badge.StrayText? && !CardFor(result, mode).link.StrayLinkText?
    ensures c.(badge := NoBadge, link := NoLink) == CardFor(result, mode).(badge := NoBadge, link := NoLink)
  {
    CardFor(result, mode).(badge := Badge(result, mode), link := LinkIntended(result))
  }

  /** The page below the search controls, and the state of the search button. */
  datatype View = View(cards: seq<Card>, noResults: bool, spinner: bool, searchDisabled: bool)

  /**
   * The render of the page. Result cards appear exactly when the results are
   * a non-empty list, one per result in order; the "no results" card
   * exactly when they are an empty list, the query is a non-empty string
   * (untrimmed) and no search is running; never both. A single object in
   * place of a list shows neither.
   */
  function Render(results: Payload, mode: string, query: string, isLoading: bool): (v: View)
    ensures |v.cards| > 0 <==> results.List? && |results.items| > 0
    ensures results.List? ==>
      |v.cards| == |results.items| && forall i :: 0 <= i < |v.cards| ==> v.cards[i] == CardFor(results.items[i], mode)
    ensures v.noResults <==> results.List? && results.items == [] && query != "" && !isLoading
    ensures !(|v.cards| > 0 && v.noResults)
    ensures v.spinner == isLoading && v.searchDisabled == isLoading
  {
    var cards := if results.List? then seq(|results.items|, i requires 0 <= i < |results.items| => CardFor(results.items[i], mode)) else [];
    View(cards, results.List? && |results.items| == 0 && query != "" && !isLoading, isLoading, isLoading)
  }

  datatype DisplayState = Populated | NoResultsCard | Idle

  function StateOf(v: View): DisplayState {
    if |v.cards| > 0 then Populated else if v.noResults then NoResultsCard else Idle
  }

  /**
   * Changing the mode re-renders the same results: the display state and the
   * number of cards stay, and each card keeps its title, category, label
   * and link; only the badge and the body are reinterpreted.
   */
  lemma ModeChangeKeepsLayout(results: Payload, m1: string, m2: string, query: string, isLoading: bool)
    ensures StateOf(Render(results, m1, query, isLoading)) == StateOf(Render(results, m2, query, isLoading))
    ensures |Render(results, m1, query, isLoading).cards| == |Render(results, m2, query, isLoading).cards|
    ensures forall i :: 0 <= i < |Render(results, m1, query, isLoading).cards| ==>
      var c1, c2 := Render(results, m1, query, isLoading).cards[i], Render(results, m2, query, isLoading).cards[i];
      c1.title == c2.title && c1.category == c2.category && c1.labelText == c2.labelText && c1.link == c2.link
  {
  }

  /**
   * As written, an HTTP error answer wipes the page: its body `{"detail": ...}`
   * parses, replaces the results, and then neither a result card nor the
   * "no results" card is shown, whatever was shown before.
   */
  lemma ErrorAnswerBlanksPage(prior: Payload, status: int, detail: Object, mode: string, query: string, isLoading: bool)
    ensures var after := Render(Settle(prior, Response(status, Some(Single(detail)))), mode, query, isLoading);
            after.cards == [] && !after.noResults
  {
  }

  /** With the status checked, an error answer leaves the page exactly as it was. */
  lemma ErrorAnswerKeepsPageWhenChecked(prior: Payload, status: int, body: Option<Payload>, mode: string, query: string, isLoading: bool)
    requires !IsOk(status)
    ensures Render(SettleCheckingStatus(prior, Response(status, body)), mode, query, isLoading)
         == Render(prior, mode, query, isLoading)
  {
  }

  /** A similarity of 0 in vector mode: as written a bare "0" is shown; as intended nothing is. */
  lemma ZeroSimilarityShowsStrayZero(result: Object)
    requires Get(result, "Similarity") == Some(Num(0.0))
    ensures BadgeAsWritten(result, VectorMode) == StrayText(Num(0.0))
    ensures Badge(result, VectorMode) == NoBadge
  {
  }

  /** A URL of 0: as written a bare "0" is shown where the link would be; as intended nothing is. */
  lemma ZeroUrlShowsStrayZero(result: Object, mode: string)
    requires Get(result, "URL") == Some(Num(0.0))
    ensures CardFor(result, mode).link == StrayLinkText(Num(0.0))
    ensures CardForIntended(result, mode).link == NoLink
  {
  }

  // ---------------------------------------------------------------------
  // State
  // ---------------------------------------------------------------------

  class Portal {
    var query: string
    var results: Payload
    var isLoading: bool
    var searchMode: string

    /** The initial state: empty query, no results, idle, vector mode. */
    constructor ()
      ensures query == "" && results == List([]) && !isLoading && searchMode == VectorMode
    {
      query := "";
      results := List([]);
      isLoading := false;
      searchMode := VectorMode;
    }

    function Page(): View
      reads this
    {
      Render(results, searchMode, query, isLoading)
    }

    /** Typing in the input: the query becomes the input's text and nothing else changes. */
    method SetQuery(value: string)
      modifies this`query
      ensures query == value
    {
      query := value;
    }

    /**
     * Picking a mode: only the mode changes; the results and the query stay
     * and no search is issued.
     */
    method SetSearchMode(value: string)
      modifies this`searchMode
      ensures searchMode == value
      ensures StateOf(Page()) == old(StateOf(Page())) && |Page().cards| == old(|Page().cards|)
    {
      ModeChangeKeepsLayout(results, searchMode, value, query, isLoading);
      searchMode := value;
    }

    /**
     * One search as the handler is written. A blank query issues nothing and
     * changes nothing. Otherwise the loading flag is raised before the
     * request is sent and stays raised until it settles: `pending` is the
     * page while the request is awaited, the old results with the spinner on
     * and no "no results" card. The request goes to
     * the mode's endpoint with the untrimmed query, the results become
     * `Settle(old(results), outcome)`, and the flag is cleared on every exit.
     * The query and the mode are never changed.
     */
    method HandleSearch(outcome: Outcome) returns (request: Option<Request>, pending: Option<View>)
      modifies this`results, this`isLoading
      ensures request == RequestFor(query, searchMode)
      ensures request.None? ==> results == old(results) && isLoading == old(isLoading) && pending.None?
      ensures request.Some? ==> pending == Some(Render(old(results), searchMode, query, true))
      ensures request.Some? ==> !isLoading && results == Settle(old(results), outcome)
    {
      if Text.JsTrim(query) == [] {
        return None, None;
      }
      isLoading := true;
      request := Some(Request("POST", Endpoint(searchMode), "application/json", query));
      pending := Some(Page());
      match outcome {
        case NetworkError =>
        case Response(_, body) =>
          if body.Some? {
            results := body.value;
          }
      }
      isLoading := false;
    }

    /** The same search with a non-2xx response treated as a failure. */
    method HandleSearchCheckingStatus(outcome: Outcome) returns (request: Option<Request>, pending: Option<View>)
      modifies this`results, this`isLoading
      ensures request == RequestFor(query, searchMode)
      ensures request.None? ==> results == old(results) && isLoading == old(isLoading) && pending.None?
      ensures request.Some? ==> pending == Some(Render(old(results), searchMode, query, true))
      ensures request.Some? ==> !isLoading && results == SettleCheckingStatus(old(results), outcome)
    {
      if Text.JsTrim(query) == [] {
        return None, None;
      }
      isLoading := true;
      request := Some(Request("POST", Endpoint(searchMode), "application/json", query));
      pending := Some(Page());
      match outcome {
        case NetworkError =>
        case Response(status, body) =>
          if IsOk(status) && body.Some? {
            results := body.value;
          }
      }
      isLoading := false;
    }

    /** The search button: disabled while loading, otherwise it runs a search. */
    method Click(outcome: Outcome) returns (request: Option<Request>)
      modifies this`results, this`isLoading
      ensures old(isLoading) ==> request.None? && results == old(results) && isLoading
      ensures !old(isLoading) ==> request == RequestFor(query, searchMode) && !isLoading
      ensures !old(isLoading) && request.Some? ==> results == Settle(old(results), outcome)
      ensures request.None? ==> results == old(results)
    {
      if isLoading {
        return None;
      }
      var pending;
      request, pending := HandleSearch(outcome);
    }

    /** A key press in the input: Enter runs a search, whether or not one is loading; other keys do nothing. */
    method KeyPress(key: string, outcome: Outcome) returns (request: Option<Request>)
      modifies this`results, this`isLoading
      ensures key != "Enter" ==> request.None? && results == old(results) && isLoading == old(isLoading)
      ensures key == "Enter" ==> request == RequestFor(query, searchMode)
      ensures key == "Enter" && request.Some? ==> results == Settle(old(results), outcome) && !isLoading
      ensures request.None? ==> results == old(results) && isLoading == old(isLoading)
    {
      if key != "Enter" {
        return None;
      }
      var pending;
      request, pending := HandleSearch(outcome);
    }
  }
}
