/** The word-lookup orchestration of `src/lib/actions.ts`: `getWordData`
    fetches dictionary entries, extracts the first definition as context,
    asks the related-words suggester and merges both into one result.

    The two external calls are replaced by the outcomes they produce: a
    `FetchOutcome` for the dictionary request (including JSON decoding) and
    a `SuggestOutcome` for the suggester. Which calls the orchestration
    issues, and with which arguments, is returned as a trace of `Call`s. */
module Actions {
  import opened Types

  /** How the HTTP request to the dictionary service ended. */
  datatype FetchOutcome =
    | NetworkFailure                          // `fetch` itself rejected
    | Responded(status: int, body: Body)      // a response arrived with this status

  /** The result of `response.json()`: a decoding failure or a decoded payload. */
  datatype Body = Malformed | Json(payload: DictionaryResponse)

  /** How the call to the related-words suggester ended. */
  datatype SuggestOutcome =
    | Suggested(words: seq<string>)   // the flow returned `{relatedWords: words}`
    | NullOutput                      // the flow returned a null output
    | Failed                          // the flow threw

  /** An external call issued by the orchestration. */
  datatype Call =
    | FetchCall(word: string)
    | SuggestCall(word: string, context: string)

  /** What `getWordData` returns: `{error: msg}` or a `WordData`, never both. */
  datatype LookupResult = Error(error: string) | Success(data: WordData)

  const EmptyWordError := "Please enter a word."
  const NotFoundError := "Word not found. Please check your spelling and try again."
  const NoEntryError := "Word not found. The dictionary does not have an entry for this word."
  const FetchFailedError := "Failed to fetch word data. Please check your internet connection and try again later."

  /** `response.ok`: the status lies in the range 200 to 299. */
  predicate IsOk(status: int)
    ensures IsOk(status) ==> status != 404
  {
    200 <= status <= 299
  }

  /** What the orchestration makes of the dictionary request. */
  datatype FetchVerdict =
    | Unreachable              // network failure, unexpected status or undecodable body
    | StatusNotFound           // status 404
    | NoEntry                  // an ok response whose payload is not a non-empty array
    | Found(entries: seq<DictionaryEntry>)      // an ok response with a non-empty entry array

  function Verdict(fetch: FetchOutcome): (v: FetchVerdict)
    ensures v.Found? ==> |v.entries| > 0
    ensures v.StatusNotFound? <==> fetch.Responded? && fetch.status == 404
  {
    match fetch
    case NetworkFailure => Unreachable
    case Responded(status, body) =>
      if !IsOk(status) then
        (if status == 404 then StatusNotFound else Unreachable)
      else
        match body
        case Malformed => Unreachable
        case Json(payload) =>
          if payload.Entries? && |payload.entries| > 0 then Found(payload.entries) else NoEntry
  }

  /** `dictionaryEntries[0]?.meanings[0]?.definitions[0]?.definition`: each
      missing first element makes the whole chain undefined. */
  function FirstDefinition(entries: seq<DictionaryEntry>): (d: Option<string>)
    ensures d.Some? <==>
      |entries| > 0 && |entries[0].meanings| > 0 && |entries[0].meanings[0].definitions| > 0
    ensures d.Some? ==> d.value == entries[0].meanings[0].definitions[0].definition
  {
    if |entries| == 0 then None
    else if |entries[0].meanings| == 0 then None
    else if |entries[0].meanings[0].definitions| == 0 then None
    else Some(entries[0].meanings[0].definitions[0].definition)
  }

  /** The context the suggester is called with, when it is called at all:
      the first definition, provided it is truthy (a non-empty string). */
  function SuggestContext(entries: seq<DictionaryEntry>): (c: Option<string>)
    ensures c.Some? <==> FirstDefinition(entries).Some? && FirstDefinition(entries).value != ""
    ensures c.Some? ==> c.value == entries[0].meanings[0].definitions[0].definition && c.value != ""
  {
    match FirstDefinition(entries)
    case Some(d) => if d != "" then Some(d) else None
    case None => None
  }

  /** The related words a suggester outcome yields once failures are caught:
      a thrown error, and the TypeError raised by reading `relatedWords`
      off a null output, both leave the empty list. */
  function Recovered(suggest: SuggestOutcome): (words: seq<string>)
    ensures suggest.Suggested? ==> words == suggest.words
    ensures suggest.NullOutput? || suggest.Failed? ==> words == []
  {
    if suggest.Suggested? then suggest.words else []
  }

  /** The value of the local `relatedWords` when it is returned: the
      suggester's recovered list when the first definition is truthy, and
      the initial `[]` otherwise. */
  function RelatedWords(entries: seq<DictionaryEntry>, suggest: SuggestOutcome): (words: seq<string>)
    ensures SuggestContext(entries).None? ==> words == []
    ensures SuggestContext(entries).Some? ==> words == Recovered(suggest)
    ensures words != [] ==> SuggestContext(entries).Some? && suggest.Suggested? && words == suggest.words
  {
    if SuggestContext(entries).Some? then Recovered(suggest) else []
  }

  /** The specification of `getWordData`: its result ... */
  function Lookup(word: string, fetch: FetchOutcome, suggest: SuggestOutcome): (r: LookupResult)
    ensures r.Success? ==> word != "" && Verdict(fetch) == Found(r.data.dictionary)
    ensures r.Success? ==> |r.data.dictionary| > 0
    ensures r.Success? ==> r.data.relatedWords == RelatedWords(r.data.dictionary, suggest)
  {
    if word == "" then Error(EmptyWordError)
    else
      match Verdict(fetch)
      case Unreachable => Error(FetchFailedError)
      case StatusNotFound => Error(NotFoundError)
      case NoEntry => Error(NoEntryError)
      case Found(entries) => Success(WordData(entries, RelatedWords(entries, suggest)))
  }

  /** ... and the external calls it issues, in order. */
  function LookupCalls(word: string, fetch: FetchOutcome): (calls: seq<Call>)
    ensures calls == [] <==> word == ""
    ensures |calls| <= 2
    ensures calls != [] ==> calls[0] == FetchCall(word)
    ensures forall i :: 0 <= i < |calls| ==> calls[i].word == word
    ensures |calls| == 2 ==> calls[1].SuggestCall? && Verdict(fetch).Found?
  {
    if word == "" then []
    else
      [FetchCall(word)] +
      match Verdict(fetch)
      case Found(entries) =>
        (match SuggestContext(entries)
         case Some(context) => [SuggestCall(word, context)]
         case None => [])
      case _ => []
  }

  /** `getWordData`, step by step: early returns, the outer handler that
      turns every throw into the fetch-failure message, and the local
      `relatedWords` that the inner handler resets on a suggester failure. */
  method GetWordData(word: string, fetch: FetchOutcome, suggest: SuggestOutcome)
    returns (r: LookupResult, calls: seq<Call>)
    ensures r == Lookup(word, fetch, suggest)
    ensures calls == LookupCalls(word, fetch)
  {
    calls := [];
    if word == "" {
      return Error(EmptyWordError), calls;
    }
    calls := calls + [FetchCall(word)];
    if fetch.NetworkFailure? {
      return Error(FetchFailedError), calls;
    }
    var status := fetch.status;
    if !IsOk(status) {
      if status == 404 {
        return Error(NotFoundError), calls;
      }
      // `throw new Error(...)`, caught by the outer handler
      return Error(FetchFailedError), calls;
    }
    if fetch.body.Malformed? {
      // `response.json()` rejected, caught by the outer handler
      return Error(FetchFailedError), calls;
    }
    var data := fetch.body.payload;
    if !data.Entries? || |data.entries| == 0 {
      return Error(NoEntryError), calls;
    }
    var dictionaryEntries := data.entries;
    var firstDefinition := FirstDefinition(dictionaryEntries);
    var relatedWords: seq<string> := [];
    if firstDefinition.Some? && firstDefinition.value != "" {
      calls := calls + [SuggestCall(word, firstDefinition.value)];
      match suggest {
        case Suggested(words) =>
          relatedWords := words;
        case NullOutput =>
          // reading `relatedWords` off null throws, caught by the inner handler
          relatedWords := [];
        case Failed =>
          relatedWords := [];
      }
    }
    return Success(WordData(dictionaryEntries, relatedWords)), calls;
  }

  // ----- Properties of the specification -----

  /** Only the empty string is rejected up front, and then nothing is fetched. */
  lemma EmptyWordRejected(word: string, fetch: FetchOutcome, suggest: SuggestOutcome)
    ensures Lookup(word, fetch, suggest) == Error(EmptyWordError) <==> word == ""
    ensures word == "" <==> LookupCalls(word, fetch) == []
  {
  }

  /** The four error messages are pairwise different. */
  lemma ErrorMessagesDistinct()
    ensures EmptyWordError != NotFoundError && EmptyWordError != NoEntryError
    ensures EmptyWordError != FetchFailedError && NotFoundError != NoEntryError
    ensures NotFoundError != FetchFailedError && NoEntryError != FetchFailedError
  {
  }

  /** A 404 response, and only that, gives the spelling message. */
  lemma NotFoundIff(word: string, fetch: FetchOutcome, suggest: SuggestOutcome)
    ensures Lookup(word, fetch, suggest) == Error(NotFoundError) <==>
      word != "" && fetch.Responded? && fetch.status == 404
  {
    ErrorMessagesDistinct();
  }

  /** A network failure, a non-ok status other than 404, or an undecodable
      body, and nothing else, gives the connection message. */
  lemma FetchFailedIff(word: string, fetch: FetchOutcome, suggest: SuggestOutcome)
    ensures Lookup(word, fetch, suggest) == Error(FetchFailedError) <==>
      word != "" &&
      (fetch.NetworkFailure? ||
       (!IsOk(fetch.status) && fetch.status != 404) ||
       (IsOk(fetch.status) && fetch.body.Malformed?))
  {
    ErrorMessagesDistinct();
  }

  /** An ok response whose payload is the not-found object or an empty
      array, and nothing else, gives the no-entry message. */
  lemma NoEntryIff(word: string, fetch: FetchOutcome, suggest: SuggestOutcome)
    ensures Lookup(word, fetch, suggest) == Error(NoEntryError) <==>
      word != "" && fetch.Responded? && IsOk(fetch.status) && fetch.body.Json? &&
      (fetch.body.payload.NotFoundObject? || fetch.body.payload.entries == [])
  {
    ErrorMessagesDistinct();
  }

  /** Success happens exactly for an ok response carrying a non-empty entry
      array, and the result's dictionary is that array, unmodified. */
  lemma SuccessIff(word: string, fetch: FetchOutcome, suggest: SuggestOutcome)
    ensures Lookup(word, fetch, suggest).Success? <==>
      word != "" && fetch.Responded? && IsOk(fetch.status) && fetch.body.Json? &&
      fetch.body.payload.Entries? && |fetch.body.payload.entries| > 0
    ensures Lookup(word, fetch, suggest).Success? ==>
      Lookup(word, fetch, suggest).data.dictionary == fetch.body.payload.entries
  {
  }

  /** Every error result carries one of the four messages. */
  lemma ErrorsAreKnown(word: string, fetch: FetchOutcome, suggest: SuggestOutcome)
    ensures Lookup(word, fetch, suggest).Error? ==>
      Lookup(word, fetch, suggest).error in {EmptyWordError, NotFoundError, NoEntryError, FetchFailedError}
  {
  }

  /** The suggester is called, after the fetch, exactly when the lookup
      succeeds and its first definition exists and is non-empty, and it is
      given that definition as context. */
  lemma SuggesterCalledIff(word: string, fetch: FetchOutcome, suggest: SuggestOutcome)
    ensures var r := Lookup(word, fetch, suggest);
      var calls := LookupCalls(word, fetch);
      (|calls| == 2 <==>
         r.Success? && FirstDefinition(r.data.dictionary).Some? &&
         FirstDefinition(r.data.dictionary).value != "") &&
      (|calls| == 2 ==>
         calls == [FetchCall(word),
                   SuggestCall(word, r.data.dictionary[0].meanings[0].definitions[0].definition)])
    ensures var calls := LookupCalls(word, fetch);
      |calls| <= 2 && (word != "" ==> |calls| >= 1 && calls[0] == FetchCall(word))
  {
  }

  /** The related words: the suggester's list, unmodified, when it was called
      and succeeded; the empty list in every other case. */
  lemma RelatedWordsOutcome(word: string, fetch: FetchOutcome, suggest: SuggestOutcome)
    requires Lookup(word, fetch, suggest).Success?
    ensures var r := Lookup(word, fetch, suggest);
      (|LookupCalls(word, fetch)| == 2 && suggest.Suggested? ==> r.data.relatedWords == suggest.words) &&
      (|LookupCalls(word, fetch)| == 1 || !suggest.Suggested? ==> r.data.relatedWords == [])
  {
  }

  /** A suggester failure never blocks the primary result: whatever the
      suggester does, the lookup succeeds or fails alike, with the same
      error or the same dictionary. */
  lemma SuggesterNeverBlocks(word: string, fetch: FetchOutcome, s1: SuggestOutcome, s2: SuggestOutcome)
    ensures Lookup(word, fetch, s1).Success? == Lookup(word, fetch, s2).Success?
    ensures Lookup(word, fetch, s1).Error? ==> Lookup(word, fetch, s1) == Lookup(word, fetch, s2)
    ensures Lookup(word, fetch, s1).Success? ==>
      Lookup(word, fetch, s1).data.dictionary == Lookup(word, fetch, s2).data.dictionary
  {
  }

  /** The end-to-end scenario: one entry with the noun meaning of
      "serendipity" and a suggester answering three words. */
  lemma SerendipityScenario()
    ensures
      var def := Definition("the occurrence of fortunate discoveries by accident", [], [], None);
      var meaning := Meaning("noun", [def], [], []);
      var entry := DictionaryEntry("serendipity", "", [], [meaning], License("", ""), []);
      var fetch := Responded(200, Json(Entries([entry])));
      var r := Lookup("serendipity", fetch, Suggested(["fortune", "chance", "luck"]));
      r.Success? && r.data.dictionary[0].meanings[0].partOfSpeech == "noun" &&
      r.data.relatedWords == ["fortune", "chance", "luck"] &&
      LookupCalls("serendipity", fetch) ==
        [FetchCall("serendipity"),
         SuggestCall("serendipity", "the occurrence of fortunate discoveries by accident")]
  {
  }
}
