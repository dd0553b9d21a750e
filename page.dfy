/** The home page of `src/app/page.tsx`: it reads the `word` query
    parameter, runs the lookup when the word is non-empty, and shows exactly
    one of an error card, the results, or the welcome card. The lemmas at the
    end connect it with the lookup, the results display and the search form. */
module Page {
  import opened Types
  import opened Actions
  import ResultsDisplay
  import SearchForm

  /** `searchParams.word`: absent, given once, or given several times. */
  datatype ParamValue = Absent | Single(value: string) | Repeated(values: seq<string>)

  /** `typeof searchParams.word === 'string' ? searchParams.word : ''`. */
  function WordParam(p: ParamValue): (w: string)
    ensures p.Single? ==> w == p.value
    ensures !p.Single? ==> w == ""
  {
    if p.Single? then p.value else ""
  }

  /** The page's locals after the dispatch: `word`, `wordData` and `error`
      (`None` stands for `null`). */
  datatype PageState = PageState(word: string, wordData: Option<WordData>, error: Option<string>)

  /** One run of the page: its final state, the argument `getWordData` was
      called with (if it was called), and the external calls issued. */
  datatype Run = Run(state: PageState, lookedUp: Option<string>, calls: seq<Call>)

  /** The specification of the dispatch. */
  function HomeRun(param: ParamValue, fetch: FetchOutcome, suggest: SuggestOutcome): (r: Run)
    ensures r.state.word == WordParam(param)
    ensures r.lookedUp.None? <==> r.state.word == ""
    ensures r.lookedUp.Some? ==> r.lookedUp.value == r.state.word
    ensures r.state.wordData.Some? ==> ResultsDisplay.Displayable(r.state.wordData.value)
  {
    var word := WordParam(param);
    if word == "" then Run(PageState(word, None, None), None, [])
    else
      var calls := LookupCalls(word, fetch);
      match Lookup(word, fetch, suggest)
      case Error(e) => Run(PageState(word, None, Some(e)), Some(word), calls)
      case Success(d) => Run(PageState(word, Some(d), None), Some(word), calls)
  }

  /** The dispatch as the page performs it: two nullable locals assigned in
      the branches. */
  method Home(param: ParamValue, fetch: FetchOutcome, suggest: SuggestOutcome)
    returns (state: PageState, lookedUp: Option<string>, calls: seq<Call>)
    ensures Run(state, lookedUp, calls) == HomeRun(param, fetch, suggest)
  {
    var word := WordParam(param);
    var wordData: Option<WordData> := None;
    var error: Option<string> := None;
    lookedUp, calls := None, [];
    if word != "" {
      var result;
      result, calls := GetWordData(word, fetch, suggest);
      lookedUp := Some(word);
      if result.Error? {
        error := Some(result.error);
      } else {
        wordData := Some(result.data);
      }
    }
    state := PageState(word, wordData, error);
  }

  /** A JavaScript string is truthy when it is non-empty. */
  predicate Truthy(s: Option<string>) {
    s.Some? && s.value != ""
  }

  /** `{error && ...}`: the error card. */
  predicate ShowsErrorCard(st: PageState)
    ensures ShowsErrorCard(st) ==> st.error.Some?
    ensures st.error == Some("") ==> !ShowsErrorCard(st)
  {
    Truthy(st.error)
  }

  /** `{wordData && <ResultsDisplay/>}`: the results. */
  predicate ShowsResults(st: PageState)
    ensures ShowsResults(st) <==> st.wordData != None
  {
    st.wordData.Some?
  }

  /** `{!word && !error && ...}`: the welcome card. */
  predicate ShowsWelcome(st: PageState)
    ensures ShowsWelcome(st) ==> st.word == "" && !ShowsErrorCard(st)
    ensures st.word == "" && st.error.None? ==> ShowsWelcome(st)
  {
    st.word == "" && !Truthy(st.error)
  }

  /** What every state the dispatch produces satisfies. */
  predicate Consistent(st: PageState) {
    (st.word == "" ==> st.wordData.None? && st.error.None?) &&
    (st.word != "" ==> st.wordData.Some? != st.error.Some?) &&
    (st.error.Some? ==> st.error.value != "") &&
    (st.wordData.Some? ==> ResultsDisplay.Displayable(st.wordData.value))
  }

  // ----- Properties of the dispatch -----

  /** The word is the parameter when it is a single string and `''`
      otherwise; an empty word leaves both locals null and calls nothing;
      otherwise an error result sets `error` only and a `WordData` sets
      `wordData` only. */
  lemma HomeDispatch(param: ParamValue, fetch: FetchOutcome, suggest: SuggestOutcome)
    ensures var run := HomeRun(param, fetch, suggest);
      run.state.word == (if param.Single? then param.value else "")
    ensures var run := HomeRun(param, fetch, suggest);
      run.state.word == "" <==>
        (run.lookedUp.None? && run.calls == [] && run.state.wordData.None? && run.state.error.None?)
    ensures var run := HomeRun(param, fetch, suggest);
      var w := run.state.word;
      w != "" ==>
        run.lookedUp == Some(w) && run.calls == LookupCalls(w, fetch) &&
        (Lookup(w, fetch, suggest).Error? ==>
           run.state.error == Some(Lookup(w, fetch, suggest).error) && run.state.wordData.None?) &&
        (Lookup(w, fetch, suggest).Success? ==>
           run.state.wordData == Some(Lookup(w, fetch, suggest).data) && run.state.error.None?)
  {
    var w := WordParam(param);
    if w != "" {
      EmptyWordRejected(w, fetch, suggest);
    }
  }

  /** A successful lookup always has a `dictionary[0]`, so the results
      display's `mainEntry` is defined. */
  lemma MainEntryDefined(word: string, fetch: FetchOutcome, suggest: SuggestOutcome)
    ensures Lookup(word, fetch, suggest).Success? ==>
      ResultsDisplay.Displayable(Lookup(word, fetch, suggest).data)
  {
  }

  /** Every state the page reaches is consistent. */
  lemma HomeConsistent(param: ParamValue, fetch: FetchOutcome, suggest: SuggestOutcome)
    ensures Consistent(HomeRun(param, fetch, suggest).state)
  {
    var w := WordParam(param);
    if w != "" {
      ErrorsAreKnown(w, fetch, suggest);
      MainEntryDefined(w, fetch, suggest);
    }
  }

  /** In a consistent state exactly one of the error card, the results and
      the welcome card is shown, and the welcome card exactly when the word
      is empty. */
  lemma ExactlyOneView(st: PageState)
    requires Consistent(st)
    ensures ShowsErrorCard(st) || ShowsResults(st) || ShowsWelcome(st)
    ensures !(ShowsErrorCard(st) && ShowsResults(st))
    ensures !(ShowsErrorCard(st) && ShowsWelcome(st))
    ensures !(ShowsResults(st) && ShowsWelcome(st))
    ensures ShowsWelcome(st) <==> st.word == ""
  {
  }

  /** The page never calls `getWordData` with the empty string, so its
      "Please enter a word." branch is unreachable from here. */
  lemma NeverLooksUpEmpty(param: ParamValue, fetch: FetchOutcome, suggest: SuggestOutcome)
    ensures HomeRun(param, fetch, suggest).lookedUp != Some("")
    ensures HomeRun(param, fetch, suggest).state.error != Some(EmptyWordError)
  {
    var w := WordParam(param);
    if w != "" {
      EmptyWordRejected(w, fetch, suggest);
    }
  }

  /** A whitespace-only query passes the form's schema but navigates to the
      empty key, and the page then looks nothing up and shows the welcome
      card. */
  lemma WhitespaceQueryShowsWelcome(raw: string, fetch: FetchOutcome, suggest: SuggestOutcome)
    requires raw != "" && SearchForm.AllWhitespace(raw)
    ensures SearchForm.SchemaAccepts(raw)
    ensures SearchForm.Submit(raw) == SearchForm.Navigate("")
    ensures var run := HomeRun(Single(SearchForm.Submit(raw).key), fetch, suggest);
      run.lookedUp.None? && run.calls == [] && ShowsWelcome(run.state) &&
      !ShowsErrorCard(run.state) && !ShowsResults(run.state)
  {
    SearchForm.WhitespaceOnlySubmitsEmptyKey(raw);
  }

  /** Navigating with a submitted key looks up exactly that key: the form,
      not the lookup, lower-cases and trims the query, once. */
  lemma SubmittedKeyIsLookedUp(raw: string, fetch: FetchOutcome, suggest: SuggestOutcome)
    requires SearchForm.Submit(raw).Navigate?
    ensures var key := SearchForm.Submit(raw).key;
      var run := HomeRun(Single(key), fetch, suggest);
      (key == "" <==> run.lookedUp.None?) &&
      (key != "" ==> run.lookedUp == Some(key) && SearchForm.Normalize(key) == key)
  {
    SearchForm.NormalizeIdempotent(raw);
  }
}
