# Dictionary word lookup — a verified model

This project models the core of a small dictionary web application,
written in Dafny. The user types a word into the search form. The form
trims the query, lower-cases it and navigates to `/?word=<key>`. The home
page reads the `word` parameter and calls the server action `getWordData`.
That action fetches the word's entries from a public dictionary service,
takes the first definition of the first meaning as context, and asks a
language-model flow for related words. It then merges both into a
`WordData`, or returns one of four error messages. The results display
derives a few values from the `WordData`: the main entry, the phonetic
to play, the de-duplicated synonym list, and which optional sections
appear.

The two external calls are inputs of the model:

- the dictionary request is described by a `FetchOutcome`: a network
  failure, or a response with a status and a body that either failed to
  decode or decoded to an entry array or to the not-found object;
- the suggester is described by a `SuggestOutcome`: a list of words, a
  null output, or a thrown error.

Which external calls a run issues, and with which arguments, is returned
as a trace of `Call`s. That is how "no fetch is issued" and "the
suggester gets the first definition as context" are stated.

Files, one module each:

- `types.dfy` (`Types`): the records of `src/lib/types.ts`.
- `actions.dfy` (`Actions`): `getWordData`. It is an imperative method
  `GetWordData` with the source's early returns and its mutable
  `relatedWords`. The method is proved equal to the specification
  functions `Lookup` and `LookupCalls`, and lemmas characterise every
  outcome of those.
- `results_display.dfy` (`ResultsDisplay`): the values the results view
  derives, as recursive functions with lemmas.
- `search_form.dfy` (`SearchForm`): the schema check and the
  `trim().toLowerCase()` key.
- `page.dfy` (`Page`): the page's dispatch as the imperative method
  `Home`, proved equal to `HomeRun`. Also the three render conditions,
  and lemmas that connect the page to the other three files.

Two behaviours of the code that a reader might not expect:

- `getWordData` rejects only `""` (`src/lib/actions.ts:7`). Whitespace-only
  queries are turned into `""` by the search form, and the page then makes
  no lookup (`Page.WhitespaceQueryShowsWelcome`). A whitespace-only `word`
  parameter typed directly into the URL does reach the dictionary service.
- The suggester is called only when the first definition exists and is
  non-empty (`src/lib/actions.ts:31`). `Actions.SuggesterCalledIff` states
  this rule.

## Model

| member | source | states |
|---|---|---|
| `Actions.GetWordData` | src/lib/actions.ts:6-53 | the step-by-step action returns exactly the result `Lookup` specifies and issues exactly the calls `LookupCalls` lists |
| `Actions.Lookup` | src/lib/actions.ts:6-53 | a `WordData` comes back only for a non-empty word whose response was accepted as a non-empty entry array; that array is the dictionary, and the related words are those the suggester step yields for it |
| `Actions.LookupCalls` | src/lib/actions.ts:7-36 | no call is issued iff the word is `""`; otherwise the fetch comes first, at most one suggester call follows, only after an accepted entry array, and every call carries the word |
| `Actions.IsOk` | src/lib/actions.ts:14 | `response.ok` is the 2xx range, which never includes 404, so a 404 is always handled by the non-ok branch |
| `Actions.Verdict` | src/lib/actions.ts:14-25 | a 404 verdict happens iff the response status is 404; an accepted payload is always a non-empty entry array |
| `Actions.FirstDefinition` | src/lib/actions.ts:29 | the optional chain is defined iff the first entry, its first meaning and that meaning's first definition all exist, and then it is that definition's text |
| `Actions.SuggestContext` | src/lib/actions.ts:29-31 | a context exists iff the first definition exists and is non-empty (truthy), and it is then that definition's text |
| `Actions.Recovered` | src/lib/actions.ts:32-42 | the suggester's list is kept when it answered with one; a thrown error and a null output (whose `relatedWords` read throws) both leave `[]` |
| `Actions.RelatedWords` | src/lib/actions.ts:30-43 | the returned `relatedWords` is the suggester's recovered list when the first definition is truthy and `[]` otherwise; it is non-empty only when the suggester was called and answered with that list |
| `Actions.EmptyWordRejected` | src/lib/actions.ts:7-9 | the "Please enter a word." error happens iff the word is `""`, and exactly then no call is issued; whitespace-only words are not rejected |
| `Actions.ErrorMessagesDistinct` | src/lib/actions.ts:8-51 | the four error messages are pairwise different |
| `Actions.NotFoundIff` | src/lib/actions.ts:14-17 | the spelling error happens iff the word is non-empty and the response status is 404 |
| `Actions.FetchFailedIff` | src/lib/actions.ts:11-52 | the connection error happens iff the word is non-empty and there was a network failure, a non-ok status other than 404, or an ok response whose body failed to decode |
| `Actions.NoEntryIff` | src/lib/actions.ts:21-25 | the no-entry error happens iff the word is non-empty, the response is ok and decodes to the not-found object or to an empty array |
| `Actions.SuccessIff` | src/lib/actions.ts:21-48 | a `WordData` comes back iff the word is non-empty and the ok response decodes to a non-empty entry array; its `dictionary` is that array, unmodified |
| `Actions.ErrorsAreKnown` | src/lib/actions.ts:6-53 | every error result carries one of the four messages |
| `Actions.SuggesterCalledIff` | src/lib/actions.ts:29-36 | the suggester is called, after the single fetch, iff the lookup succeeds and the first definition exists and is non-empty; its context is that definition; at most two calls, the first always the fetch |
| `Actions.RelatedWordsOutcome` | src/lib/actions.ts:30-43 | `relatedWords` is the suggester's list, unmodified, when it was called and succeeded; `[]` when it was not called, returned a null output or threw |
| `Actions.SuggesterNeverBlocks` | src/lib/actions.ts:32-48 | the suggester's outcome changes neither whether the lookup succeeds, nor the error, nor the dictionary |
| `Actions.SerendipityScenario` | src/lib/actions.ts:27-48 | one "serendipity" entry with a noun meaning, and a suggester answering three words, give that entry and exactly those three words, after a fetch and one suggester call with the definition as context |
| `ResultsDisplay.AudioPhonetic` | src/components/dictionary/results-display.tsx:28 | the result is absent iff no phonetic has a non-empty audio URL; otherwise it is the earliest phonetic that has one |
| `ResultsDisplay.MainEntry` | src/components/dictionary/results-display.tsx:19 | the main entry is the first entry of the dictionary the lookup returned |
| `ResultsDisplay.FlatSynonyms` | src/components/dictionary/results-display.tsx:29 | a string is in the flattened list iff it is a synonym of some meaning; the list is empty iff every meaning's synonym list is |
| `ResultsDisplay.Dedup` | src/components/dictionary/results-display.tsx:29 | the result has no duplicates and exactly the elements of its input |
| `ResultsDisplay.DedupOrder` | src/components/dictionary/results-display.tsx:29 | the result lists elements in the order of their first occurrence in the input |
| `ResultsDisplay.DedupUnique` | src/components/dictionary/results-display.tsx:29 | any duplicate-free sequence with the input's elements in first-occurrence order equals `Dedup` of the input, so the three properties define the Set round trip completely |
| `ResultsDisplay.AllSynonyms` | src/components/dictionary/results-display.tsx:29 | `allSynonyms` has no duplicates, holds a string iff some meaning of the main entry lists it as a synonym, and follows first-occurrence order |
| `ResultsDisplay.Render` | src/components/dictionary/results-display.tsx:17-119 | the view shows the main entry `dictionary[0]`: its word, its `phonetic` text, its meanings and its first playable phonetic; the synonyms section appears iff some meaning has a non-empty synonym list, and then holds `allSynonyms`; the related-words section appears iff `relatedWords` is non-empty, and then lists them in the given order |
| `SearchForm.LowerChar` | src/components/dictionary/search-form.tsx:37 | a lowered character is never an upper-case ASCII letter, keeps its whitespace status, and changes only when it was an upper-case letter |
| `SearchForm.Lower` | src/components/dictionary/search-form.tsx:37 | lower-casing, with the ASCII-only character mapping, keeps the length and lowers each character in place |
| `SearchForm.LeadLength` | src/components/dictionary/search-form.tsx:37 | the leading run is all whitespace and is followed by a non-whitespace character or the end |
| `SearchForm.BodyEnd` | src/components/dictionary/search-form.tsx:37 | what follows the body is all whitespace, and the body ends in a non-whitespace character or is empty |
| `SearchForm.Trim` | src/components/dictionary/search-form.tsx:37 | the trimmed string is the contiguous part of the input between a whitespace prefix and a whitespace suffix, and it neither starts nor ends with whitespace |
| `SearchForm.IsWhitespace` | src/components/dictionary/search-form.tsx:37 | among code points below U+00A0, `trim` removes exactly tab, line feed, vertical tab, form feed, carriage return and space; it never removes an ASCII letter or digit |
| `SearchForm.Normalize` | src/components/dictionary/search-form.tsx:37 | the submitted key has no leading or trailing whitespace, contains no ASCII upper-case letter (A–Z) and is never longer than the input |
| `SearchForm.SchemaAccepts` | src/components/dictionary/search-form.tsx:20-24 | `min(1)` accepts the raw, untrimmed value iff it is not `""` |
| `SearchForm.Submit` | src/components/dictionary/search-form.tsx:20-38 | submission is rejected with the schema's message iff the raw input is `""`; otherwise it navigates to the normalised key |
| `SearchForm.TrimTrimmed` | src/components/dictionary/search-form.tsx:37 | trimming a string that has no edge whitespace returns it unchanged |
| `SearchForm.NormalizeIdempotent` | src/components/dictionary/search-form.tsx:37 | normalising an already normalised key changes nothing |
| `SearchForm.EmptyKeyIff` | src/components/dictionary/search-form.tsx:37 | the key is empty iff the raw input consists of whitespace only |
| `SearchForm.WhitespaceOnlySubmitsEmptyKey` | src/components/dictionary/search-form.tsx:20-37 | a non-empty whitespace-only input passes the schema, which checks the untrimmed value, and is submitted as `""` |
| `SearchForm.TrimLower` | src/components/dictionary/search-form.tsx:37 | trimming and lower-casing commute |
| `SearchForm.NormalizeIgnoresCase` | src/components/dictionary/search-form.tsx:37 | lower-casing the query first does not change its key |
| `SearchForm.CaseInsensitiveKey` | src/components/dictionary/search-form.tsx:37 | "Happy" and "happy" are both submitted as "happy" |
| `Page.Home` | src/app/page.tsx:14-25 | the page's dispatch produces exactly the state, the `getWordData` argument and the calls that `HomeRun` specifies |
| `Page.HomeRun` | src/app/page.tsx:14-25 | the word is the `word` parameter as read; something is looked up iff that word is non-empty, and then exactly that word; any `WordData` the page holds has a `dictionary[0]` |
| `Page.WordParam` | src/app/page.tsx:14 | a single string parameter is the word; a missing or repeated parameter gives `''` |
| `Page.ShowsErrorCard` | src/app/page.tsx:45-57 | the error card needs a non-null error, and an empty error string, being falsy, shows none |
| `Page.ShowsResults` | src/app/page.tsx:59 | the results are shown iff `wordData` is non-null |
| `Page.ShowsWelcome` | src/app/page.tsx:61-73 | the welcome card appears only with an empty word and no error card, and always with an empty word and a null error |
| `Page.HomeDispatch` | src/app/page.tsx:14-25 | a missing or repeated `word` parameter reads as `""`; the word is empty iff nothing is looked up, nothing is called and both locals stay null; otherwise the word is looked up, and an error result sets only `error`, a `WordData` only `wordData` |
| `Page.HomeConsistent` | src/app/page.tsx:14-25 | every state the page reaches is consistent: with an empty word both locals are null; otherwise exactly one is set; an error is a non-empty string; a `WordData` has a `dictionary[0]` |
| `Page.ExactlyOneView` | src/app/page.tsx:45-61 | in a consistent state exactly one of the error card, the results and the welcome card is shown, and the welcome card iff the word is empty |
| `Page.NeverLooksUpEmpty` | src/app/page.tsx:18-19 | the page never calls `getWordData` with `""`, so the "Please enter a word." error never reaches it |
| `Page.MainEntryDefined` | src/components/dictionary/results-display.tsx:19 | every `WordData` the lookup produces has a first entry, so `mainEntry` is always defined |
| `Page.WhitespaceQueryShowsWelcome` | src/components/dictionary/search-form.tsx:21-37 | a whitespace-only query passes the schema but becomes `""`; the page then looks nothing up, calls nothing and shows only the welcome card |
| `Page.SubmittedKeyIsLookedUp` | src/app/page.tsx:14-19 | provided the `/?word=` navigation delivers the submitted key unchanged, the page looks up exactly that key unless it is empty, and the key is already normalised, so normalisation happens once, in the form |

## Left out

- The HTTP request, the URL it is sent to (the word goes into the path
  unencoded) and JSON decoding. `FetchOutcome` stands for their result.
- The related-words flow (`src/ai/flows/suggest-related-words.ts`) and its
  prompt. The model call is not deterministic, so only its three outcomes
  are modelled, as a `SuggestOutcome`.
- Decoded entries are assumed to have the shapes of `src/lib/types.ts`. An
  ok array whose first element lacks a `meanings` array would make the
  source's optional chain throw, and the outer handler would then return
  the connection error. The model does not cover that case.
- `console.error` logging, which has no effect on results.
- React rendering, styling, tooltips, the accordion, the toaster and the
  badge keys. Only the data each section shows, and the conditions under
  which it appears, are modelled.
- Audio playback, `router.push` and the `window.location.href` navigation
  of the synonym and related-word badges.
- The source link `mainEntry.sourceUrls[0]`: it is only displayed.
- `Page.SubmittedKeyIsLookedUp`: assumes that the `/?word=<key>` round trip
  gives the page the key unchanged. The form puts the key into the URL
  without encoding it (`src/components/dictionary/search-form.tsx:37`), so a
  key containing `&`, `#`, `+` or `%` arrives altered ("rock&roll" arrives
  as "rock", "a+b" as "a b"). URL encoding and query-string parsing are not
  modelled.
- `SearchForm.LowerChar`: lowers only the ASCII letters A–Z. JavaScript's
  `toLowerCase` also lowers other Unicode letters; full Unicode case
  mapping is not modelled.
- `SearchForm.Lower`: "keeps the length" holds because of the ASCII-only
  mapping above. Full Unicode lower-casing can lengthen a string: "İ"
  (U+0130) lowers to two code units.
- `SearchForm.Normalize`: "no upper-case letter" means no A–Z letter, and
  "never longer than the input" rests on the same ASCII-only mapping. With
  full Unicode lower-casing the key could be longer than the input. The
  model's key can also keep non-ASCII upper-case letters such as "É"
  (U+00C9), which JavaScript would lower.
- `SearchForm.Trim`: removes the ECMAScript whitespace and line-terminator
  code points. Strings are sequences of Unicode scalar values, not of
  UTF-16 code units, so the schema's length count of `min(1)` is only
  modelled as "non-empty", which is the same test in both encodings.
- Concurrency and `async` scheduling: each request is one independent
  sequential run, so a run is a function of its two outcomes. Calling it
  twice with the same outcomes gives the same result, by construction.
- "Exactly one of an error or a `WordData`" is not a separate lemma. The
  result is a two-constructor datatype (`LookupResult`), so it holds by
  construction.
