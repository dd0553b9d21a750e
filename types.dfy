/** Records exchanged with the dictionary service and the user interface
    (the shapes of `src/lib/types.ts`). Optional members become `Option`. */
module Types {

  datatype Option<+T> = None | Some(value: T)

  datatype License = License(name: string, url: string)

  /** One pronunciation; `audio` is a URL, possibly empty. */
  datatype Phonetic = Phonetic(
    text: string,
    audio: string,
    sourceUrl: Option<string>,
    license: Option<License>)

  datatype Definition = Definition(
    definition: string,
    synonyms: seq<string>,
    antonyms: seq<string>,
    example: Option<string>)

  /** A part-of-speech-scoped group of definitions. */
  datatype Meaning = Meaning(
    partOfSpeech: string,
    definitions: seq<Definition>,
    synonyms: seq<string>,
    antonyms: seq<string>)

  datatype DictionaryEntry = DictionaryEntry(
    word: string,
    phonetic: string,
    phonetics: seq<Phonetic>,
    meanings: seq<Meaning>,
    license: License,
    sourceUrls: seq<string>)

  /** The object the dictionary service sends instead of an entry array. */
  datatype WordNotFound = WordNotFound(title: string, message: string, resolution: string)

  /** A decoded response body: an array of entries, or the not-found object. */
  datatype DictionaryResponse =
    | Entries(entries: seq<DictionaryEntry>)
    | NotFoundObject(notFound: WordNotFound)

  /** What a successful lookup hands to the results display. */
  datatype WordData = WordData(dictionary: seq<DictionaryEntry>, relatedWords: seq<string>)
}
