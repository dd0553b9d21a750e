/** The values `ResultsDisplay` (`src/components/dictionary/results-display.tsx`)
    derives from a `WordData` before rendering: the main entry, the first
    phonetic that can be played, the merged synonym list, and which optional
    sections appear. */
module ResultsDisplay {
  import opened Types

  /** A `WordData` the display can show: `dictionary[0]` exists. */
  predicate Displayable(data: WordData) {
    |data.dictionary| > 0
  }

  /** `dictionary[0]`: the first entry the dictionary service returned. */
  function MainEntry(data: WordData): (e: DictionaryEntry)
    requires Displayable(data)
    ensures e in data.dictionary && e == data.dictionary[0]
  {
    data.dictionary[0]
  }

  /** `phonetics.find(p => p.audio)`: the earliest phonetic whose audio URL
      is truthy (non-empty); absent when none has one. */
  function AudioPhonetic(phonetics: seq<Phonetic>): (r: Option<Phonetic>)
    ensures r.None? <==> forall i :: 0 <= i < |phonetics| ==> phonetics[i].audio == ""
    ensures r.Some? ==> exists i :: (0 <= i < |phonetics| && phonetics[i] == r.value &&
      phonetics[i].audio != "" && forall j :: 0 <= j < i ==> phonetics[j].audio == "")
  {
    if phonetics == [] then None
    else if phonetics[0].audio != "" then Some(phonetics[0])
    else
      var r := AudioPhonetic(phonetics[1..]);
      if r.Some? then
        ghost var i :| 0 <= i < |phonetics[1..]| && phonetics[1..][i] == r.value &&
          phonetics[1..][i].audio != "" && forall j :: 0 <= j < i ==> phonetics[1..][j].audio == "";
        assert phonetics[i + 1] == r.value;
        assert forall j :: 0 <= j < i + 1 ==> phonetics[j].audio == "" by {
          forall j | 0 < j < i + 1 ensures phonetics[j].audio == "" {
            assert phonetics[j] == phonetics[1..][j - 1];
          }
        }
        r
      else
        assert forall i :: 0 < i < |phonetics| ==> phonetics[i] == phonetics[1..][i - 1];
        r
  }

  /** `meanings.flatMap(m => m.synonyms)`: the meaning-level synonym lists,
      concatenated in order. */
  function FlatSynonyms(meanings: seq<Meaning>): (r: seq<string>)
    ensures forall x :: x in r <==> exists k :: 0 <= k < |meanings| && x in meanings[k].synonyms
    ensures r == [] <==> forall k :: 0 <= k < |meanings| ==> meanings[k].synonyms == []
  {
    if meanings == [] then []
    else
      var rest := FlatSynonyms(meanings[1..]);
      assert forall k :: 0 < k < |meanings| ==> meanings[k] == meanings[1..][k - 1];
      forall x | x in rest ensures exists k :: 0 <= k < |meanings| && x in meanings[k].synonyms {
        var k :| 0 <= k < |meanings[1..]| && x in meanings[1..][k].synonyms;
        assert x in meanings[k + 1].synonyms;
      }
      meanings[0].synonyms + rest
  }

  predicate NoDuplicates(s: seq<string>) {
    forall i, j :: 0 <= i < j < |s| ==> s[i] != s[j]
  }

  /** The index of the first occurrence of `x` in `s`, or `|s|` if none. */
  function IndexOf(s: seq<string>, x: string): (k: nat)
    ensures k <= |s|
    ensures k < |s| <==> x in s
    ensures k < |s| ==> s[k] == x
    ensures forall j :: 0 <= j < k ==> s[j] != x
  {
    if s == [] then 0
    else if s[0] == x then 0
    else 1 + IndexOf(s[1..], x)
  }

  /** The elements of `t` appear in the order in which they first occur in `s`. */
  predicate FirstOccurrenceOrder(t: seq<string>, s: seq<string>) {
    forall i, j :: 0 <= i < j < |t| ==> IndexOf(s, t[i]) < IndexOf(s, t[j])
  }

  /** `Array.from(new Set(s))`: a `Set` keeps each string once, at the place
      where it was first inserted. */
  function Dedup(s: seq<string>): (r: seq<string>)
    ensures NoDuplicates(r)
    ensures forall x :: x in r <==> x in s
    ensures |r| <= |s|
  {
    if s == [] then []
    else
      var r := Dedup(s[..|s| - 1]);
      assert forall x :: x in s <==> x in s[..|s| - 1] || x == s[|s| - 1] by {
        assert s == s[..|s| - 1] + [s[|s| - 1]];
      }
      if s[|s| - 1] in r then r else r + [s[|s| - 1]]
  }

  /** Extending `s` leaves the first occurrence of an element of `s` where it was. */
  lemma {:induction false} IndexOfExtend(s: seq<string>, y: string, x: string)
    requires x in s
    ensures IndexOf(s + [y], x) == IndexOf(s, x)
  {
    if s[0] != x {
      assert (s + [y])[1..] == s[1..] + [y];
      IndexOfExtend(s[1..], y, x);
    }
  }

  /** `Dedup` lists its elements in first-occurrence order of its input. */
  lemma {:induction false} DedupOrder(s: seq<string>)
    ensures FirstOccurrenceOrder(Dedup(s), s)
  {
    if s != [] {
      var p, y := s[..|s| - 1], s[|s| - 1];
      assert s == p + [y];
      DedupOrder(p);
      var r := Dedup(p);
      forall x | x in r ensures IndexOf(s, x) == IndexOf(p, x) {
        IndexOfExtend(p, y, x);
      }
      if y !in r {
        assert IndexOf(s, y) == |p| by {
          assert y !in p;
          forall j | 0 <= j < |p| ensures s[j] != y { assert s[j] == p[j]; }
        }
        var t := r + [y];
        forall i, j | 0 <= i < j < |t| ensures IndexOf(s, t[i]) < IndexOf(s, t[j]) {
          if j == |r| {
            assert t[i] == r[i] && t[i] in p;
          } else {
            assert t[i] == r[i] && t[j] == r[j];
          }
        }
      }
    }
  }

  /** The three properties pin `Dedup` down: any duplicate-free sequence with
      the same elements as `s`, in first-occurrence order, is `Dedup(s)`. */
  lemma DedupUnique(s: seq<string>, t: seq<string>)
    requires NoDuplicates(t)
    requires forall x :: x in t <==> x in s
    requires FirstOccurrenceOrder(t, s)
    ensures t == Dedup(s)
  {
    DedupOrder(s);
    OrderedUnique(s, t, Dedup(s));
  }

  /** Dropping the last element keeps a sequence duplicate-free and in
      first-occurrence order, and removes exactly that element. */
  lemma DropLast(s: seq<string>, t: seq<string>)
    requires t != [] && NoDuplicates(t) && FirstOccurrenceOrder(t, s)
    ensures NoDuplicates(t[..|t| - 1]) && FirstOccurrenceOrder(t[..|t| - 1], s)
    ensures forall x :: x in t[..|t| - 1] <==> x in t && x != t[|t| - 1]
  {
    var t' := t[..|t| - 1];
    forall x | x in t && x != t[|t| - 1] ensures x in t' {
      var i :| 0 <= i < |t| && t[i] == x;
      assert t'[i] == x;
    }
  }

  lemma HeadIn(u: seq<string>)
    requires u != []
    ensures u[0] in u
  {
  }

  /** In first-occurrence order, the last element occurs latest in `s`. */
  lemma LastIsLatest(s: seq<string>, t: seq<string>, x: string)
    requires t != [] && FirstOccurrenceOrder(t, s)
    requires x in t && x != t[|t| - 1]
    ensures IndexOf(s, x) < IndexOf(s, t[|t| - 1])
  {
    var i :| 0 <= i < |t| && t[i] == x;
    assert i < |t| - 1;
  }

  /** Two duplicate-free sequences with the same elements, both in
      first-occurrence order of `s`, are equal. */
  lemma {:induction false} OrderedUnique(s: seq<string>, t: seq<string>, u: seq<string>)
    requires NoDuplicates(t) && NoDuplicates(u)
    requires forall x :: x in t <==> x in u
    requires FirstOccurrenceOrder(t, s) && FirstOccurrenceOrder(u, s)
    ensures t == u
    decreases |t|
  {
    if t == [] {
      if u != [] {
        HeadIn(u);
        assert false;
      }
    } else {
      assert u != [] by { assert t[0] in u; }
      var a, b := t[|t| - 1], u[|u| - 1];
      // the last element of each is the one whose first occurrence is latest
      assert a == b by {
        if a != b {
          assert b in u && a in t;
          LastIsLatest(s, t, b);
          LastIsLatest(s, u, a);
        }
      }
      var t', u' := t[..|t| - 1], u[..|u| - 1];
      DropLast(s, t);
      DropLast(s, u);
      forall x ensures x in t' <==> x in u' {
        assert x in t <==> x in u;
      }
      OrderedUnique(s, t', u');
      assert t == t' + [a] && u == u' + [b];
    }
  }

  /** `allSynonyms` of the main entry: each synonym of some meaning exactly
      once, none other, in first-occurrence order. */
  function AllSynonyms(entry: DictionaryEntry): (r: seq<string>)
    ensures NoDuplicates(r)
    ensures forall x :: x in r <==> exists k :: 0 <= k < |entry.meanings| && x in entry.meanings[k].synonyms
    ensures FirstOccurrenceOrder(r, FlatSynonyms(entry.meanings))
  {
    DedupOrder(FlatSynonyms(entry.meanings));
    Dedup(FlatSynonyms(entry.meanings))
  }

  /** What the display shows of a `WordData`: the headline, the play button's
      phonetic, one definitions section per meaning, and the optional
      synonyms and related-words sections with their badges in order. */
  datatype View = View(
    word: string,
    phonetic: string,
    audio: Option<Phonetic>,
    definitionSections: seq<Meaning>,
    synonymsSection: Option<seq<string>>,
    relatedSection: Option<seq<string>>)

  function Render(data: WordData): (v: View)
    requires Displayable(data)
    ensures v.word == data.dictionary[0].word && v.definitionSections == data.dictionary[0].meanings
    ensures v.phonetic == data.dictionary[0].phonetic
    ensures v.audio == AudioPhonetic(data.dictionary[0].phonetics)
    ensures v.synonymsSection.Some? <==>
      exists k :: 0 <= k < |data.dictionary[0].meanings| && data.dictionary[0].meanings[k].synonyms != []
    ensures v.synonymsSection.Some? ==> v.synonymsSection.value == AllSynonyms(data.dictionary[0])
    ensures v.relatedSection.Some? <==> data.relatedWords != []
    ensures v.relatedSection.Some? ==> v.relatedSection.value == data.relatedWords
  {
    var entry := MainEntry(data);
    var allSynonyms := AllSynonyms(entry);
    assert allSynonyms == [] <==> FlatSynonyms(entry.meanings) == [] by {
      if FlatSynonyms(entry.meanings) != [] {
        assert FlatSynonyms(entry.meanings)[0] in allSynonyms;
      }
    }
    View(
      entry.word,
      entry.phonetic,
      AudioPhonetic(entry.phonetics),
      entry.meanings,
      if |allSynonyms| > 0 then Some(allSynonyms) else None,
      if |data.relatedWords| > 0 then Some(data.relatedWords) else None)
  }
}
