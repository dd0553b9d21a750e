/** The search form of `src/components/dictionary/search-form.tsx`: the
    schema that checks the raw input, and the key `trim().toLowerCase()`
    that a valid submission navigates to. */
module SearchForm {

  /** The code points ECMAScript's `String.prototype.trim` removes: the
      WhiteSpace set (tab, vertical tab, form feed, no-break space, byte
      order mark and every space separator) and the LineTerminator set. */
  predicate IsWhitespace(c: char)
    ensures IsWhitespace(c) ==> c == ' ' || '\t' <= c <= '\r' || c as int >= 0xA0
    ensures c == ' ' || '\t' <= c <= '\r' ==> IsWhitespace(c)
    ensures IsWhitespace(c) ==> !('a' <= c <= 'z' || 'A' <= c <= 'Z' || '0' <= c <= '9')
  {
    c == '\t' || c == '\n' || c == '\U{000B}' || c == '\U{000C}' || c == '\r' ||
    c == ' ' || c == '\U{00A0}' || c == '\U{1680}' || ('\U{2000}' <= c <= '\U{200A}') ||
    c == '\U{2028}' || c == '\U{2029}' || c == '\U{202F}' || c == '\U{205F}' ||
    c == '\U{3000}' || c == '\U{FEFF}'
  }

  predicate AllWhitespace(s: string) {
    forall i :: 0 <= i < |s| ==> IsWhitespace(s[i])
  }

  /** Neither the first nor the last character is whitespace. */
  predicate NoEdgeWhitespace(s: string) {
    s == [] || (!IsWhitespace(s[0]) && !IsWhitespace(s[|s| - 1]))
  }

  predicate IsUpper(c: char) {
    'A' <= c <= 'Z'
  }

  /** `toLowerCase` on one character, for the ASCII letters. */
  function LowerChar(c: char): (d: char)
    ensures !IsUpper(d)
    ensures IsWhitespace(d) == IsWhitespace(c)
    ensures IsUpper(c) ==> d as int == c as int + 32
    ensures !IsUpper(c) ==> d == c
  {
    if IsUpper(c) then (c as int + 32) as char else c
  }

  /** `toLowerCase`: every character lowered, nothing else changed. */
  function Lower(s: string): (r: string)
    ensures |r| == |s|
    ensures forall i :: 0 <= i < |s| ==> r[i] == LowerChar(s[i])
  {
    if s == [] then [] else [LowerChar(s[0])] + Lower(s[1..])
  }

  /** The number of whitespace characters `s` starts with. */
  function LeadLength(s: string): (n: nat)
    ensures n <= |s|
    ensures forall i :: 0 <= i < n ==> IsWhitespace(s[i])
    ensures n < |s| ==> !IsWhitespace(s[n])
  {
    if s == [] || !IsWhitespace(s[0]) then 0
    else
      var n := 1 + LeadLength(s[1..]);
      assert forall i :: 1 <= i < n ==> s[i] == s[1..][i - 1];
      n
  }

  /** The length of `s` without the whitespace it ends with. */
  function BodyEnd(s: string): (n: nat)
    ensures n <= |s|
    ensures AllWhitespace(s[n..])
    ensures n > 0 ==> !IsWhitespace(s[n - 1])
  {
    if s == [] || !IsWhitespace(s[|s| - 1]) then |s|
    else
      var n := BodyEnd(s[..|s| - 1]);
      assert forall i :: n <= i < |s| - 1 ==> s[i] == s[..|s| - 1][i];
      n
  }

  /** `trim`: the part of `s` between its leading and its trailing
      whitespace, which are removed entirely. */
  function Trim(s: string): (r: string)
    ensures NoEdgeWhitespace(r)
    ensures var a := LeadLength(s);
      a + |r| <= |s| && r == s[a..a + |r|] &&
      AllWhitespace(s[..a]) && AllWhitespace(s[a + |r|..])
  {
    var a := LeadLength(s);
    var rest := s[a..];
    var r := rest[..BodyEnd(rest)];
    assert AllWhitespace(s[a + |r|..]) by {
      assert s[a + |r|..] == rest[BodyEnd(rest)..];
    }
    r
  }

  /** The key a submission navigates to: `data.word.trim().toLowerCase()`.
      It neither starts nor ends with whitespace and holds no upper-case
      letter. */
  function Normalize(raw: string): (k: string)
    ensures NoEdgeWhitespace(k)
    ensures forall i :: 0 <= i < |k| ==> !IsUpper(k[i])
    ensures |k| <= |raw|
  {
    var t := Trim(raw);
    var k := Lower(t);
    assert t != [] ==> k[0] == LowerChar(t[0]) && k[|t| - 1] == LowerChar(t[|t| - 1]);
    k
  }

  const EmptyInputMessage := "Please enter a word to look up."

  /** `z.string().min(1)`: the raw, untrimmed value is non-empty. */
  predicate SchemaAccepts(raw: string)
    ensures SchemaAccepts(raw) <==> raw != ""
  {
    |raw| >= 1
  }

  /** What submitting the form does: the schema message, or navigation to
      `/?word=<key>`. */
  datatype SubmitOutcome = Rejected(message: string) | Navigate(key: string)

  function Submit(raw: string): (o: SubmitOutcome)
    ensures o.Rejected? <==> raw == ""
    ensures o.Rejected? ==> o.message == EmptyInputMessage
    ensures o.Navigate? ==> o.key == Normalize(raw)
  {
    if SchemaAccepts(raw) then Navigate(Normalize(raw)) else Rejected(EmptyInputMessage)
  }

  // ----- Properties of the submitted key -----

  /** Trimming a string without edge whitespace changes nothing. */
  lemma TrimTrimmed(s: string)
    requires NoEdgeWhitespace(s)
    ensures Trim(s) == s
  {
    if s != [] {
      assert LeadLength(s) == 0;
      assert BodyEnd(s) == |s|;
    }
  }

  /** Normalising an already normalised key changes nothing. */
  lemma NormalizeIdempotent(raw: string)
    ensures Normalize(Normalize(raw)) == Normalize(raw)
  {
    var k := Normalize(raw);
    TrimTrimmed(k);
    assert Lower(k) == k;
  }

  /** The key is empty exactly when the raw input is nothing but whitespace. */
  lemma EmptyKeyIff(raw: string)
    ensures Normalize(raw) == "" <==> AllWhitespace(raw)
  {
    var a := LeadLength(raw);
    if AllWhitespace(raw) {
      assert a == |raw|;
    } else {
      var i :| 0 <= i < |raw| && !IsWhitespace(raw[i]);
    }
  }

  /** Whitespace-only input passes the schema, which looks at the untrimmed
      value, but is submitted as the empty key. */
  lemma WhitespaceOnlySubmitsEmptyKey(raw: string)
    requires raw != "" && AllWhitespace(raw)
    ensures SchemaAccepts(raw) && Submit(raw) == Navigate("")
  {
    EmptyKeyIff(raw);
  }

  lemma {:induction false} LeadLengthLower(s: string)
    ensures LeadLength(Lower(s)) == LeadLength(s)
  {
    if s != [] && IsWhitespace(s[0]) {
      assert Lower(s)[1..] == Lower(s[1..]);
      LeadLengthLower(s[1..]);
    }
  }

  lemma {:induction false} BodyEndLower(s: string)
    ensures BodyEnd(Lower(s)) == BodyEnd(s)
  {
    if s != [] && IsWhitespace(s[|s| - 1]) {
      assert Lower(s)[..|s| - 1] == Lower(s[..|s| - 1]);
      BodyEndLower(s[..|s| - 1]);
    }
  }

  /** Lower-casing commutes with taking a slice. */
  lemma LowerSlice(s: string, i: nat, j: nat)
    requires i <= j <= |s|
    ensures Lower(s)[i..j] == Lower(s[i..j])
  {
  }

  /** Lower-casing before trimming or after it gives the same string. */
  lemma TrimLower(s: string)
    ensures Trim(Lower(s)) == Lower(Trim(s))
  {
    var l := Lower(s);
    var a := LeadLength(s);
    LeadLengthLower(s);
    var rest := s[a..];
    LowerSlice(s, a, |s|);
    var e := BodyEnd(rest);
    BodyEndLower(rest);
    LowerSlice(rest, 0, e);
    assert l[a..] == Lower(rest);
    assert Lower(rest)[..e] == Lower(rest)[0..e];
    assert rest[..e] == rest[0..e];
  }

  /** The key does not depend on the case of the query's letters. */
  lemma NormalizeIgnoresCase(raw: string)
    ensures Normalize(Lower(raw)) == Normalize(raw)
  {
    TrimLower(raw);
    assert Lower(Lower(Trim(raw))) == Lower(Trim(raw));
  }

  /** Differently capitalised queries lead to the same key. */
  lemma CaseInsensitiveKey()
    ensures Normalize("Happy") == Normalize("happy") == "happy"
  {
    TrimTrimmed("Happy");
    TrimTrimmed("happy");
    var u, l := Lower("Happy"), Lower("happy");
    assert u[0] == 'h' && u[1] == 'a' && u[2] == 'p' && u[3] == 'p' && u[4] == 'y';
    assert l[0] == 'h' && l[1] == 'a' && l[2] == 'p' && l[3] == 'p' && l[4] == 'y';
  }
}
