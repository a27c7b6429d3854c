/** The OCR text parser of the identity-card tool (backend/tools/payment/extract_name.py,
    `parse_student_info`): two case-insensitive regular-expression searches, written out here
    as leftmost matchers whose repetitions are greedy, as Python's `re.search` runs them. */
module ExtractName {
  import opened Wrappers
  import opened Strings

  /** The end of the run of characters satisfying `keep` that starts at `i`. */
  function Skip(s: string, i: nat, keep: char -> bool): (r: nat)
    requires i <= |s|
    ensures i <= r <= |s|
    ensures forall k :: i <= k < r ==> keep(s[k])
    ensures r < |s| ==> !keep(s[r])
    decreases |s| - i
  {
    if i < |s| && keep(s[i]) then Skip(s, i + 1, keep) else i
  }

  /** A run found by `Skip` is the only maximal one: a run of `keep` from `i` that ends at a
      character outside `keep` ends where `Skip` stops. */
  lemma SkipUnique(s: string, i: nat, r: nat, keep: char -> bool)
    requires i <= r <= |s|
    requires forall k :: i <= k < r ==> keep(s[k])
    requires r < |s| ==> !keep(s[r])
    ensures Skip(s, i, keep) == r
  {
  }

  /** A span `s[start..end]`. */
  datatype Span = Span(start: nat, end: nat)

  // ---------------------------------------------------------------------------------------------
  // The name: STUDENT\s+([A-Z][A-Za-z]+(?:\s+[A-Z][A-Za-z]+){0,2}), ignoring case

  predicate Letter(c: char) {
    IsAsciiLetter(c)
  }

  /** A word of the name starts at `k`: a letter not preceded by one. */
  predicate WordStart(s: string, k: nat) {
    0 < k < |s| && Letter(s[k]) && !Letter(s[k - 1])
  }

  /** The number of words starting in `[lo, hi)`. */
  function Starts(s: string, lo: nat, hi: nat): nat
    requires lo <= hi <= |s|
    decreases hi - lo
  {
    if lo == hi then 0 else (if WordStart(s, hi - 1) then 1 else 0) + Starts(s, lo, hi - 1)
  }

  lemma {:induction false} StartsSplit(s: string, lo: nat, mid: nat, hi: nat)
    requires lo <= mid <= hi <= |s|
    ensures Starts(s, lo, hi) == Starts(s, lo, mid) + Starts(s, mid, hi)
    decreases hi - mid
  {
    if mid < hi {
      StartsSplit(s, lo, mid, hi - 1);
    }
  }

  /** Spaces on `[i, j)` and letters on `[j, e)` hold exactly one word start, at `j`. */
  lemma {:induction false} StartsOneWord(s: string, i: nat, j: nat, e: nat)
    requires i < j < e <= |s|
    requires forall k :: i <= k < j ==> IsSpace(s[k])
    requires forall k :: j <= k < e ==> Letter(s[k])
    ensures Starts(s, i, e) == 1
    decreases e
  {
    if e - 1 == j {
      NoStartsInSpaces(s, i, j);
    } else {
      StartsOneWord(s, i, j, e - 1);
    }
  }

  lemma {:induction false} NoStartsInSpaces(s: string, i: nat, j: nat)
    requires i <= j <= |s|
    requires forall k :: i <= k < j ==> IsSpace(s[k])
    ensures Starts(s, i, j) == 0
    decreases j
  {
    if i < j {
      NoStartsInSpaces(s, i, j - 1);
    }
  }

  /** Letters and whitespace only. */
  predicate LettersAndSpaces(s: string, lo: nat, hi: nat)
    requires lo <= hi <= |s|
  {
    forall k :: lo <= k < hi ==> Letter(s[k]) || IsSpace(s[k])
  }

  /** Every word starting in `[lo, hi)` has at least two letters before `hi`. */
  predicate LongWords(s: string, lo: nat, hi: nat)
    requires lo <= hi <= |s|
  {
    forall k :: lo <= k < hi && WordStart(s, k) ==> k + 1 < hi && Letter(s[k + 1])
  }

  /** `i` ends a run of letters. */
  predicate WordEnd(s: string, i: nat) {
    0 < i <= |s| && Letter(s[i - 1]) && (i == |s| || !Letter(s[i]))
  }

  /** The optional words `(?:\s+[A-Z][A-Za-z]+){0,more}` after a word ending at `i`, taken
      greedily: the end of the name group. */
  function MoreWords(s: string, i: nat, more: nat): (r: nat)
    requires WordEnd(s, i)
    ensures i <= r <= |s| && WordEnd(s, r)
    ensures LettersAndSpaces(s, i, r) && LongWords(s, i, r)
    ensures Starts(s, i, r) <= more
    decreases more
  {
    if more == 0 then i
    else
      var j := Skip(s, i, IsSpace);
      var e := Skip(s, j, Letter);
      if j > i && e >= j + 2 then
        var r := MoreWords(s, e, more - 1);
        StartsOneWord(s, i, j, e);
        StartsSplit(s, i, e, r);
        r
      else i
  }

  /** Greedy: any shorter or equal candidate end `r` after `i` — whitespace and words of two
      letters or more, at most `more` of them, ending at a word end — is within the group. */
  lemma {:induction false} MoreWordsLongest(s: string, i: nat, more: nat, r: nat)
    requires WordEnd(s, i) && i <= r <= |s| && WordEnd(s, r)
    requires LettersAndSpaces(s, i, r) && LongWords(s, i, r) && Starts(s, i, r) <= more
    ensures r <= MoreWords(s, i, more)
    decreases more
  {
    if r > i {
      var e := NextWordWithin(s, i, r, more);
      MoreWordsLongest(s, e, more - 1, r);
    }
  }

  /** The first optional word after `i` of a candidate ending at `r` lies within the candidate:
      whitespace, then a word of two letters or more, and the rest is again a candidate. */
  lemma NextWordWithin(s: string, i: nat, r: nat, more: nat) returns (e: nat)
    requires WordEnd(s, i) && i < r <= |s| && WordEnd(s, r)
    requires LettersAndSpaces(s, i, r) && LongWords(s, i, r) && Starts(s, i, r) <= more
    ensures more >= 1 && e <= r && WordEnd(s, e)
    ensures LettersAndSpaces(s, e, r) && LongWords(s, e, r) && Starts(s, e, r) <= more - 1
    ensures MoreWords(s, i, more) == MoreWords(s, e, more - 1)
  {
    var j := FirstWordStart(s, i, r);
    e := Skip(s, j, Letter);
    assert e <= r;
    StartsOneWord(s, i, j, e);
    StartsSplit(s, i, e, r);
  }

  /** The whitespace after `i` ends at the start of a word of the candidate. */
  lemma FirstWordStart(s: string, i: nat, r: nat) returns (j: nat)
    requires WordEnd(s, i) && i < r <= |s| && WordEnd(s, r)
    requires LettersAndSpaces(s, i, r) && LongWords(s, i, r)
    ensures j == Skip(s, i, IsSpace) && i < j < r && WordStart(s, j) && Letter(s[j + 1]) && j + 1 < r
  {
    assert IsSpace(s[i]);
    j := Skip(s, i, IsSpace);
    assert j < r;
    assert WordStart(s, j);
  }

  /** The word `STUDENT`, ignoring case, at position `p`, followed by the name group. */
  ghost predicate NameShape(s: string, p: nat, g: Span) {
    && OccursAtNoCase(s, "student", p)
    && p + 7 < g.start < g.end <= |s|
    && (forall k :: p + 7 <= k < g.start ==> IsSpace(s[k]))
    && WordStart(s, g.start) && WordEnd(s, g.end)
    && LettersAndSpaces(s, g.start, g.end) && LongWords(s, g.start, g.end)
    && 1 <= Starts(s, g.start, g.end) <= 3
  }

  /** The match of the name pattern at position `p`, if there is one. */
  function NameAt(s: string, p: nat): (r: Option<Span>)
    ensures r.Some? ==> p + 7 < r.value.start < r.value.end <= |s|
    ensures r.Some? ==> NameShape(s, p, r.value)
  {
    if !OccursAtNoCase(s, "student", p) then None
    else
      var q := p + 7;
      var j := Skip(s, q, IsSpace);
      var e := Skip(s, j, Letter);
      if j > q && e >= j + 2 then
        var r := MoreWords(s, e, 2);
        StartsOneWord(s, q, j, e);
        StartsSplit(s, j, e, r);
        StartsSplit(s, q, j, e);
        NoStartsInSpaces(s, q, j);
        Some(Span(j, r))
      else None
  }

  /** A name group at `p` is found there, and the group found is the longest: the pattern's
      optional words are greedy. */
  lemma NameAtComplete(s: string, p: nat, g: Span)
    requires NameShape(s, p, g)
    ensures NameAt(s, p).Some? && NameAt(s, p).value.start == g.start && g.end <= NameAt(s, p).value.end
  {
    var q := p + 7;
    SkipUnique(s, q, g.start, IsSpace);
    var j := g.start;
    var e := Skip(s, j, Letter);
    assert e >= j + 2;
    assert e <= g.end;
    assert Letter(s[e - 1]);
    StartsOneWord(s, j - 1, j, e);
    StartsSplit(s, j - 1, j, e);
    StartsSplit(s, j, e, g.end);
    assert Starts(s, j - 1, j) == 0;
    MoreWordsLongest(s, e, 2, g.end);
  }

  // ---------------------------------------------------------------------------------------------
  // The registration number: Registration\s+Number\s*:?\s*([\d\w*]+), ignoring case

  /** A separator character 0x1C is whitespace to the pattern's `\s`, so the name after it is
      found. */
  lemma SeparatorBeforeName()
    ensures NameAt("STUDENT\U{001C}JOHN", 0) == Some(Span(8, 12))
  {
    var s := "STUDENT\U{001C}JOHN";
    assert OccursAtNoCase(s, "student", 0);
    assert Skip(s, 8, IsSpace) == 8;
    assert Skip(s, 7, IsSpace) == 8;
    assert Skip(s, 12, Letter) == 12;
    assert Skip(s, 8, Letter) == 12;
    assert MoreWords(s, 12, 2) == 12;
  }

  /** A character of `[\d\w*]` (the ASCII ones; see README). */
  predicate WordChar(c: char) {
    IsAsciiLetter(c) || IsDigit(c) || c == '_' || c == '*'
  }

  /** From `i`: whitespace up to `c`, an optional colon, whitespace from `x`, and the group
      `\s*:?\s*([\d\w*]+)`. */
  ghost predicate GroupShape(s: string, i: nat, c: nat, x: nat, g: Span) {
    && i <= c <= x <= g.start < g.end <= |s|
    && (forall k :: i <= k < c ==> IsSpace(s[k]))
    && (x == c || (x == c + 1 && s[c] == ':'))
    && (forall k :: x <= k < g.start ==> IsSpace(s[k]))
    && (forall k :: g.start <= k < g.end ==> WordChar(s[k]))
    && (g.end == |s| || !WordChar(s[g.end]))
  }

  /** `Registration` at `p`, whitespace, `Number` at `m`, and the group after it. */
  ghost predicate RegistrationShape(s: string, p: nat, m: nat, c: nat, x: nat, g: Span) {
    && p + 12 < m && m + 6 <= |s|
    && OccursAtNoCase(s, "registration", p)
    && (forall k :: p + 12 <= k < m ==> IsSpace(s[k]))
    && OccursAtNoCase(s, "number", m)
    && GroupShape(s, m + 6, c, x, g)
  }

  /** The group after `Number`, if there is one. */
  function GroupAfter(s: string, i: nat): (r: Option<Span>)
    requires i <= |s|
    ensures r.Some? ==> r.value.start < r.value.end <= |s|
    ensures r.Some? ==> forall k :: r.value.start <= k < r.value.end ==> WordChar(s[k])
    ensures r.Some? ==> exists c: nat, x: nat :: GroupShape(s, i, c, x, r.value)
  {
    var c := Skip(s, i, IsSpace);
    var x := if c < |s| && s[c] == ':' then c + 1 else c;
    var a := Skip(s, x, IsSpace);
    var b := Skip(s, a, WordChar);
    if b == a then None
    else
      assert GroupShape(s, i, c, x, Span(a, b));
      Some(Span(a, b))
  }

  /** Any group after `i` is the one found there. */
  lemma GroupAfterComplete(s: string, i: nat, c: nat, x: nat, g: Span)
    requires GroupShape(s, i, c, x, g)
    ensures GroupAfter(s, i) == Some(g)
  {
    // The whitespace ends at the colon, or at the group when there is none.
    if x == c + 1 {
      SkipUnique(s, i, c, IsSpace);
      assert (if c < |s| && s[c] == ':' then c + 1 else c) == x;
    } else {
      SkipUnique(s, i, g.start, IsSpace);
      assert (if g.start < |s| && s[g.start] == ':' then g.start + 1 else g.start) == g.start;
    }
    GroupAt(s, g);
  }

  /** From the start of a group on, the whitespace is empty and the run is the group. */
  lemma GroupAt(s: string, g: Span)
    requires g.start < g.end <= |s| && (forall k :: g.start <= k < g.end ==> WordChar(s[k]))
    requires g.end == |s| || !WordChar(s[g.end])
    ensures Skip(s, g.start, IsSpace) == g.start && Skip(s, g.start, WordChar) == g.end
  {
    assert WordChar(s[g.start]);
    SkipUnique(s, g.start, g.start, IsSpace);
    SkipUnique(s, g.start, g.end, WordChar);
  }

  /** The match of the registration pattern at position `p`, if there is one. */
  function RegistrationAt(s: string, p: nat): (r: Option<Span>)
    ensures r.Some? ==> r.value.start < r.value.end <= |s|
    ensures r.Some? ==> forall k :: r.value.start <= k < r.value.end ==> WordChar(s[k])
    ensures r.Some? ==> exists m: nat, c: nat, x: nat :: RegistrationShape(s, p, m, c, x, r.value)
  {
    if !OccursAtNoCase(s, "registration", p) then None
    else
      var m := Skip(s, p + 12, IsSpace);
      if m == p + 12 || !OccursAtNoCase(s, "number", m) then None
      else
        var r := GroupAfter(s, m + 6);
        if r.None? then None
        else
          assert exists c: nat, x: nat :: RegistrationShape(s, p, m, c, x, r.value) by {
            var c: nat, x: nat :| GroupShape(s, m + 6, c, x, r.value);
            assert RegistrationShape(s, p, m, c, x, r.value);
          }
          r
  }

  /** Any registration group at `p` is the one found there: the match at a position is unique. */
  lemma RegistrationAtComplete(s: string, p: nat, m: nat, c: nat, x: nat, g: Span)
    requires RegistrationShape(s, p, m, c, x, g)
    ensures RegistrationAt(s, p) == Some(g)
  {
    NumberNotSpace(s, m);
    SkipUnique(s, p + 12, m, IsSpace);
    GroupAfterComplete(s, m + 6, c, x, g);
  }

  /** `Number` does not start with whitespace, so the whitespace before it ends where it starts. */
  lemma NumberNotSpace(s: string, m: nat)
    requires OccursAtNoCase(s, "number", m)
    ensures m < |s| && !IsSpace(s[m])
  {
    assert ToLower(s[m + 0]) == "number"[0];
  }

  // ---------------------------------------------------------------------------------------------
  // The search and the result

  /** `re.search`: the leftmost position from `from` on where the pattern matches. */
  function Leftmost(s: string, from: nat, at: (string, nat) -> Option<Span>): (r: Option<nat>)
    ensures r.Some? ==> from <= r.value <= |s| && at(s, r.value).Some?
    ensures r.Some? ==> forall k :: from <= k < r.value ==> at(s, k).None?
    ensures r.None? <==> forall k :: from <= k <= |s| ==> at(s, k).None?
    decreases |s| + 1 - from
  {
    if from > |s| then None
    else if at(s, from).Some? then Some(from)
    else Leftmost(s, from + 1, at)
  }

  /** The text of the group of the leftmost match, stripped, or `None`. */
  function Field(s: string, at: (string, nat) -> Option<Span>): Option<string> {
    match Leftmost(s, 0, at)
    case None => None
    case Some(p) =>
      var g := at(s, p).value;
      if g.start <= g.end <= |s| then Some(Strip(s[g.start..g.end])) else None
  }

  /** The parser's result: exactly these two keys. */
  datatype StudentInfo = StudentInfo(studentName: Option<string>, registrationNumber: Option<string>)

  function ParseStudentInfo(ocrText: string): (r: StudentInfo)
    ensures r.studentName.None? <==> forall p :: 0 <= p <= |ocrText| ==> NameAt(ocrText, p).None?
    ensures r.registrationNumber.None? <==> forall p :: 0 <= p <= |ocrText| ==> RegistrationAt(ocrText, p).None?
  {
    FieldAbsent(ocrText, NameAt);
    FieldAbsent(ocrText, RegistrationAt);
    StudentInfo(Field(ocrText, NameAt), Field(ocrText, RegistrationAt))
  }

  /** A field is absent exactly when the pattern matches nowhere, given that every match is a
      span of the text. */
  lemma FieldAbsent(s: string, at: (string, nat) -> Option<Span>)
    requires forall p :: 0 <= p <= |s| && at(s, p).Some? ==> at(s, p).value.start <= at(s, p).value.end <= |s|
    ensures Field(s, at).None? <==> forall p :: 0 <= p <= |s| ==> at(s, p).None?
  {
  }

  /** Otherwise it is the stripped group of the leftmost match. */
  lemma FieldIsGroup(s: string, at: (string, nat) -> Option<Span>)
    requires Leftmost(s, 0, at).Some?
    requires var g := at(s, Leftmost(s, 0, at).value).value; g.start <= g.end <= |s|
    ensures var g := at(s, Leftmost(s, 0, at).value).value;
      Field(s, at) == Some(Strip(s[g.start..g.end]))
  {
  }

  /** The name field is absent exactly when no position matches. */
  lemma StudentNameAbsent(ocrText: string)
    ensures ParseStudentInfo(ocrText).studentName.None? <==>
      forall p :: 0 <= p <= |ocrText| ==> NameAt(ocrText, p).None?
  {
    FieldAbsent(ocrText, NameAt);
  }

  /** Otherwise it is the group of the leftmost match: 1 to 3 words of two or more letters
      separated by whitespace, after `STUDENT` and whitespace, which stripping leaves as it is. */
  lemma StudentNameLeftmost(ocrText: string)
    requires Leftmost(ocrText, 0, NameAt).Some?
    ensures var p := Leftmost(ocrText, 0, NameAt).value;
      var g := NameAt(ocrText, p).value;
      && NameShape(ocrText, p, g)
      && (forall k :: 0 <= k < p ==> NameAt(ocrText, k).None?)
      && Field(ocrText, NameAt) == Some(ocrText[g.start..g.end])
  {
    LeftmostNameShape(ocrText);
    LeftmostNameBefore(ocrText);
    NameFieldIsGroup(ocrText);
  }

  lemma LeftmostNameShape(ocrText: string)
    requires Leftmost(ocrText, 0, NameAt).Some?
    ensures var p := Leftmost(ocrText, 0, NameAt).value;
      NameShape(ocrText, p, NameAt(ocrText, p).value)
  {
  }

  lemma LeftmostNameBefore(ocrText: string)
    requires Leftmost(ocrText, 0, NameAt).Some?
    ensures forall k :: 0 <= k < Leftmost(ocrText, 0, NameAt).value ==> NameAt(ocrText, k).None?
  {
  }

  lemma NameFieldIsGroup(ocrText: string)
    requires Leftmost(ocrText, 0, NameAt).Some?
    ensures var p := Leftmost(ocrText, 0, NameAt).value;
      var g := NameAt(ocrText, p).value;
      Field(ocrText, NameAt) == Some(ocrText[g.start..g.end])
  {
    var p := Leftmost(ocrText, 0, NameAt).value;
    var g := NameAt(ocrText, p).value;
    LeftmostNameShape(ocrText);
    NameGroupTrimmed(ocrText, p, g);
    FieldIsGroup(ocrText, NameAt);
  }

  /** A name group starts and ends with a letter, so stripping leaves it as it is. */
  lemma NameGroupTrimmed(s: string, p: nat, g: Span)
    requires NameShape(s, p, g)
    ensures g.start <= g.end <= |s| && Strip(s[g.start..g.end]) == s[g.start..g.end]
  {
    assert Letter(s[g.start]) && Letter(s[g.end - 1]);
    GroupTrimmed(s, g);
  }

  /** A group that starts and ends with a character other than whitespace is left as it is by
      stripping. */
  lemma GroupTrimmed(s: string, g: Span)
    requires g.start < g.end <= |s| && !IsSpace(s[g.start]) && !IsSpace(s[g.end - 1])
    ensures Strip(s[g.start..g.end]) == s[g.start..g.end]
  {
    var t := s[g.start..g.end];
    assert t[0] == s[g.start] && t[|t| - 1] == s[g.end - 1];
    StripTrimmed(t);
  }

  /** The registration field is absent exactly when no position matches. */
  lemma RegistrationAbsent(ocrText: string)
    ensures ParseStudentInfo(ocrText).registrationNumber.None? <==>
      forall p :: 0 <= p <= |ocrText| ==> RegistrationAt(ocrText, p).None?
  {
    FieldAbsent(ocrText, RegistrationAt);
  }

  /** Otherwise it is the group of the leftmost match, a non-empty run of word characters or
      `*`, which stripping leaves as it is. */
  lemma RegistrationLeftmost(ocrText: string)
    requires Leftmost(ocrText, 0, RegistrationAt).Some?
    ensures var p := Leftmost(ocrText, 0, RegistrationAt).value;
      var g := RegistrationAt(ocrText, p).value;
      && (exists m: nat, c: nat, x: nat :: RegistrationShape(ocrText, p, m, c, x, g))
      && (forall k :: 0 <= k < p ==> RegistrationAt(ocrText, k).None?)
      && Field(ocrText, RegistrationAt) == Some(ocrText[g.start..g.end])
      && g.start < g.end && forall k :: g.start <= k < g.end ==> WordChar(ocrText[k])
  {
    LeftmostRegistrationShape(ocrText);
    LeftmostRegistrationBefore(ocrText);
    RegistrationFieldIsGroup(ocrText);
  }

  lemma LeftmostRegistrationShape(ocrText: string)
    requires Leftmost(ocrText, 0, RegistrationAt).Some?
    ensures var p := Leftmost(ocrText, 0, RegistrationAt).value;
      var g := RegistrationAt(ocrText, p).value;
      && (exists m: nat, c: nat, x: nat :: RegistrationShape(ocrText, p, m, c, x, g))
      && g.start < g.end && forall k :: g.start <= k < g.end ==> WordChar(ocrText[k])
  {
  }

  lemma LeftmostRegistrationBefore(ocrText: string)
    requires Leftmost(ocrText, 0, RegistrationAt).Some?
    ensures forall k :: 0 <= k < Leftmost(ocrText, 0, RegistrationAt).value ==> RegistrationAt(ocrText, k).None?
  {
  }

  lemma RegistrationFieldIsGroup(ocrText: string)
    requires Leftmost(ocrText, 0, RegistrationAt).Some?
    ensures var p := Leftmost(ocrText, 0, RegistrationAt).value;
      var g := RegistrationAt(ocrText, p).value;
      Field(ocrText, RegistrationAt) == Some(ocrText[g.start..g.end])
  {
    var p := Leftmost(ocrText, 0, RegistrationAt).value;
    var g := RegistrationAt(ocrText, p).value;
    LeftmostRegistrationShape(ocrText);
    WordGroupTrimmed(ocrText, g);
    FieldIsGroup(ocrText, RegistrationAt);
  }

  /** A run of word characters has no whitespace at its ends, so stripping leaves it as it is. */
  lemma WordGroupTrimmed(s: string, g: Span)
    requires g.start < g.end <= |s| && forall k :: g.start <= k < g.end ==> WordChar(s[k])
    ensures Strip(s[g.start..g.end]) == s[g.start..g.end]
  {
    assert WordChar(s[g.start]) && WordChar(s[g.end - 1]);
    GroupTrimmed(s, g);
  }
}
