/** The chat bubble's text formatting (ai-agent-ui/components/chat-message.tsx): split the message
    on URLs, turn each URL into a link with its trailing punctuation kept outside, and keep the
    rest as plain text. */
module ChatMessage {
  import opened Wrappers
  import opened Strings

  /** JavaScript's whitespace within ASCII, the regex class `\s`: space, tab, line feed, vertical
      tab, form feed and carriage return. Unlike Python, it leaves out 0x1C to 0x1F. */
  predicate JsSpace(c: char) {
    c == ' ' || ('\t' <= c <= '\r')
  }

  /** A character the URL pattern's `[^\s]` accepts. */
  predicate NonSpace(c: char) {
    !JsSpace(c)
  }

  /** The end of the run of non-whitespace characters starting at `i`. */
  function SkipNonSpace(s: string, i: nat): (r: nat)
    requires i <= |s|
    ensures i <= r <= |s|
    ensures forall k :: i <= k < r ==> NonSpace(s[k])
    ensures r < |s| ==> !NonSpace(s[r])
    decreases |s| - i
  {
    if i < |s| && NonSpace(s[i]) then SkipNonSpace(s, i + 1) else i
  }

  /** Where a match of `https?://[^\s]+` starting at `q` ends, if one starts there. The optional
      `s` is tried first; without it, "://" cannot follow "https". */
  function UrlAt(s: string, q: nat): (r: Option<nat>)
    requires q <= |s|
    ensures r.Some? ==> q < r.value <= |s| && StartsWith(s[q..r.value], "http")
    ensures r.Some? ==> forall k :: q <= k < r.value ==> NonSpace(s[k])
    ensures r.Some? ==> r.value == |s| || JsSpace(s[r.value])
    ensures r.Some? ==> OccursAt(s, "https://", q) || OccursAt(s, "http://", q)
  {
    var body :=
      if OccursAt(s, "https://", q) then Some(q + 8)
      else if OccursAt(s, "http://", q) then Some(q + 7)
      else None;
    match body
    case None => None
    case Some(b) =>
      assert s[q..b][..4] == s[q..q + 4] == "http";
      assert forall k :: q <= k < b ==> s[k] == s[q..b][k - q];
      assert forall k :: 0 <= k < b - q ==> NonSpace(s[q..b][k]);
      var e := SkipNonSpace(s, b);
      if e > b then Some(e) else None
  }

  /** "https://" and "http://" cannot both start at one position. */
  lemma SchemesExclusive(s: string, q: nat)
    ensures !(OccursAt(s, "https://", q) && OccursAt(s, "http://", q))
  {
    if q + 8 <= |s| {
      assert s[q..q + 7][4] == s[q + 4] == s[q..q + 8][4];
    }
  }

  /** A match starts at `q` exactly when "https://" or "http://" is there followed by a
      non-whitespace character, and it then runs to the next whitespace or the end. */
  lemma UrlAtComplete(s: string, q: nat)
    requires q <= |s|
    ensures UrlAt(s, q).Some? <==>
      (OccursAt(s, "https://", q) && q + 8 < |s| && NonSpace(s[q + 8])) ||
      (OccursAt(s, "http://", q) && q + 7 < |s| && NonSpace(s[q + 7]))
    ensures OccursAt(s, "https://", q) && q + 8 < |s| && NonSpace(s[q + 8]) ==>
      UrlAt(s, q) == Some(SkipNonSpace(s, q + 8))
    ensures OccursAt(s, "http://", q) && q + 7 < |s| && NonSpace(s[q + 7]) ==>
      UrlAt(s, q) == Some(SkipNonSpace(s, q + 7))
  {
    SchemesExclusive(s, q);
  }

  /** `parts`, laid out in `s` from position `a`, alternate between plain text in which no match
      of the URL pattern starts and a whole match, the leftmost one after that text; `url` says
      which kind the first part is. */
  predicate Layout(s: string, a: nat, parts: seq<string>, url: bool)
    decreases |parts|
  {
    |parts| == 0 ||
    (a + |parts[0]| <= |s| && s[a..a + |parts[0]|] == parts[0] &&
     (if url then UrlAt(s, a) == Some(a + |parts[0]|)
      else forall k :: a <= k < a + |parts[0]| ==> UrlAt(s, k).None?) &&
     Layout(s, a + |parts[0]|, parts[1..], !url))
  }

  /** `text.split(urlRegex)` with the capturing group, scanning from `q` with the current
      piece starting at `p`: plain pieces and matched URLs alternate, starting and ending with a
      plain piece (possibly empty). */
  function SplitFrom(s: string, p: nat, q: nat): (parts: seq<string>)
    requires p <= q <= |s|
    ensures |parts| % 2 == 1
    ensures Concat(parts) == s[p..]
    ensures forall i :: 0 <= i < |parts| && i % 2 == 1 ==>
      StartsWith(parts[i], "http") && forall k :: 0 <= k < |parts[i]| ==> NonSpace(parts[i][k])
    decreases |s| - q
  {
    if q == |s| then [s[p..]]
    else
      match UrlAt(s, q)
      case Some(e) =>
        var rest := SplitFrom(s, e, e);
        assert s[p..] == s[p..q] + (s[q..e] + s[e..]);
        SplitPrepend(s[p..q], s[q..e], rest);
        [s[p..q], s[q..e]] + rest
      case None => SplitFrom(s, p, q + 1)
  }

  /** A plain piece and a URL in front of an alternation of pieces keep it one. */
  lemma SplitPrepend(plain: string, url: string, rest: seq<string>)
    requires StartsWith(url, "http") && forall k :: 0 <= k < |url| ==> NonSpace(url[k])
    requires |rest| % 2 == 1
    requires forall i :: 0 <= i < |rest| && i % 2 == 1 ==>
      StartsWith(rest[i], "http") && forall k :: 0 <= k < |rest[i]| ==> NonSpace(rest[i][k])
    ensures var parts := [plain, url] + rest;
      && |parts| % 2 == 1
      && Concat(parts) == plain + (url + Concat(rest))
      && forall i :: 0 <= i < |parts| && i % 2 == 1 ==>
           StartsWith(parts[i], "http") && forall k :: 0 <= k < |parts[i]| ==> NonSpace(parts[i][k])
  {
    var parts := [plain, url] + rest;
    assert parts[1..] == [url] + rest;
    assert ([url] + rest)[1..] == rest;
    assert forall i :: 0 <= i < |rest| ==> parts[i + 2] == rest[i];
  }

  function Split(text: string): (parts: seq<string>)
    ensures |parts| % 2 == 1 && Concat(parts) == text
  {
    assert text[0..] == text;
    SplitFrom(text, 0, 0)
  }

  /** The scan finds the matches: when no match starts between `p` and `q`, the parts from `p`
      are plain text without a match start and the matches, alternately. */
  lemma {:induction false} SplitFromLayout(s: string, p: nat, q: nat)
    requires p <= q <= |s|
    requires forall k :: p <= k < q ==> UrlAt(s, k).None?
    ensures Layout(s, p, SplitFrom(s, p, q), false)
    decreases |s| - q
  {
    if q == |s| {
      assert s[p..p + |s[p..]|] == s[p..];
      assert [s[p..]][1..] == [];
    } else {
      match UrlAt(s, q)
      case Some(e) =>
        SplitFromLayout(s, e, e);
        LayoutPrepend(s, p, q, e, SplitFrom(s, e, e));
      case None =>
        SplitFromLayout(s, p, q + 1);
    }
  }

  /** Plain text up to a match, then the match, in front of a layout that starts after it. */
  lemma LayoutPrepend(s: string, p: nat, q: nat, e: nat, rest: seq<string>)
    requires p <= q < e <= |s|
    requires forall k :: p <= k < q ==> UrlAt(s, k).None?
    requires UrlAt(s, q) == Some(e)
    requires Layout(s, e, rest, false)
    ensures Layout(s, p, [s[p..q], s[q..e]] + rest, false)
  {
    var parts := [s[p..q], s[q..e]] + rest;
    assert parts[1..] == [s[q..e]] + rest;
    assert parts[1..][1..] == rest;
    assert Layout(s, q, parts[1..], true);
  }

  /** `text.split(urlRegex)` gives, in order, the plain stretches of the text, in which no URL
      starts, and the URLs the pattern matches after each. */
  lemma SplitLayout(text: string)
    ensures Layout(text, 0, Split(text), false)
  {
    SplitFromLayout(text, 0, 0);
  }

  /** Every URL the pattern matches is rendered as a link. */
  lemma MatchesBecomeLinks(text: string)
    ensures var parts := Split(text);
      forall i :: 0 <= i < |parts| && i % 2 == 1 ==>
        FormatMessage(text)[i] == AsPiece(parts[i]) && FormatMessage(text)[i].Link?
  {
    SplitLayout(text);
  }

  /** The characters stripped from the end of a link. */
  predicate Trailing(c: char) {
    c == ')' || c == ',' || c == '.' || c == '!' || c == '?'
  }

  /** `part.replace(/[),.!?]+$/, "")`: the part without its maximal run of trailing
      punctuation. The rest of the part is that run. */
  function CleanUrl(part: string): (clean: string)
    ensures |clean| <= |part| && part[..|clean|] == clean
    ensures |clean| > 0 ==> !Trailing(clean[|clean| - 1])
    ensures forall k :: |clean| <= k < |part| ==> Trailing(part[k])
    decreases |part|
  {
    if |part| > 0 && Trailing(part[|part| - 1]) then CleanUrl(part[..|part| - 1]) else part
  }

  /** What one part becomes: a link with the punctuation after it, or plain text. */
  datatype Piece = Plain(text: string) | Link(href: string, trailing: string)

  /** The text a piece shows. */
  function Shown(p: Piece): string {
    match p
    case Plain(t) => t
    case Link(h, t) => h + t
  }

  function ShownAll(pieces: seq<Piece>): string
    decreases |pieces|
  {
    if |pieces| == 0 then "" else Shown(pieces[0]) + ShownAll(pieces[1..])
  }

  /** Each part as the component maps it: a part starting with "http" is a link. */
  function AsPiece(part: string): (piece: Piece)
    ensures Shown(piece) == part
    ensures piece.Link? <==> StartsWith(part, "http")
    ensures piece.Plain? ==> piece.text == part
    ensures piece.Link? ==> |piece.href| > 0 ==> !Trailing(piece.href[|piece.href| - 1])
  {
    if StartsWith(part, "http") then
      var clean := CleanUrl(part);
      assert clean + part[|clean|..] == part;
      Link(clean, part[|clean|..])
    else Plain(part)
  }

  function MapPieces(parts: seq<string>): (pieces: seq<Piece>)
    ensures |pieces| == |parts|
    ensures forall i :: 0 <= i < |parts| ==> pieces[i] == AsPiece(parts[i])
    decreases |parts|
  {
    if |parts| == 0 then [] else [AsPiece(parts[0])] + MapPieces(parts[1..])
  }

  /** `formatMessage` as written. */
  function FormatMessage(text: string): (pieces: seq<Piece>)
    ensures ShownAll(pieces) == text
    ensures |pieces| == |Split(text)|
    ensures forall i :: 0 <= i < |pieces| ==> (pieces[i].Link? <==> StartsWith(Split(text)[i], "http"))
  {
    ShownMapPieces(Split(text));
    MapPieces(Split(text))
  }

  lemma {:induction false} ShownMapPieces(parts: seq<string>)
    ensures ShownAll(MapPieces(parts)) == Concat(parts)
    decreases |parts|
  {
    if |parts| > 0 {
      ShownMapPieces(parts[1..]);
      assert MapPieces(parts)[1..] == MapPieces(parts[1..]);
    }
  }

  /** The formatted message shows exactly the text: no character is lost, added or moved. */
  lemma FormatRoundTrip(text: string)
    ensures ShownAll(FormatMessage(text)) == text
  {
    ShownMapPieces(Split(text));
  }

  /** As written, plain text that happens to start with "http" becomes a link although it holds
      no URL: "httpx is a library" is one plain part, and it is rendered as a link whose target is
      the whole sentence. */
  lemma PlainHttpTextBecomesLink()
    ensures FormatMessage("httpx is a library") == [Link("httpx is a library", "")]
  {
    var t := "httpx is a library";
    assert StartsWith(t, "http");
    assert Free(t, ':');
    assert t[|t| - 1] == 'y';
    NoUrlLinkFor(t);
  }

  /** Any text without a colon that starts with "http" and does not end in punctuation holds no
      URL, and is still rendered as a single link to the whole text. */
  lemma NoUrlLinkFor(t: string)
    requires StartsWith(t, "http") && Free(t, ':') && !Trailing(t[|t| - 1])
    ensures FormatMessage(t) == [Link(t, "")]
  {
    NoUrlWithoutColon(t);
    SplitNoUrl(t, 0, 0);
    assert t[0..] == t;
    assert Split(t) == [t];
    assert CleanUrl(t) == t;
    assert t[|t|..] == "";
  }

  /** A text without a colon holds no URL at any position. */
  lemma NoUrlWithoutColon(t: string)
    requires Free(t, ':')
    ensures forall q :: 0 <= q <= |t| ==> UrlAt(t, q).None?
  {
    forall q | 0 <= q <= |t| ensures UrlAt(t, q).None? {
      if q + 7 <= |t| {
        assert t[q..q + 7][4] == t[q + 4] != ':';
      }
      if q + 8 <= |t| {
        assert t[q..q + 8][5] == t[q + 5] != ':';
      }
    }
  }

  /** Without a URL from `q` on, the rest is one part. */
  lemma {:induction false} SplitNoUrl(s: string, p: nat, q: nat)
    requires p <= q <= |s|
    requires forall k :: q <= k <= |s| ==> UrlAt(s, k).None?
    ensures SplitFrom(s, p, q) == [s[p..]]
    decreases |s| - q
  {
    if q < |s| {
      SplitNoUrl(s, p, q + 1);
    }
  }

  /** `formatMessage` as evidently intended: the parts the URL pattern matched, the odd ones of
      the split, become links, and every other part stays plain text. */
  function FormatMessageCorrected(text: string): (pieces: seq<Piece>)
    ensures |pieces| == |Split(text)|
    ensures forall i :: 0 <= i < |pieces| ==> (pieces[i].Link? <==> i % 2 == 1)
  {
    var parts := Split(text);
    seq(|parts|, i requires 0 <= i < |parts| =>
      if i % 2 == 1 then AsPiece(parts[i]) else Plain(parts[i]))
  }

  /** Corrected, the text still round-trips, and every link target is the start of a matched URL:
      it starts with "http" and holds no whitespace. */
  lemma CorrectedFormat(text: string)
    ensures ShownAll(FormatMessageCorrected(text)) == text
    ensures forall p :: p in FormatMessageCorrected(text) && p.Link? ==>
      StartsWith(p.href + p.trailing, "http") && forall k :: 0 <= k < |p.href| ==> NonSpace(p.href[k])
  {
    var parts := Split(text);
    var pieces := FormatMessageCorrected(text);
    assert forall i :: 0 <= i < |parts| ==> Shown(pieces[i]) == parts[i];
    ShownSame(pieces, parts);
    forall p | p in pieces && p.Link?
      ensures StartsWith(p.href + p.trailing, "http") && forall k :: 0 <= k < |p.href| ==> NonSpace(p.href[k])
    {
      var i :| 0 <= i < |pieces| && pieces[i] == p;
      assert i % 2 == 1 && p == AsPiece(parts[i]);
      assert p.href == parts[i][..|p.href|];
    }
  }

  lemma {:induction false} ShownSame(pieces: seq<Piece>, parts: seq<string>)
    requires |pieces| == |parts|
    requires forall i :: 0 <= i < |parts| ==> Shown(pieces[i]) == parts[i]
    ensures ShownAll(pieces) == Concat(parts)
    decreases |parts|
  {
    if |parts| > 0 {
      ShownSame(pieces[1..], parts[1..]);
    }
  }

  /** The message kinds the chat view knows. */
  datatype MessageType = AIMessage | HumanMessage

  /** `isUser`: a message is the user's exactly when it is a human message; every other one is
      the assistant's. */
  function IsUser(t: MessageType): (r: bool)
    ensures r <==> t == HumanMessage
    ensures !r <==> t == AIMessage
  {
    t == HumanMessage
  }
}
