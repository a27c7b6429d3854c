/** The university search tool (backend/tools/info/info_search.py): restrict the query to the
    trusted sites, run it through the search service and lay out the results for the model. */
module InfoSearch {
  import opened Wrappers
  import opened Strings

  /** The whitelist, in the order it is written. */
  const TrustedSites: seq<string> := [
    "northumbria.ac.uk",
    "mynsu.co.uk",
    "linkedin.com/school/northumbria-university",
    "northumbria.native.fm",
    "store.northumbria.ac.uk"
  ]

  /** One `site:` term per domain, in the domains' order. */
  function SiteTerms(sites: seq<string>): (r: seq<string>)
    ensures |r| == |sites|
    ensures forall i :: 0 <= i < |sites| ==> r[i] == "site:" + sites[i]
    decreases |sites|
  {
    if |sites| == 0 then [] else ["site:" + sites[0]] + SiteTerms(sites[1..])
  }

  /** The site terms joined with " OR ". */
  function DomainFilter(): string {
    Join(SiteTerms(TrustedSites), " OR ")
  }

  /** The query sent to the search service. */
  function SiteQuery(query: string): string {
    "(" + DomainFilter() + ") " + query
  }

  /** The query carries the filter in parentheses at its head and the user's query, unchanged,
      at its end. */
  lemma SiteQueryParts(query: string)
    ensures StartsWith(SiteQuery(query), "(")
    ensures SiteQuery(query)[1..1 + |DomainFilter()|] == DomainFilter()
    ensures SiteQuery(query)[1 + |DomainFilter()|..3 + |DomainFilter()|] == ") "
    ensures EndsWith(SiteQuery(query), query)
  {
    var f := DomainFilter();
    var q := SiteQuery(query);
    assert q == "(" + (f + (") " + query));
    assert q[|q| - |query|..] == query;
  }

  /** Every trusted site appears in the filter as a `site:` term, in list order: term `i + 1`
      starts after term `i` and the " OR " between them. */
  lemma DomainFilterInOrder(i: nat)
    requires i < |TrustedSites|
    ensures OccursAt(DomainFilter(), "site:" + TrustedSites[i], JoinOffset(SiteTerms(TrustedSites), " OR ", i))
    ensures i + 1 < |TrustedSites| ==>
      JoinOffset(SiteTerms(TrustedSites), " OR ", i + 1)
        == JoinOffset(SiteTerms(TrustedSites), " OR ", i) + |"site:" + TrustedSites[i]| + 4
  {
    JoinOccurs(SiteTerms(TrustedSites), " OR ", i);
  }

  /** One search result; a result dictionary without `url` or `content` is read with a
      `KeyError`. */
  datatype Item = Item(url: Option<string>, content: Option<string>)

  function EntryText(url: string, content: string): string {
    "\nSource: " + url + "\nContent: " + content + "\n"
  }

  /** The text one result adds, or the message of the `KeyError` it raises (the key, quoted);
      `url` is read first. */
  function ItemEntry(it: Item): (r: Outcome<string>)
    ensures r.Ok? <==> it.url.Some? && it.content.Some?
    ensures r.Ok? ==> r.value == EntryText(it.url.value, it.content.value)
    ensures it.url.None? ==> r == Crash("'url'")
    ensures it.url.Some? && it.content.None? ==> r == Crash("'content'")
  {
    match it.url
    case None => Crash("'url'")
    case Some(u) =>
      match it.content
      case None => Crash("'content'")
      case Some(c) => Ok(EntryText(u, c))
  }

  /** Text put in front of a successful outcome. */
  function Prepend(pre: string, o: Outcome<string>): Outcome<string> {
    match o
    case Ok(v) => Ok(pre + v)
    case Crash(e) => Crash(e)
  }

  lemma PrependTwice(a: string, b: string, o: Outcome<string>)
    ensures Prepend(a, Prepend(b, o)) == Prepend(a + b, o)
  {
    if o.Ok? {
      assert a + (b + o.value) == (a + b) + o.value;
    }
  }

  /** The results' entries, in order, or the first `KeyError`. */
  function Context(items: seq<Item>): (r: Outcome<string>)
    ensures r.Ok? <==> forall i :: 0 <= i < |items| ==> ItemEntry(items[i]).Ok?
    decreases |items|
  {
    if |items| == 0 then Ok("")
    else
      match ItemEntry(items[0])
      case Crash(e) => Crash(e)
      case Ok(entry) => Prepend(entry, Context(items[1..]))
  }

  const NoInformation := "No information found on the university websites."
  const FailurePrefix := "Search failed: "

  /** What the tool answers. The search service is called with the site query and yields the
      `results` list (empty when the key is missing) or raises. Every exception is caught. */
  function SearchAnswer(query: string, search: string -> Outcome<seq<Item>>): (r: string)
    ensures search(SiteQuery(query)).Crash? ==> r == FailurePrefix + search(SiteQuery(query)).error
    ensures search(SiteQuery(query)) == Ok([]) ==> r == NoInformation
    ensures search(SiteQuery(query)).Ok? && |search(SiteQuery(query)).value| > 0 ==>
      var items := search(SiteQuery(query)).value;
      (forall i :: 0 <= i < |items| ==> items[i].url.Some? && items[i].content.Some?) ==>
        r == Concat(seq(|items|, i requires 0 <= i < |items| => EntryText(items[i].url.value, items[i].content.value)))
    ensures search(SiteQuery(query)).Ok? && |search(SiteQuery(query)).value| > 0
            && Context(search(SiteQuery(query)).value).Crash? ==>
      r == FailurePrefix + Context(search(SiteQuery(query)).value).error
  {
    match search(SiteQuery(query))
    case Crash(e) => FailurePrefix + e
    case Ok(items) =>
      if |items| == 0 then NoInformation
      else
        CompleteContext(items);
        match Context(items)
        case Ok(c) => c
        case Crash(e) => FailurePrefix + e
  }

  /** The tool: the results loop accumulating the context string. */
  method SearchUniversityInfo(query: string, search: string -> Outcome<seq<Item>>) returns (answer: string)
    ensures answer == SearchAnswer(query, search)
  {
    var response := search(SiteQuery(query));
    if response.Crash? {
      return FailurePrefix + response.error;
    }
    var results := response.value;
    if |results| == 0 {
      return NoInformation;
    }
    var context := "";
    var i := 0;
    assert Prepend(context, Context(results)) == Context(results) by {
      if Context(results).Ok? {
        assert "" + Context(results).value == Context(results).value;
      }
    }
    while i < |results|
      invariant 0 <= i <= |results|
      invariant Context(results) == Prepend(context, Context(results[i..]))
    {
      match ItemEntry(results[i])
      case Crash(e) =>
        return FailurePrefix + e;
      case Ok(entry) =>
        assert results[i..][1..] == results[i + 1..];
        assert Context(results[i..]) == Prepend(entry, Context(results[i + 1..]));
        PrependTwice(context, entry, Context(results[i + 1..]));
        context := context + entry;
      i := i + 1;
    }
    assert results[i..] == [];
    answer := context;
  }

  /** The error of the results' text is the `KeyError` of the first result lacking a key:
      `'url'` when its `url` is missing, else `'content'`. */
  lemma {:induction false} ContextFirstMissing(items: seq<Item>, i: nat)
    requires i < |items| && ItemEntry(items[i]).Crash?
    requires forall j :: 0 <= j < i ==> ItemEntry(items[j]).Ok?
    ensures Context(items) == Crash(if items[i].url.None? then "'url'" else "'content'")
    decreases i
  {
    if i > 0 {
      ContextFirstMissing(items[1..], i - 1);
      assert ItemEntry(items[0]).Ok?;
    }
  }

  /** A result lacking a key, after results that have both, makes the tool answer
      "Search failed: " and the quoted name of the missing key. */
  lemma MissingKeyAnswer(query: string, search: string -> Outcome<seq<Item>>, i: nat)
    requires search(SiteQuery(query)).Ok? && i < |search(SiteQuery(query)).value|
    requires var items := search(SiteQuery(query)).value;
      && (items[i].url.None? || items[i].content.None?)
      && forall j :: 0 <= j < i ==> items[j].url.Some? && items[j].content.Some?
    ensures SearchAnswer(query, search)
      == FailurePrefix + (if search(SiteQuery(query)).value[i].url.None? then "'url'" else "'content'")
  {
    ContextFirstMissing(search(SiteQuery(query)).value, i);
  }

  /** The entries' concatenation, whenever every result has both keys. */
  lemma CompleteContext(items: seq<Item>)
    ensures (forall i :: 0 <= i < |items| ==> items[i].url.Some? && items[i].content.Some?) ==>
      Context(items)
        == Ok(Concat(seq(|items|, i requires 0 <= i < |items| => EntryText(items[i].url.value, items[i].content.value))))
  {
    if forall i :: 0 <= i < |items| ==> items[i].url.Some? && items[i].content.Some? {
      ContextEntries(items);
    }
  }

  /** When every result has both keys, the answer is their entries concatenated in order. */
  lemma {:induction false} ContextEntries(items: seq<Item>)
    requires forall i :: 0 <= i < |items| ==> items[i].url.Some? && items[i].content.Some?
    ensures Context(items)
      == Ok(Concat(seq(|items|, i requires 0 <= i < |items| => EntryText(items[i].url.value, items[i].content.value))))
    decreases |items|
  {
    var entries := seq(|items|, i requires 0 <= i < |items| => EntryText(items[i].url.value, items[i].content.value));
    if |items| > 0 {
      ContextEntries(items[1..]);
      assert entries[1..]
        == seq(|items[1..]|, i requires 0 <= i < |items[1..]| => EntryText(items[1..][i].url.value, items[1..][i].content.value));
    }
  }

  /** The three kinds of answer: a failure of the service, no results, or the results laid out. */
  lemma SearchOutcomes(query: string, search: string -> Outcome<seq<Item>>)
    ensures search(SiteQuery(query)).Crash? ==>
      SearchAnswer(query, search) == FailurePrefix + search(SiteQuery(query)).error
    ensures search(SiteQuery(query)) == Ok([]) ==> SearchAnswer(query, search) == NoInformation
    ensures search(SiteQuery(query)).Ok? && |search(SiteQuery(query)).value| > 0
            && (forall i :: 0 <= i < |search(SiteQuery(query)).value| ==>
                  search(SiteQuery(query)).value[i].url.Some? && search(SiteQuery(query)).value[i].content.Some?) ==>
      var items := search(SiteQuery(query)).value;
      SearchAnswer(query, search)
        == Concat(seq(|items|, i requires 0 <= i < |items| => EntryText(items[i].url.value, items[i].content.value)))
    ensures search(SiteQuery(query)).Ok? && |search(SiteQuery(query)).value| > 0
            && Context(search(SiteQuery(query)).value).Crash? ==>
      SearchAnswer(query, search) == FailurePrefix + Context(search(SiteQuery(query)).value).error
  {
    var r := search(SiteQuery(query));
    if r.Ok? && (forall i :: 0 <= i < |r.value| ==> r.value[i].url.Some? && r.value[i].content.Some?) {
      ContextEntries(r.value);
    }
  }
}
