/** The pipeline's own rules around the engine: the text an article is
    scored on, the company an article is filed under, and the event type
    the entry point derives from its trigger.

    Articles are the collector's normalised records; a key missing from an
    article dictionary reads as the empty string, exactly as both helpers
    read it. */
module Pipeline {
  import opened Wrappers
  import opened Text
  import opened Fetcher

  // ---------------------------------------------------------------------------
  // Text for analysis
  // ---------------------------------------------------------------------------

  /** Longest content passed on unshortened. */
  const ContentLimit: nat := 2000

  /** Content over the limit is cut to its first 2000 characters followed by
      an ellipsis; shorter content passes unchanged. */
  function TruncateContent(content: string): (r: string)
    ensures |content| <= ContentLimit ==> r == content
    ensures |content| > ContentLimit ==> r == content[..ContentLimit] + "..."
    ensures |r| <= ContentLimit + 3
    ensures r[..Min(|r|, ContentLimit)] == content[..Min(|content|, ContentLimit)]
  {
    if |content| > ContentLimit then content[..ContentLimit] + "..." else content
  }

  /** The smaller of two lengths. */
  function Min(a: nat, b: nat): nat {
    if a <= b then a else b
  }

  /** The pieces the text is assembled from, in order: the title twice, the
      description, the shortened content, each only when non-empty. */
  function TextParts(article: Article): (parts: seq<string>)
    ensures forall k :: 0 <= k < |parts| ==> parts[k] != []
    ensures |parts| <= 4
  {
    (if article.title != [] then [article.title, article.title] else [])
    + (if article.description != [] then [article.description] else [])
    + (if article.content != [] then [TruncateContent(article.content)] else [])
  }

  /** The non-empty strings of `xs`, in order. */
  function NonEmptyPieces(xs: seq<string>): seq<string> {
    if xs == [] then [] else (if xs[0] != [] then [xs[0]] else []) + NonEmptyPieces(xs[1..])
  }

  /** The pieces are the non-empty ones among title, title, description and
      shortened content, in that order: an absent field drops its own piece
      and nothing else. */
  lemma TextPartsAreNonEmptyPieces(article: Article)
    ensures TextParts(article)
      == NonEmptyPieces([article.title, article.title, article.description, TruncateContent(article.content)])
  {
    var t, d, c := article.title, article.description, TruncateContent(article.content);
    assert c == [] <==> article.content == [];
    assert [c][1..] == [];
    assert NonEmptyPieces([c]) == (if c != [] then [c] else []);
    assert [d, c][1..] == [c];
    assert NonEmptyPieces([d, c]) == (if d != [] then [d] else []) + NonEmptyPieces([c]);
    assert [t, d, c][1..] == [d, c];
    assert NonEmptyPieces([t, d, c]) == (if t != [] then [t] else []) + NonEmptyPieces([d, c]);
    assert [t, t, d, c][1..] == [t, d, c];
    assert NonEmptyPieces([t, t, d, c]) == (if t != [] then [t] else []) + NonEmptyPieces([t, d, c]);
  }

  /** `_prepare_text_for_analysis`: collect the pieces, then join them with
      single spaces. */
  method PrepareTextForAnalysis(article: Article) returns (text: string)
    ensures text == Join(TextParts(article), " ")
  {
    var parts: seq<string> := [];
    if article.title != [] {
      parts := parts + [article.title];
      parts := parts + [article.title];
    }
    if article.description != [] {
      parts := parts + [article.description];
    }
    if article.content != [] {
      var content := article.content;
      if |content| > ContentLimit {
        content := content[..ContentLimit] + "...";
      }
      parts := parts + [content];
    }
    assert parts == TextParts(article);
    text := Join(parts, " ");
  }

  /** With every field present, the text is title, title, description and
      shortened content, separated by single spaces. */
  lemma PreparedTextLayout(article: Article)
    requires article.title != [] && article.description != [] && article.content != []
    ensures Join(TextParts(article), " ")
      == article.title + " " + article.title + " " + article.description + " " + TruncateContent(article.content)
  {
    var t, d, c := article.title, article.description, TruncateContent(article.content);
    assert TextParts(article) == [t] + ([t] + ([d] + [c]));
    JoinCons(t, [t] + ([d] + [c]), " ");
    JoinCons(t, [d] + [c], " ");
    JoinCons(d, [c], " ");
    JoinCons(c, [], " ");
    assert [c] + [] == [c];
  }

  /** Without a description, the text is title, title and shortened
      content. */
  lemma PreparedTextWithoutDescription(article: Article)
    requires article.title != [] && article.description == [] && article.content != []
    ensures Join(TextParts(article), " ")
      == article.title + " " + article.title + " " + TruncateContent(article.content)
  {
    var t, c := article.title, TruncateContent(article.content);
    assert TextParts(article) == [t] + ([t] + [c]);
    JoinCons(t, [t] + [c], " ");
    JoinCons(t, [c], " ");
    JoinCons(c, [], " ");
    assert [c] + [] == [c];
  }

  /** A present title opens the text twice over. */
  lemma TitleComesTwice(article: Article)
    requires article.title != []
    ensures var t := article.title;
      var text := Join(TextParts(article), " ");
      |text| >= 2 * |t| + 1 && text[..2 * |t| + 1] == t + " " + t
  {
    var t := article.title;
    var parts := TextParts(article);
    var rest := parts[2..];
    assert parts == [t, t] + rest;
    JoinCons(t, [t] + rest, " ");
    JoinCons(t, rest, " ");
    assert ([t] + rest)[1..] == rest;
  }

  /** `Join` of a head and a tail: the head, then the joined tail after a
      separator when the tail is not empty. */
  lemma JoinCons(head: string, tail: seq<string>, sep: string)
    ensures tail == [] ==> Join([head] + tail, sep) == head
    ensures tail != [] ==> Join([head] + tail, sep) == head + sep + Join(tail, sep)
  {
    assert ([head] + tail)[0] == head;
    assert ([head] + tail)[1..] == tail;
  }

  /** The text is empty exactly when title, description and content all
      are. */
  lemma PreparedTextEmpty(article: Article)
    ensures Join(TextParts(article), " ") == [] <==>
      article.title == [] && article.description == [] && article.content == []
  {
    var parts := TextParts(article);
    if parts != [] {
      JoinCons(parts[0], parts[1..], " ");
      assert parts == [parts[0]] + parts[1..];
    }
  }

  /** Sum of the lengths of the pieces. */
  function TotalLength(parts: seq<string>): nat {
    if parts == [] then 0 else |parts[0]| + TotalLength(parts[1..])
  }

  /** A join is as long as its pieces plus one separator between each
      neighbouring pair. */
  lemma {:induction false} JoinLength(parts: seq<string>, sep: string)
    requires parts != []
    ensures |Join(parts, sep)| == TotalLength(parts) + (|parts| - 1) * |sep|
  {
    if |parts| > 1 {
      JoinLength(parts[1..], sep);
    }
  }

  /** The text is never longer than twice the title, the description, the
      2003 characters of shortened content and three separators. */
  lemma PreparedTextLength(article: Article)
    ensures |Join(TextParts(article), " ")| <= 2 * |article.title| + |article.description| + ContentLimit + 3 + 3
  {
    var parts := TextParts(article);
    var t, d, c := article.title, article.description, TruncateContent(article.content);
    var ts := if t != [] then [t, t] else [];
    var ds := if d != [] then [d] else [];
    var cs := if article.content != [] then [c] else [];
    assert parts == ts + ds + cs;
    TotalLengthAppend(ts + ds, cs);
    TotalLengthAppend(ts, ds);
    assert TotalLength(ts) <= 2 * |t| by {
      if t != [] {
        assert ts[1..] == [t];
      }
    }
    assert TotalLength(ds) <= |d| by {
      if d != [] {
        assert ds[1..] == [];
      }
    }
    assert TotalLength(cs) <= ContentLimit + 3 by {
      if article.content != [] {
        assert cs[1..] == [];
      }
    }
    if parts != [] {
      JoinLength(parts, " ");
    }
  }

  /** Lengths add up over concatenation. */
  lemma {:induction false} TotalLengthAppend(a: seq<string>, b: seq<string>)
    ensures TotalLength(a + b) == TotalLength(a) + TotalLength(b)
  {
    if a != [] {
      assert (a + b)[1..] == a[1..] + b;
      TotalLengthAppend(a[1..], b);
    } else {
      assert a + b == b;
    }
  }

  /** Long content is shortened to 2003 characters ending in "...", so a
      3000-character body under a short title and description yields well
      under 3000 characters. */
  lemma LongContentIsShortened(article: Article)
    requires |article.title| + |article.description| <= 100 && |article.content| > ContentLimit
    ensures var text := Join(TextParts(article), " ");
      |text| < 3000 && TruncateContent(article.content)[ContentLimit..] == "..."
  {
    PreparedTextLength(article);
  }

  // ---------------------------------------------------------------------------
  // Company attribution
  // ---------------------------------------------------------------------------

  /** One entry of the name-to-id dictionary, in insertion order. */
  datatype CompanyId = CompanyId(name: string, id: int)

  /** A company the pipeline tracks. */
  datatype TrackedCompany = TrackedCompany(name: string, sector: string, symbol: string)

  const TrackedCompanies: seq<TrackedCompany> := [
    TrackedCompany("Apple Inc.", "Technology", "AAPL"),
    TrackedCompany("Microsoft Corporation", "Technology", "MSFT"),
    TrackedCompany("Amazon.com Inc.", "Technology", "AMZN"),
    TrackedCompany("Tesla Inc.", "Automotive", "TSLA"),
    TrackedCompany("Alphabet Inc.", "Technology", "GOOGL"),
    TrackedCompany("Meta Platforms Inc.", "Technology", "META"),
    TrackedCompany("NVIDIA Corporation", "Technology", "NVDA"),
    TrackedCompany("JPMorgan Chase & Co.", "Financial Services", "JPM"),
    TrackedCompany("Johnson & Johnson", "Healthcare", "JNJ"),
    TrackedCompany("Berkshire Hathaway", "Financial Services", "BRK.A")]

  /** Ten companies are tracked, each with a non-empty symbol, under
      pairwise different names and symbols. */
  lemma TrackedCompanyTable()
    ensures |TrackedCompanies| == 10
    ensures forall k :: 0 <= k < |TrackedCompanies| ==> TrackedCompanies[k].symbol != []
    ensures forall j, k :: 0 <= j < k < |TrackedCompanies| ==>
      TrackedCompanies[j].name != TrackedCompanies[k].name
      && TrackedCompanies[j].symbol != TrackedCompanies[k].symbol
  {
  }

  /** The first position in `xs` whose element satisfies `p`, if any. */
  function FirstWhere<T>(xs: seq<T>, p: T -> bool): (k: Option<nat>)
    ensures k.Some? ==> k.value < |xs| && p(xs[k.value]) && forall j :: 0 <= j < k.value ==> !p(xs[j])
    ensures k.None? ==> forall j :: 0 <= j < |xs| ==> !p(xs[j])
  {
    if xs == [] then None
    else if p(xs[0]) then Some(0)
    else
      match FirstWhere(xs[1..], p)
      case None => None
      case Some(k) => Some(k + 1)
  }

  /** `ids.get(name)`. */
  function LookupId(ids: seq<CompanyId>, name: string): (r: Option<int>)
    ensures r.None? <==> forall j :: 0 <= j < |ids| ==> ids[j].name != name
    ensures r.Some? ==> exists k :: 0 <= k < |ids| && ids[k] == CompanyId(name, r.value)
  {
    match FirstWhere(ids, (c: CompanyId) => c.name == name)
    case None => None
    case Some(k) => Some(ids[k].id)
  }

  /** The lower-cased "title description content" text matched against. */
  function ArticleText(article: Article): string {
    Lower(article.title + " " + article.description + " " + article.content)
  }

  /** The text matched against is the lower-cased title, description and
      content, each in its place, separated by spaces. */
  lemma ArticleTextPieces(article: Article)
    ensures ArticleText(article)
      == Lower(article.title) + " " + Lower(article.description) + " " + Lower(article.content)
  {
    var t, d, c := article.title, article.description, article.content;
    LowerAppend(t + " " + d + " ", c);
    LowerAppend(t + " " + d, " ");
    LowerAppend(t + " ", d);
    LowerAppend(t, " ");
    assert Lower(" ") == " ";
  }

  /** `any(keyword in text for keyword in keywords)`. */
  predicate AnyContained(text: string, keywords: seq<string>) {
    keywords != [] && (Contains(text, keywords[0]) || AnyContained(text, keywords[1..]))
  }

  /** Some lower-cased word of the company name occurs in the text. */
  predicate NameMentioned(name: string, text: string) {
    AnyContained(text, Words(Lower(name)))
  }

  /** The company's symbol is non-empty and its lower-cased form occurs in
      the text. */
  predicate SymbolMentioned(company: TrackedCompany, text: string) {
    company.symbol != [] && Contains(text, Lower(company.symbol))
  }

  /** The attribution rule, stage by stage: the search term as a key, then
      the first dictionary entry whose name is mentioned, then the first
      tracked company whose symbol is mentioned, looked up by its name. */
  function CompanyIdFor(article: Article, ids: seq<CompanyId>): Option<int> {
    var byTerm := LookupId(ids, article.companySearchTerm);
    var text := ArticleText(article);
    if byTerm.Some? then byTerm
    else
      match FirstWhere(ids, (c: CompanyId) => NameMentioned(c.name, text))
      case Some(k) => Some(ids[k].id)
      case None =>
        match FirstWhere(TrackedCompanies, (c: TrackedCompany) => SymbolMentioned(c, text))
        case Some(k) => LookupId(ids, TrackedCompanies[k].name)
        case None => None
  }

  /** `_determine_company_id`: three searches, each returning on its first
      hit. */
  method DetermineCompanyId(article: Article, ids: seq<CompanyId>) returns (id: Option<int>)
    ensures id == CompanyIdFor(article, ids)
  {
    var byTerm := LookupId(ids, article.companySearchTerm);
    if byTerm.Some? {
      return byTerm;
    }
    var text := ArticleText(article);
    var named := FirstNamed(ids, text);
    if named.Some? {
      NameDecides(article, ids, named.value);
      return Some(ids[named.value].id);
    }
    for i := 0 to |TrackedCompanies|
      invariant forall j :: 0 <= j < i ==> !SymbolMentioned(TrackedCompanies[j], text)
    {
      var company := TrackedCompanies[i];
      if SymbolMentioned(company, text) {
        SymbolDecides(article, ids, i);
        return LookupId(ids, company.name);
      }
    }
    NothingMatches(article, ids);
    return None;
  }

  /** The name stage of `_determine_company_id`: the first dictionary entry
      with a lower-cased name word in `text`. */
  method FirstNamed(ids: seq<CompanyId>, text: string) returns (k: Option<nat>)
    ensures k.Some? ==> k.value < |ids| && NameMentioned(ids[k.value].name, text)
    ensures k.Some? ==> forall j :: 0 <= j < k.value ==> !NameMentioned(ids[j].name, text)
    ensures k.None? ==> forall j :: 0 <= j < |ids| ==> !NameMentioned(ids[j].name, text)
  {
    for i := 0 to |ids|
      invariant forall j :: 0 <= j < i ==> !NameMentioned(ids[j].name, text)
    {
      if NameMentioned(ids[i].name, text) {
        return Some(i);
      }
    }
    return None;
  }

  /** A search term that is a key decides, before any text is looked at. */
  lemma SearchTermDecides(article: Article, ids: seq<CompanyId>, k: nat)
    requires k < |ids| && ids[k].name == article.companySearchTerm
    requires forall j :: 0 <= j < k ==> ids[j].name != ids[k].name
    ensures CompanyIdFor(article, ids) == Some(ids[k].id)
  {
    var r := FirstWhere(ids, (c: CompanyId) => c.name == article.companySearchTerm);
    assert forall j :: 0 <= j < k ==> ids[j].name != article.companySearchTerm;
    assert r == Some(k);
  }

  /** Otherwise the first entry, in dictionary order, with a name word in
      the text decides. */
  lemma NameDecides(article: Article, ids: seq<CompanyId>, k: nat)
    requires LookupId(ids, article.companySearchTerm).None?
    requires k < |ids| && NameMentioned(ids[k].name, ArticleText(article))
    requires forall j :: 0 <= j < k ==> !NameMentioned(ids[j].name, ArticleText(article))
    ensures CompanyIdFor(article, ids) == Some(ids[k].id)
  {
    var text := ArticleText(article);
    var r := FirstWhere(ids, (c: CompanyId) => NameMentioned(c.name, text));
    assert r.Some? && r.value == k;
  }

  /** Otherwise the first tracked company whose symbol is in the text
      decides, through the dictionary entry of its name; that entry may be
      missing, and then the answer is `None` even when a later symbol would
      have matched. */
  lemma SymbolDecides(article: Article, ids: seq<CompanyId>, k: nat)
    requires LookupId(ids, article.companySearchTerm).None?
    requires forall j :: 0 <= j < |ids| ==> !NameMentioned(ids[j].name, ArticleText(article))
    requires k < |TrackedCompanies| && SymbolMentioned(TrackedCompanies[k], ArticleText(article))
    requires forall j :: 0 <= j < k ==> !SymbolMentioned(TrackedCompanies[j], ArticleText(article))
    ensures CompanyIdFor(article, ids) == LookupId(ids, TrackedCompanies[k].name)
  {
    var text := ArticleText(article);
    var r := FirstWhere(TrackedCompanies, (c: TrackedCompany) => SymbolMentioned(c, text));
    assert r.Some? && r.value == k;
  }

  /** With no key, no name word and no symbol in the text, no company is
      found. */
  lemma NothingMatches(article: Article, ids: seq<CompanyId>)
    requires LookupId(ids, article.companySearchTerm).None?
    requires forall j :: 0 <= j < |ids| ==> !NameMentioned(ids[j].name, ArticleText(article))
    requires forall j :: 0 <= j < |TrackedCompanies| ==> !SymbolMentioned(TrackedCompanies[j], ArticleText(article))
    ensures CompanyIdFor(article, ids).None?
  {
  }

  // ---------------------------------------------------------------------------
  // Event type
  // ---------------------------------------------------------------------------

  /** The event type of a trigger: `'scheduled'` when its source (empty when
      absent) contains "events", else `'manual'`. */
  function EventType(eventSource: string): (eventType: string)
    ensures eventType == "scheduled" <==> Contains(eventSource, "events")
    ensures eventType == "manual" <==> !Contains(eventSource, "events")
  {
    if Contains(eventSource, "events") then "scheduled" else "manual"
  }

  /** The scheduler's source is scheduled; a manual or missing source is
      manual. */
  lemma EventTypeExamples()
    ensures EventType("aws.events") == "scheduled"
    ensures EventType("manual") == "manual"
    ensures EventType("") == "manual"
  {
    ContainsAt("aws.events", "events", 4);
    assert "manual"[0] != "events"[0] && "manual"[1..] == "anual";
    ShorterCannotContain("anual", "events");
    ShorterCannotContain("", "events");
  }
}
