/** The fetch-side rules of the news collector: the search term taken from a
    company name, the normalisation of raw NewsAPI articles into the
    collector's own record, and the order-preserving removal of articles
    whose URL was already seen.

    A raw article is a JSON object; each field of interest is either absent,
    JSON `null`, or a string. */
module Fetcher {
  import opened Wrappers
  import opened Text

  // ---------------------------------------------------------------------------
  // Search term
  // ---------------------------------------------------------------------------

  /** `company.split()[0]`: the first whitespace-separated word of the
      company name, or `None` where indexing the empty split raises. The
      word starts right after the leading whitespace and runs up to the next
      whitespace or the end. */
  function SearchTerm(company: string): (term: Option<string>)
    ensures term.None? <==> forall i :: 0 <= i < |company| ==> IsSpace(company[i])
    ensures term.Some? ==> IsFirstWord(term.value, company)
  {
    TrimStartEmpty(company);
    var rest := TrimStart(company);
    if rest == [] then None
    else
      FirstWordPlace(company);
      Some(WordPrefix(rest))
  }

  /** The search term is the head of `company.split()`, and exists exactly
      when the split is not empty. */
  lemma SearchTermIsFirstOfSplit(company: string)
    ensures SearchTerm(company).None? <==> Words(company) == []
    ensures Words(company) != [] ==> SearchTerm(company) == Some(Words(company)[0])
  {
    WordsHead(company);
  }

  /** A company name with a legal suffix is searched by its first word. */
  lemma SearchTermOfSuffixedName()
    ensures SearchTerm("Apple Inc.") == Some("Apple")
  {
    NoLeadingSpace("Apple Inc.");
    FirstRunOfName();
  }

  /** Text that opens with a letter has no leading whitespace. */
  lemma NoLeadingSpace(s: string)
    requires s != [] && IsAsciiLetter(s[0])
    ensures TrimStart(s) == s
  {
  }

  /** The first whitespace-free run of "Apple Inc." is "Apple". */
  lemma FirstRunOfName()
    ensures WordPrefix("Apple Inc.") == "Apple"
  {
    assert "Apple Inc." == "Apple" + " Inc.";
    WordPrefixOfRun("Apple", " Inc.");
  }

  // ---------------------------------------------------------------------------
  // Raw and processed articles
  // ---------------------------------------------------------------------------

  /** A string-valued field of the raw JSON object. */
  datatype Field = Missing | Null | Text(s: string)

  /** The object under `source`, absent, or `null`. */
  datatype SourceField = NoSource | NullSource | SourceObject(name: Field)

  /** A raw article as NewsAPI returns it. */
  datatype RawArticle = RawArticle(
    title: Field,
    description: Field,
    content: Field,
    url: Field,
    source: SourceField,
    publishedAt: Field,
    author: Field)

  /** A normalised article. `publishedAt` holds the timestamp text in the
      form handed to the ISO parser. */
  datatype Article = Article(
    title: string,
    description: string,
    content: string,
    url: string,
    source: Option<string>,
    publishedAt: string,
    companySearchTerm: string,
    author: Option<string>)

  /** Python truthiness of a field: a non-empty string. */
  predicate Truthy(f: Field) {
    f.Text? && f.s != []
  }

  /** The article has the fields processing needs: truthy title,
      publication time and URL. */
  predicate IsComplete(raw: RawArticle) {
    Truthy(raw.title) && Truthy(raw.publishedAt) && Truthy(raw.url)
  }

  const NoStrip := "'NoneType' object has no attribute 'strip'"
  const NoGet := "'NoneType' object has no attribute 'get'"

  /** `raw.get(key, '').strip()`: an absent field reads as the empty string,
      a `null` one raises. */
  function StrippedField(f: Field): (r: Result<string>)
    ensures r.Err? <==> f.Null?
    ensures f.Missing? ==> r == Ok([])
    ensures f.Text? ==> r == Ok(Strip(f.s))
  {
    match f
    case Missing => Ok([])
    case Null => Err(NoStrip)
    case Text(s) => Ok(Strip(s))
  }

  /** `raw.get('source', {}).get('name', 'Unknown')`. */
  function SourceName(src: SourceField): (r: Result<Option<string>>)
    ensures r.Err? <==> src.NullSource?
    ensures src.NoSource? || (src.SourceObject? && src.name.Missing?) ==> r == Ok(Some("Unknown"))
    ensures src.SourceObject? && src.name.Null? ==> r == Ok(None)
    ensures src.SourceObject? && src.name.Text? ==> r == Ok(Some(src.name.s))
  {
    match src
    case NoSource => Ok(Some("Unknown"))
    case NullSource => Err(NoGet)
    case SourceObject(name) =>
      match name
      case Missing => Ok(Some("Unknown"))
      case Null => Ok(None)
      case Text(s) => Ok(Some(s))
  }

  /** The timestamp text `_parse_date` hands to the ISO parser: a trailing
      'Z' becomes "+00:00", and so does every other 'Z'. */
  function IsoDateText(s: string): (r: string)
    ensures forall i :: 0 <= i < |r| ==> r[i] != 'Z'
    ensures (forall i :: 0 <= i < |s| ==> s[i] != 'Z') ==> r == s
    ensures r == ReplaceZ(s)
  {
    if s != [] && s[|s| - 1] == 'Z' then
      TrailingZ(s);
      ReplaceZ(s[..|s| - 1] + "+00:00")
    else ReplaceZ(s)
  }

  /** Rewriting a trailing 'Z' first makes no difference to the replacement
      that follows: it rewrites that 'Z' the same way. */
  lemma TrailingZ(s: string)
    requires s != [] && s[|s| - 1] == 'Z'
    ensures ReplaceZ(s[..|s| - 1] + "+00:00") == ReplaceZ(s)
  {
    var init := s[..|s| - 1];
    assert s == init + "Z";
    ReplaceZAppend(init, "Z");
    ReplaceZAppend(init, "+00:00");
    ReplaceZOne('Z');
    assert ReplaceZ("+00:00") == "+00:00";
  }

  /** `s.replace('Z', '+00:00')`. */
  function ReplaceZ(s: string): (r: string)
    ensures forall i :: 0 <= i < |r| ==> r[i] != 'Z'
    ensures (forall i :: 0 <= i < |s| ==> s[i] != 'Z') ==> r == s
  {
    if s == [] then []
    else (if s[0] == 'Z' then "+00:00" else [s[0]]) + ReplaceZ(s[1..])
  }

  /** The replacement works character by character, so it distributes over
      concatenation. */
  lemma {:induction false} ReplaceZAppend(a: string, b: string)
    ensures ReplaceZ(a + b) == ReplaceZ(a) + ReplaceZ(b)
  {
    if a == [] {
      assert a + b == b;
    } else {
      assert (a + b)[1..] == a[1..] + b;
      ReplaceZAppend(a[1..], b);
    }
  }

  /** A 'Z' becomes "+00:00"; every other character stays. */
  lemma ReplaceZOne(c: char)
    ensures ReplaceZ([c]) == if c == 'Z' then "+00:00" else [c]
  {
    assert [c][1..] == [];
  }

  /** A UTC timestamp in NewsAPI's form, such as "2024-01-15T10:30:00Z",
      reaches the parser with an explicit offset: the date and time before
      the 'Z' are kept and "+00:00" follows. */
  lemma UtcTimestamp(dateTime: string)
    requires forall i :: 0 <= i < |dateTime| ==> dateTime[i] != 'Z'
    ensures IsoDateText(dateTime + "Z") == dateTime + "+00:00"
  {
    ReplaceZAppend(dateTime, "Z");
    ReplaceZOne('Z');
  }

  /** The text of a field that is known to be a string. */
  function FieldText(f: Field): string {
    if f.Text? then f.s else []
  }

  /** The processed form of one raw article, or the exception its `null`
      description, content or source raises. Processing only ever applies it
      to complete articles, whose title, URL and publication time are
      strings. */
  function ProcessOne(raw: RawArticle, company: string): (r: Result<Article>)
    ensures r.Err? <==> raw.description.Null? || raw.content.Null? || raw.source.NullSource?
    ensures r.Ok? ==>
      var a := r.value;
      && a.title == Strip(FieldText(raw.title)) && a.url == Strip(FieldText(raw.url))
      && a.description == StrippedField(raw.description).value
      && a.content == StrippedField(raw.content).value
      && a.source == SourceName(raw.source).value
      && a.publishedAt == IsoDateText(FieldText(raw.publishedAt))
      && a.companySearchTerm == company
      && (a.author.Some? <==> Truthy(raw.author))
      && (a.author.Some? ==> a.author.value == Strip(raw.author.s))
  {
    var description := StrippedField(raw.description);
    var content := StrippedField(raw.content);
    var source := SourceName(raw.source);
    if description.Err? then Err(description.error)
    else if content.Err? then Err(content.error)
    else if source.Err? then Err(source.error)
    else
      var author := if Truthy(raw.author) then Some(Strip(raw.author.s)) else None;
      Ok(Article(Strip(FieldText(raw.title)), description.value, content.value, Strip(FieldText(raw.url)),
        source.value, IsoDateText(FieldText(raw.publishedAt)), company, author))
  }

  /** The complete raw articles, in order. */
  function CompleteArticles(raws: seq<RawArticle>): (r: seq<RawArticle>)
    ensures |r| <= |raws|
    ensures forall k :: 0 <= k < |r| ==> IsComplete(r[k])
  {
    if raws == [] then []
    else
      var init := CompleteArticles(raws[..|raws| - 1]);
      var last := raws[|raws| - 1];
      if IsComplete(last) then init + [last] else init
  }

  /** The filter works article by article, so it distributes over
      concatenation. */
  lemma {:induction false} CompleteArticlesAppend(a: seq<RawArticle>, b: seq<RawArticle>)
    ensures CompleteArticles(a + b) == CompleteArticles(a) + CompleteArticles(b)
    decreases |b|
  {
    if b == [] {
      assert a + b == a;
    } else {
      var init := b[..|b| - 1];
      assert (a + b)[..|a + b| - 1] == a + init;
      CompleteArticlesAppend(a, init);
    }
  }

  /** A single article is kept exactly when it is complete. */
  lemma CompleteArticlesOne(raw: RawArticle)
    ensures CompleteArticles([raw]) == if IsComplete(raw) then [raw] else []
  {
    assert [raw][..0] == [];
  }

  /** The outcome of `_process_articles`: the processed forms of the
      complete articles in order, or the first exception raised. */
  function ProcessedArticles(raws: seq<RawArticle>, company: string): Result<seq<Article>> {
    if raws == [] then Ok([])
    else
      var last := raws[|raws| - 1];
      match ProcessedArticles(raws[..|raws| - 1], company)
      case Err(e) => Err(e)
      case Ok(processed) =>
        if !IsComplete(last) then Ok(processed)
        else
          match ProcessOne(last, company)
          case Err(e) => Err(e)
          case Ok(article) => Ok(processed + [article])
  }

  /** `_process_articles`: skip incomplete articles, normalise the rest in
      order; an exception ends the whole call. */
  method ProcessArticles(raws: seq<RawArticle>, company: string) returns (r: Result<seq<Article>>)
    ensures r == ProcessedArticles(raws, company)
  {
    var processed: seq<Article> := [];
    for i := 0 to |raws|
      invariant ProcessedArticles(raws[..i], company) == Ok(processed)
    {
      assert raws[..i + 1][..i] == raws[..i];
      var raw := raws[i];
      if !IsComplete(raw) {
        continue;
      }
      var article := ProcessOne(raw, company);
      if article.Err? {
        r := Err(article.error);
        ErrorPersists(raws, i + 1, company);
        return;
      }
      processed := processed + [article.value];
    }
    assert raws[..|raws|] == raws;
    r := Ok(processed);
  }

  /** Once a prefix raises, so does every longer prefix, with the same
      message. */
  lemma {:induction false} ErrorPersists(raws: seq<RawArticle>, n: nat, company: string)
    requires n <= |raws| && ProcessedArticles(raws[..n], company).Err?
    ensures ProcessedArticles(raws, company) == ProcessedArticles(raws[..n], company)
    decreases |raws| - n
  {
    if n < |raws| {
      assert raws[..n + 1][..n] == raws[..n];
      ErrorPersists(raws, n + 1, company);
    } else {
      assert raws[..n] == raws;
    }
  }

  /** Every one of the (complete) raw articles processes without raising. */
  predicate AllProcessable(complete: seq<RawArticle>, company: string) {
    forall k :: 0 <= k < |complete| ==> ProcessOne(complete[k], company).Ok?
  }

  /** A list with one more article is processable exactly when the list and
      the article are. */
  lemma AllProcessableAppend(complete: seq<RawArticle>, raw: RawArticle, company: string)
    ensures AllProcessable(complete + [raw], company) <==> AllProcessable(complete, company) && ProcessOne(raw, company).Ok?
  {
    var all := complete + [raw];
    assert all[|complete|] == raw;
    assert forall k :: 0 <= k < |complete| ==> all[k] == complete[k];
  }

  /** Processing succeeds exactly when every complete article processes
      without raising. */
  lemma {:induction false} ProcessedArticlesOk(raws: seq<RawArticle>, company: string)
    ensures ProcessedArticles(raws, company).Ok? <==> AllProcessable(CompleteArticles(raws), company)
  {
    if raws != [] {
      var init := raws[..|raws| - 1];
      var last := raws[|raws| - 1];
      ProcessedArticlesOk(init, company);
      if IsComplete(last) {
        AllProcessableAppend(CompleteArticles(init), last, company);
      }
    }
  }

  /** A successful processing yields one article per complete raw article,
      in order, each the processed form of its raw article and tagged with
      the company it was searched for. */
  lemma {:induction false} ProcessedArticlesShape(raws: seq<RawArticle>, company: string)
    requires ProcessedArticles(raws, company).Ok?
    ensures var complete := CompleteArticles(raws);
      var processed := ProcessedArticles(raws, company).value;
      && |processed| == |complete|
      && forall k :: 0 <= k < |complete| ==>
           ProcessOne(complete[k], company) == Ok(processed[k]) && processed[k].companySearchTerm == company
  {
    if raws != [] {
      var init := raws[..|raws| - 1];
      var last := raws[|raws| - 1];
      ProcessedArticlesShape(init, company);
      var before := ProcessedArticles(init, company).value;
      var complete := CompleteArticles(init);
      if IsComplete(last) {
        var article := ProcessOne(last, company).value;
        ShapeStep(complete, before, last, article, company);
      }
    }
  }

  /** One more complete article processed keeps articles and raw articles
      paired position by position. */
  lemma ShapeStep(complete: seq<RawArticle>, before: seq<Article>, last: RawArticle, article: Article, company: string)
    requires ProcessOne(last, company) == Ok(article)
    requires |before| == |complete|
    requires forall k :: 0 <= k < |complete| ==> ProcessOne(complete[k], company) == Ok(before[k])
    ensures var all := complete + [last];
      forall k :: 0 <= k < |all| ==> ProcessOne(all[k], company) == Ok((before + [article])[k])
  {
    var all := complete + [last];
    forall k | 0 <= k < |all|
      ensures ProcessOne(all[k], company) == Ok((before + [article])[k])
    {
      if k < |complete| {
        assert all[k] == complete[k];
        assert (before + [article])[k] == before[k];
      }
    }
  }

  // ---------------------------------------------------------------------------
  // Removing repeated URLs
  // ---------------------------------------------------------------------------

  /** The URLs of a list of articles. */
  function Urls(articles: seq<Article>): set<string> {
    set k | 0 <= k < |articles| :: articles[k].url
  }

  /** Every article has a non-empty URL and no two share one. */
  predicate DistinctUrls(articles: seq<Article>) {
    && (forall k :: 0 <= k < |articles| ==> articles[k].url != [])
    && (forall i, j :: 0 <= i < j < |articles| ==> articles[i].url != articles[j].url)
  }

  /** The first article of each non-empty URL, in input order. */
  function Deduplicated(articles: seq<Article>): (unique: seq<Article>)
    ensures DistinctUrls(unique)
    ensures |unique| <= |articles|
  {
    if articles == [] then []
    else
      var kept := Deduplicated(articles[..|articles| - 1]);
      var last := articles[|articles| - 1];
      if last.url != [] && last.url !in Urls(kept) then
        assert forall k :: 0 <= k < |kept| ==> kept[k].url in Urls(kept);
        kept + [last]
      else kept
  }

  /** `_deduplicate_articles`: keep an article when its URL is non-empty and
      not seen before, remembering the URLs kept. */
  method DeduplicateArticles(articles: seq<Article>) returns (unique: seq<Article>)
    ensures unique == Deduplicated(articles)
  {
    var seen: set<string> := {};
    unique := [];
    for i := 0 to |articles|
      invariant unique == Deduplicated(articles[..i])
      invariant seen == Urls(unique)
    {
      assert articles[..i + 1][..i] == articles[..i];
      var url := articles[i].url;
      if url != [] && url !in seen {
        UrlsAppend(unique, articles[i]);
        seen := seen + {url};
        unique := unique + [articles[i]];
      }
    }
    assert articles[..|articles|] == articles;
  }

  /** The non-empty URLs of a list of articles. */
  function NonEmptyUrls(articles: seq<Article>): set<string> {
    set k | 0 <= k < |articles| && articles[k].url != [] :: articles[k].url
  }

  /** Every non-empty input URL survives, and nothing else does. */
  lemma {:induction false} DedupKeepsEveryUrl(articles: seq<Article>)
    ensures Urls(Deduplicated(articles)) == NonEmptyUrls(articles)
  {
    if articles != [] {
      var init := articles[..|articles| - 1];
      var last := articles[|articles| - 1];
      DedupKeepsEveryUrl(init);
      var kept := Deduplicated(init);
      assert NonEmptyUrls(articles) == NonEmptyUrls(init) + (if last.url != [] then {last.url} else {}) by {
        forall u | u in NonEmptyUrls(articles) ensures u in NonEmptyUrls(init) || (last.url != [] && u == last.url) {
          var k :| 0 <= k < |articles| && articles[k].url != [] && articles[k].url == u;
          if k < |init| {
            assert init[k] == articles[k];
          }
        }
        forall u | u in NonEmptyUrls(init) ensures u in NonEmptyUrls(articles) {
          var k :| 0 <= k < |init| && init[k].url != [] && init[k].url == u;
          assert articles[k] == init[k];
        }
      }
      if last.url != [] && last.url !in Urls(kept) {
        UrlsAppend(kept, last);
      }
    }
  }

  /** Appending an article adds exactly its URL to the URL set. */
  lemma UrlsAppend(articles: seq<Article>, a: Article)
    ensures Urls(articles + [a]) == Urls(articles) + {a.url}
  {
    var s := articles + [a];
    forall u | u in Urls(s) ensures u in Urls(articles) + {a.url} {
      var k :| 0 <= k < |s| && s[k].url == u;
      if k < |articles| {
        assert s[k] == articles[k];
      }
    }
    forall u | u in Urls(articles) ensures u in Urls(s) {
      var k :| 0 <= k < |articles| && articles[k].url == u;
      assert s[k] == articles[k];
    }
    assert s[|articles|] == a;
  }

  /** `positions` picks, in increasing order, for each article of `unique`
      an input position holding it, and no earlier input article has its
      URL. */
  predicate PicksFirstOccurrences(articles: seq<Article>, unique: seq<Article>, positions: seq<nat>) {
    && |positions| == |unique|
    && (forall k :: 0 <= k < |positions| ==> positions[k] < |articles| && articles[positions[k]] == unique[k])
    && (forall k :: 0 <= k < |positions| - 1 ==> positions[k] < positions[k + 1])
    && (forall k, j :: 0 <= k < |positions| && 0 <= j < positions[k] ==> articles[j].url != unique[k].url)
  }

  /** An appended article that is not picked keeps the picks valid. */
  lemma PicksSkip(articles: seq<Article>, unique: seq<Article>, positions: seq<nat>, a: Article)
    requires PicksFirstOccurrences(articles, unique, positions)
    ensures PicksFirstOccurrences(articles + [a], unique, positions)
  {
    var all := articles + [a];
    assert forall j :: 0 <= j < |articles| ==> all[j] == articles[j];
  }

  /** An appended article whose URL is new can be picked at its own
      position. */
  lemma PicksKeep(articles: seq<Article>, unique: seq<Article>, positions: seq<nat>, a: Article)
    requires PicksFirstOccurrences(articles, unique, positions)
    requires forall j :: 0 <= j < |articles| ==> articles[j].url != a.url
    ensures PicksFirstOccurrences(articles + [a], unique + [a], positions + [|articles|])
  {
    var all := articles + [a];
    assert forall j :: 0 <= j < |articles| ==> all[j] == articles[j];
    assert all[|articles|] == a;
  }

  /** The output is a subsequence of the input made of first occurrences:
      each kept article comes from an input position, the positions
      increase, and no earlier input article shares the kept URL. */
  lemma {:induction false} DedupKeepsFirstOccurrences(articles: seq<Article>) returns (positions: seq<nat>)
    ensures PicksFirstOccurrences(articles, Deduplicated(articles), positions)
  {
    if articles == [] {
      positions := [];
    } else {
      var n := |articles| - 1;
      var init := articles[..n];
      var last := articles[n];
      assert articles == init + [last];
      var kept := Deduplicated(init);
      var earlier := DedupKeepsFirstOccurrences(init);
      if last.url != [] && last.url !in Urls(kept) {
        DedupKeepsEveryUrl(init);
        forall j | 0 <= j < n ensures init[j].url != last.url {
          if init[j].url != [] {
            assert init[j].url in NonEmptyUrls(init);
          }
        }
        PicksKeep(init, kept, earlier, last);
        positions := earlier + [n];
      } else {
        PicksSkip(init, kept, earlier, last);
        positions := earlier;
      }
    }
  }

  /** A list whose URLs are already non-empty and distinct is left as it
      is. */
  lemma {:induction false} DedupFixesDistinct(articles: seq<Article>)
    requires DistinctUrls(articles)
    ensures Deduplicated(articles) == articles
  {
    if articles != [] {
      var init := articles[..|articles| - 1];
      var last := articles[|articles| - 1];
      DistinctPrefix(articles);
      DedupFixesDistinct(init);
      LastUrlIsNew(articles);
    }
  }

  /** Dropping the last article keeps the URLs non-empty and distinct. */
  lemma DistinctPrefix(articles: seq<Article>)
    requires DistinctUrls(articles) && articles != []
    ensures DistinctUrls(articles[..|articles| - 1])
  {
    var init := articles[..|articles| - 1];
    assert forall k :: 0 <= k < |init| ==> init[k] == articles[k];
  }

  /** In a list with non-empty, distinct URLs, the last URL is non-empty and
      not among the URLs before it. */
  lemma LastUrlIsNew(articles: seq<Article>)
    requires DistinctUrls(articles) && articles != []
    ensures var last := articles[|articles| - 1];
      last.url != [] && last.url !in Urls(articles[..|articles| - 1])
  {
    var init := articles[..|articles| - 1];
    var last := articles[|articles| - 1];
    assert forall k :: 0 <= k < |init| ==> init[k].url == articles[k].url != last.url;
  }

  /** Removing repeated URLs twice is removing them once. */
  lemma DedupIdempotent(articles: seq<Article>)
    ensures Deduplicated(Deduplicated(articles)) == Deduplicated(articles)
  {
    DedupFixesDistinct(Deduplicated(articles));
  }
}
