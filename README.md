# SentimentFinance core in Dafny

SentimentFinance is a serverless pipeline. It fetches financial news about a
fixed list of companies from NewsAPI, scores each article's sentiment and
stores the scores. This project models and proves the rules at the pipeline's
heart:

- **The sentiment engine** (`sentiment.dfy`). This covers:
  - text cleaning: link removal, whitespace collapsing, character filtering and trimming;
  - the three scorers, each with its own threshold rule: a polarity model, a
    valence model and a financial keyword counter over two fixed word lists;
  - the neutral result used for blank text and for failures;
  - the fixed-weight consensus (0.4 / 0.4 / 0.2) with weighted means and a
    weighted majority vote;
  - the batch wrapper, which turns an exception into an error entry and carries on.
- **The collector's article rules** (`fetcher.dfy`). This covers:
  - the search term, which is the first word of the company name;
  - normalising raw NewsAPI articles, including which fields may be absent
    or JSON `null` and what then raises;
  - rewriting the UTC timestamp text;
  - removing articles whose URL was already seen, keeping input order.
- **The pipeline's own helpers** (`pipeline.dfy`). This covers:
  - the text an article is scored on (title twice, description, content cut
    to 2000 characters plus "...");
  - attributing an article to a company: by the search term as a key, then
    by a word of a company name in the text, then by a ticker symbol;
  - the event type the entry point derives from its trigger.
- **Python built-ins** (`text.dfy`, `wrappers.dfy`): `str.isspace`, `strip`,
  `split()`, `lower`, `isalpha`, substring `in` and `join`, together with
  `Option` and `Result`.

The libraries underneath the scorers are inputs to the model. They are
TextBlob, NLTK's VADER, the word tokenizer, the stop-word list and the URL
and e-mail regular expressions. The field `Libraries` holds them as
functions of the text they are given. A model that raises is `None` and is
absorbed into the neutral result. A tokenizer that raises is `Err` and
propagates out of `analyze_sentiment`, which is how `analyze_batch` comes to
see an exception. Scores and confidences are exact reals.

Each loop of the source is a `method` with loop invariants, and its
`ensures` ties the result to a specification function:
`AnalyzeFinancialKeywords` to `FinancialKeywordResult`,
`CombineSentimentResults` to `Combined`, `AnalyzeBatch` to `BatchEntries`,
`ProcessArticles` to `ProcessedArticles`, `DeduplicateArticles` to
`Deduplicated`, and `DetermineCompanyId` (with `FirstNamed` for its name
search) to `CompanyIdFor`. Two operations have no loop of their own and are
methods that do their steps one after another: `AnalyzeSentiment`, which
equals `Sentiment`, and `PrepareTextForAnalysis`, which appends the parts
and equals the join of `TextParts`. The lemmas beside each method state what
the source promises about its specification function.

The keyword scorer only asks whether a token is in one of its two lists,
so the model holds the lists as sets. Membership is exact, so inflected
forms such as "profits" and "missed" are not hits (`ProfitsIsNoHit`,
`MissedIsNoHit`). The tokens of "record profits and strong growth" hit
"record", "strong" and "growth" and score 1.0 with confidence 0.3
(`PositiveHeadline`). The tokens of "missed earnings, weak outlook,
significant risk" hit "weak" and "risk" only and score -1.0 with confidence
0.2 (`NegativeHeadline`).

## Model

| member | source | states |
|---|---|---|
| Text.Strip | src/sentiment_analyzer.py:76 | `s.strip()` is the slice after the leading whitespace that neither starts nor ends with whitespace and is followed only by whitespace; it is empty exactly when `s` is all whitespace |
| Text.WordsOfStrip | src/sentiment_analyzer.py:120 | stripping a text keeps its words: `s.strip().split() == s.split()` |
| Text.Lower | src/sentiment_analyzer.py:208 | `s.lower()` keeps the length and lower-cases each character in place |
| Text.Words | src/lambda_handler.py:250 | `s.split()` with no separator: skip whitespace, take the maximal run of non-whitespace as a word, and go on after it (pinned by the lemmas below) |
| Text.WordsAreWords | src/lambda_handler.py:250 | every element of `s.split()` is a non-empty run without whitespace |
| Text.WordsAppend | src/lambda_handler.py:250 | cutting a text where whitespace begins or ends cuts its words: the words of the whole are the words of the first part followed by those of the second |
| Text.WordsOfWord | src/lambda_handler.py:250 | a run without whitespace splits into itself alone |
| Text.WordsOfSpaces | src/lambda_handler.py:250 | all-whitespace text has no words |
| Text.LowerAppend | src/lambda_handler.py:245 | lower-casing works character by character, so it distributes over concatenation |
| Text.Contains | src/lambda_handler.py:250 | `needle in hay`: the needle is a prefix of the hay or of one of its suffixes |
| Text.ContainsIffFound | src/lambda_handler.py:250 | `needle in hay` holds exactly when the needle occurs at some position of the hay |
| Text.Join | src/lambda_handler.py:289 | `sep.join(parts)`: nothing for no parts, the part itself for one, otherwise the first part, the separator and the join of the rest |
| Text.WordsHead | src/data_fetcher.py:73 | `s.split()` is empty exactly when `s` is all whitespace; its head is the whitespace-free run after the leading whitespace |
| Sentiment.PolarityLabel | src/sentiment_analyzer.py:138-143 | positive iff polarity > 0.1, negative iff polarity < -0.1, else neutral |
| Sentiment.ValenceLabel | src/sentiment_analyzer.py:175-180 | positive iff compound >= 0.05, negative iff compound <= -0.05, else neutral |
| Sentiment.KeywordLabel | src/sentiment_analyzer.py:233-238 | positive iff score > 0.2, negative iff score < -0.2, else neutral |
| Sentiment.ThresholdRulesMonotone | src/sentiment_analyzer.py:138-238 | the three label rules are monotone in the score; whatever the polarity or keyword rule labels positive or negative, the valence rule labels the same |
| Sentiment.EmptySentimentResult | src/sentiment_analyzer.py:316-331 | the sentinel carries the given method name, score 0, confidence 0 and a neutral label, and every threshold rule agrees with that label |
| Sentiment.CollapseWhitespace | src/sentiment_analyzer.py:115 | the result has only plain spaces as whitespace, never two whitespace characters in a row, is no longer than the input, is empty only for empty input, and starts with a space iff the input starts with whitespace |
| Sentiment.CollapseEnds | src/sentiment_analyzer.py:115 | collapsed non-empty text is non-empty and ends with whitespace exactly when the input does |
| Sentiment.CollapseKeepsWords | src/sentiment_analyzer.py:115 | collapsing whitespace keeps the words of the text, in order |
| Sentiment.CollapseIdempotent | src/sentiment_analyzer.py:115 | collapsing whitespace twice equals collapsing it once |
| Sentiment.CollapseFixesCollapsed | src/sentiment_analyzer.py:115 | already collapsed text is left unchanged |
| Sentiment.FilterCharacters | src/sentiment_analyzer.py:118 | only word characters, whitespace and `.,!?;:-` survive; text made only of those is unchanged; plain-space-only text stays so |
| Sentiment.Preprocess | src/sentiment_analyzer.py:98-120 | the cleaned text neither starts nor ends with whitespace, holds only kept characters, and has plain spaces as its only whitespace |
| Sentiment.FilterCollapseWords | src/sentiment_analyzer.py:115-118 | filtering collapsed text gives the same words as filtering the uncollapsed text |
| Sentiment.PreprocessKeepsWords | src/sentiment_analyzer.py:98-120 | the cleaned text has exactly the words of the link-free text after character filtering |
| Sentiment.FilterAppend | src/sentiment_analyzer.py:118 | the filter works character by character: on two joined texts it is the joined filtered texts |
| Sentiment.FilterOne | src/sentiment_analyzer.py:118 | a single character survives exactly when it is a word character, whitespace or one of `.,!?;:-` |
| Sentiment.FilterJoinsSpaces | src/sentiment_analyzer.py:118 | removing a character that stands between two spaces brings the two spaces together |
| Sentiment.DoubleSpaceCanReappear | src/sentiment_analyzer.py:115-120 | because the filter runs after the collapse, cleaned text can contain a double space |
| Sentiment.AnalyzeWithTextBlob | src/sentiment_analyzer.py:132-154 | a successful reading gives score = polarity, the polarity label, confidence = 1 - subjectivity, and the subjectivity detail; it is in range when the reading is; a raising model gives the 'textblob' sentinel |
| Sentiment.Max3 | src/sentiment_analyzer.py:183 | the result is one of the three values and at least each of them |
| Sentiment.AnalyzeWithVader | src/sentiment_analyzer.py:166-196 | a successful reading gives score = compound, the valence label, confidence = the largest proportion, and the proportions; it is in range when the reading is; a raising model gives the 'vader' sentinel |
| Sentiment.KeywordListsDisjoint | src/sentiment_analyzer.py:35-44 | the twenty positive and eighteen negative keywords share no word, so the order in which the lists are consulted never decides a count |
| Sentiment.RelevantTokens | src/sentiment_analyzer.py:211-212 | no kept token is a stop-word or non-alphabetic, and the list never grows |
| Sentiment.HitRatio | src/sentiment_analyzer.py:230 | the keyword score lies in [-1, 1], and multiplied by the hit total it gives positive minus negative hits |
| Sentiment.KeywordResult | src/sentiment_analyzer.py:224-251 | no hits gives the 'financial_keywords' sentinel; otherwise score = hit ratio, the keyword label, confidence = min(total/10, 1) > 0, and the three counts; the result is always in range |
| Sentiment.FinancialKeywordResult | src/sentiment_analyzer.py:208-251 | the keyword result of the tokens: drop stop-words and non-alphabetic tokens, then count positive hits and the negative hits among the rest |
| Sentiment.AnalyzeFinancialKeywords | src/sentiment_analyzer.py:208-251 | the counting loop yields exactly `FinancialKeywordResult`, where a positive hit is never also counted as negative |
| Sentiment.HitsBounded | src/sentiment_analyzer.py:218-222 | each token raises at most one counter, so hits never exceed tokens |
| Sentiment.IgnoredTokenNeverCounts | src/sentiment_analyzer.py:212 | inserting a stop-word or non-alphabetic token anywhere changes nothing in the keyword result |
| Sentiment.KeywordConfidence | src/sentiment_analyzer.py:241 | confidence is a tenth per hit below ten hits and exactly 1 from ten hits on |
| Sentiment.KeywordScoreWithHits | src/sentiment_analyzer.py:224-251 | with hits, the score is the hit ratio in [-1, 1], the label follows the 0.2 thresholds, confidence lies in (0, 1] and saturates at ten hits, and hits are at most the tokens |
| Sentiment.KeywordScoreWithoutHits | src/sentiment_analyzer.py:226-227 | without hits the scorer returns exactly the neutral sentinel |
| Sentiment.TallyCons | src/sentiment_analyzer.py:218-222 | a leading token adds its own hit (positive list first) to the counts of the remaining tokens |
| Sentiment.UnlistedTokenIsNoHit | src/sentiment_analyzer.py:219-222 | a lone token on neither list yields the sentinel |
| Sentiment.ProfitsIsNoHit | src/sentiment_analyzer.py:35-39 | the token "profits" counts as neither a positive nor a negative hit: list membership is exact |
| Sentiment.MissedIsNoHit | src/sentiment_analyzer.py:40-44 | the token "missed" counts as neither a positive nor a negative hit, although "miss" is listed |
| Sentiment.HitsAreTallies | src/sentiment_analyzer.py:211-222 | the counts over the filtered tokens are the token-by-token sums of each token's own hit, a stop-word or non-alphabetic token adding nothing |
| Sentiment.PositiveHeadline | src/sentiment_analyzer.py:208-241 | the tokens "record", "profits", "and", "strong", "growth" give three positive hits and no negative one: score 1, confidence 0.3, positive |
| Sentiment.NegativeHeadline | src/sentiment_analyzer.py:208-241 | the tokens "missed", "earnings", ",", "weak", "outlook", ",", "significant", "risk" give two negative hits and no positive one: score -1, confidence 0.2, negative |
| Sentiment.WeightTable | src/sentiment_analyzer.py:268-272 | exactly the three scorers are weighted, TextBlob and VADER at 0.4 and the keyword scorer at 0.2, adding up to 1 |
| Sentiment.WeightOf | src/sentiment_analyzer.py:268-286 | a result weighs exactly its method's weight, which is positive, when its method is weighted and its score present, and nothing otherwise |
| Sentiment.Winner | src/sentiment_analyzer.py:302 | the chosen label has the most votes, and on a tie it is the earliest of positive, negative, neutral |
| Sentiment.Combined | src/sentiment_analyzer.py:268-314 | without any contributing result it is the 'combined' sentinel; otherwise a consensus keeping the three inputs verbatim whose score and confidence times the total weight give the weighted sums, and whose label is the `Winner` of the weighted votes, so it has the most votes |
| Sentiment.CombineSentimentResults | src/sentiment_analyzer.py:253-314 | the accumulation loop and vote map yield exactly `Combined` |
| Sentiment.StepContributing | src/sentiment_analyzer.py:285-292 | a contributing result adds its weighted score, weighted confidence and weight to the sums, and its weight to its own label's votes only |
| Sentiment.StepSilent | src/sentiment_analyzer.py:285 | a result without weight or score changes no sum and no vote |
| Sentiment.WeightsPositive | src/sentiment_analyzer.py:294-295 | the accumulated weight is non-negative, and zero exactly when no result contributes |
| Sentiment.VotesPartitionWeight | src/sentiment_analyzer.py:281-292 | the votes of the three labels are non-negative and add up to the accumulated weight |
| Sentiment.SumsWithinWeight | src/sentiment_analyzer.py:283-289 | for in-range results the weighted score sum lies within plus or minus the weight, and the confidence sum within [0, weight] |
| Sentiment.ConsensusInRange | src/sentiment_analyzer.py:294-302 | for in-range inputs the consensus score is in [-1, 1], its confidence in [0, 1], and the winner holds at least a third of the weight |
| Sentiment.FullWeightMean | src/sentiment_analyzer.py:268-299 | with all three scores present the consensus is the plain 0.4/0.4/0.2 weighted sum of scores and of confidences |
| Sentiment.AgreeingPairDecides | src/sentiment_analyzer.py:283-302 | when the polarity and valence scorers agree, their label wins whatever the keyword scorer says |
| Sentiment.FailedModelStillVotes | src/sentiment_analyzer.py:152-154 | a raised polarity model still weighs 0.4 with score 0 and a neutral vote; the score becomes 0.4·valence + 0.2·keywords, and the label is neutral when the keyword scorer is neutral |
| Sentiment.Sentiment | src/sentiment_analyzer.py:66-96 | blank text gives the 'unknown' sentinel and is the only way to get a plain result; an error happens exactly when the text is not blank and the tokenizer raises |
| Sentiment.SentimentIsWeightedConsensus | src/sentiment_analyzer.py:80-96 | non-blank text is analysed as the 0.4/0.4/0.2 consensus of the three scorers on the cleaned text, each kept verbatim |
| Sentiment.SentimentInRange | src/sentiment_analyzer.py:66-96 | with in-range model readings every analysis has score in [-1, 1] and confidence in [0, 1] |
| Sentiment.AnalyzeSentiment | src/sentiment_analyzer.py:66-96 | the step-by-step analysis, using the keyword and combination loops, equals `Sentiment` |
| Sentiment.BatchEntryFor | src/sentiment_analyzer.py:345-355 | an entry carries its text index; it carries an error exactly when the analysis raised, and then the 'error' sentinel and the message |
| Sentiment.BatchEntries | src/sentiment_analyzer.py:343-357 | one entry per text |
| Sentiment.OutcomesAt | src/sentiment_analyzer.py:345-347 | outcome i is the analysis of text i |
| Sentiment.BatchEntriesAt | src/sentiment_analyzer.py:345-355 | entry i is the entry for text i and index i |
| Sentiment.AnalyzeBatch | src/sentiment_analyzer.py:333-357 | the batch loop yields exactly `BatchEntries`, in order, carrying on after errors |
| Sentiment.BatchErrorsComeFromTokenizer | src/sentiment_analyzer.py:345-355 | an entry has an error exactly when its text is not blank and the tokenizer raises on it; blank texts get the 'unknown' sentinel |
| Fetcher.SearchTerm | src/data_fetcher.py:73 | there is no term (indexing raises) exactly when the name is all whitespace; otherwise the term is the first word of the name |
| Fetcher.SearchTermIsFirstOfSplit | src/data_fetcher.py:73 | the term is the head of `company.split()` and exists exactly when the split is non-empty |
| Fetcher.SearchTermOfSuffixedName | src/data_fetcher.py:72-73 | "Apple Inc." is searched as "Apple" |
| Fetcher.StrippedField | src/data_fetcher.py:113-115 | an absent field reads as "", a string is stripped, and JSON null raises |
| Fetcher.SourceName | src/data_fetcher.py:117 | an absent source or name gives "Unknown", a null name gives None, a name string is kept, and a null source raises |
| Fetcher.IsoDateText | src/data_fetcher.py:139-141 | the text with every 'Z' replaced by "+00:00" (replacing the trailing one first changes nothing), so no 'Z' survives and text without 'Z' is unchanged |
| Fetcher.ReplaceZ | src/data_fetcher.py:141 | no 'Z' survives, and text without 'Z' is unchanged |
| Fetcher.ReplaceZAppend | src/data_fetcher.py:141 | the replacement works character by character: on two joined texts it is the joined replacements |
| Fetcher.ReplaceZOne | src/data_fetcher.py:141 | a single 'Z' becomes "+00:00" and any other character stays |
| Fetcher.UtcTimestamp | src/data_fetcher.py:138-141 | a UTC timestamp such as "2024-01-15T10:30:00Z" reaches the parser as the same date and time followed by "+00:00" |
| Fetcher.ProcessOne | src/data_fetcher.py:112-121 | a complete raw article raises exactly when its description, content or source is null; otherwise every field is normalised as stated, tagged with the company, and the author is present iff truthy |
| Fetcher.CompleteArticles | src/data_fetcher.py:109-110 | only articles with truthy title, publication time and URL are kept, and never more than the input |
| Fetcher.CompleteArticlesAppend | src/data_fetcher.py:107-110 | the filter works article by article in order: on two joined lists it is the joined filtered lists |
| Fetcher.CompleteArticlesOne | src/data_fetcher.py:109-110 | a single article is kept exactly when its title, publication time and URL are all truthy |
| Fetcher.ProcessedArticles | src/data_fetcher.py:94-125 | the outcome of processing: the processed forms of the complete articles in order, or the exception of the first complete article whose processing raises |
| Fetcher.ProcessArticles | src/data_fetcher.py:94-125 | the loop yields exactly `ProcessedArticles`, stopping at the first exception |
| Fetcher.ErrorPersists | src/data_fetcher.py:107-123 | once a prefix raises, the whole list raises with the same message |
| Fetcher.ProcessedArticlesOk | src/data_fetcher.py:107-125 | processing succeeds exactly when every complete article processes |
| Fetcher.ProcessedArticlesShape | src/data_fetcher.py:107-125 | on success there is one article per complete raw article, in order, each its processed form tagged with the company |
| Fetcher.Deduplicated | src/data_fetcher.py:156-165 | the kept articles have non-empty, pairwise distinct URLs and are no more than the input |
| Fetcher.DeduplicateArticles | src/data_fetcher.py:146-165 | the loop with the seen-set yields exactly `Deduplicated` |
| Fetcher.DedupKeepsEveryUrl | src/data_fetcher.py:159-163 | the output's URLs are exactly the input's non-empty URLs |
| Fetcher.DedupKeepsFirstOccurrences | src/data_fetcher.py:159-163 | the output is an increasing-position subsequence of the input, each element the first input article with its URL |
| Fetcher.DedupFixesDistinct | src/data_fetcher.py:156-165 | a list with non-empty distinct URLs is unchanged |
| Fetcher.DedupIdempotent | src/data_fetcher.py:146-165 | deduplicating twice equals deduplicating once |
| Pipeline.TruncateContent | src/lambda_handler.py:284-286 | content up to 2000 characters is unchanged; longer content becomes its first 2000 characters plus "..."; the result has at most 2003 characters and agrees with the content on the first 2000 |
| Pipeline.TextParts | src/lambda_handler.py:272-287 | at most four pieces, none empty |
| Pipeline.TextPartsAreNonEmptyPieces | src/lambda_handler.py:272-287 | the pieces are the non-empty ones among title, title, description and shortened content, in that order |
| Pipeline.PrepareTextForAnalysis | src/lambda_handler.py:261-289 | the text is the join of `TextParts` by single spaces |
| Pipeline.PreparedTextLayout | src/lambda_handler.py:274-289 | with every field present the text is title, title, description and shortened content, separated by spaces |
| Pipeline.PreparedTextWithoutDescription | src/lambda_handler.py:272-289 | with a title and content but no description the text is title, title and shortened content, separated by spaces |
| Pipeline.TitleComesTwice | src/lambda_handler.py:274-277 | a present title opens the text as "title title" |
| Pipeline.PreparedTextEmpty | src/lambda_handler.py:272-289 | the text is empty exactly when title, description and content all are |
| Pipeline.JoinLength | src/lambda_handler.py:289 | a join is as long as its pieces plus one separator per gap |
| Pipeline.PreparedTextLength | src/lambda_handler.py:282-289 | the text is at most twice the title, the description, 2003 content characters and three separators |
| Pipeline.LongContentIsShortened | src/lambda_handler.py:283-286 | with a short title and description, long content yields a text under 3000 characters and the cut content ends in "..." |
| Pipeline.LookupId | src/lambda_handler.py:238-239 | `ids.get(name)` is None exactly when no entry has the name; otherwise an entry with the name holds the id |
| Pipeline.TrackedCompanyTable | src/lambda_handler.py:35-46 | ten companies are tracked, each with a non-empty symbol, under pairwise different names and symbols |
| Pipeline.ArticleText | src/lambda_handler.py:241-245 | the text matched against: title, description and content joined by spaces, lower-cased |
| Pipeline.ArticleTextPieces | src/lambda_handler.py:241-245 | that text is the lower-cased title, description and content, each in its place, separated by spaces |
| Pipeline.CompanyIdFor | src/lambda_handler.py:225-259 | the attribution rule: the search term's id when it is a key; else the id of the first entry with a lower-cased name word in the text; else the id looked up for the first tracked company whose lower-cased symbol is in the text; else none |
| Pipeline.DetermineCompanyId | src/lambda_handler.py:225-259 | the three returning searches yield exactly `CompanyIdFor` |
| Pipeline.FirstNamed | src/lambda_handler.py:248-252 | the found entry is the first whose lower-cased name words occur in the text; none is found only when no entry's words occur |
| Pipeline.SearchTermDecides | src/lambda_handler.py:236-239 | a search term that is a key decides, whatever the text says |
| Pipeline.NameDecides | src/lambda_handler.py:241-252 | otherwise the first entry, in dictionary order, with a name word in the text decides |
| Pipeline.SymbolDecides | src/lambda_handler.py:254-257 | otherwise the first tracked company whose symbol is in the text decides through its name's entry, giving None when that entry is missing |
| Pipeline.NothingMatches | src/lambda_handler.py:259 | with no key, no name word and no symbol in the text, there is no company |
| Pipeline.EventType | src/lambda_handler.py:305-306 | 'scheduled' exactly when the source contains "events", 'manual' exactly when it does not |
| Pipeline.EventTypeExamples | src/lambda_handler.py:305-306 | "aws.events" is scheduled; "manual" and a missing source are manual |

## Left out

- TextBlob, VADER, the NLTK tokenizer and the stop-word list are not modelled inside. Their outputs are parameters (`Libraries`), and the range facts they guarantee are hypotheses (`ReadingsInRange`).
- The URL and e-mail regular expressions are the single parameter `dropLinks`. Whitespace collapsing, character filtering and trimming are modelled exactly.
- `\w`, `str.isalpha` and `str.lower` are modelled on ASCII letters and digits only. Python applies them to all of Unicode. `str.isspace` and `\s` use the full Python whitespace set.
- Floating point is modelled as exact reals. Rounding in the weighted sums and divisions is not captured.
- Sentiment.Combined: the source reads `result['score']`, `result['confidence']` and `result['label']` from dictionaries that may lack them. The model's results always have those fields, so a `KeyError` on a malformed dictionary is not modelled.
- `_parse_date`: only the text handed to `datetime.fromisoformat` is modelled. The parse itself and its fallback to `datetime.now()` on a `ValueError` are left out, because they are a library call and a clock.
- `fetch_financial_news`, `_fetch_company_news` (apart from its search term) and `fetch_sector_news` are left out. They are HTTP calls to NewsAPI and date arithmetic on the clock.
- Pipeline.DetermineCompanyId: the name-to-id dictionary is a sequence of pairs in insertion order. Duplicate names, which a Python dict cannot hold, are not excluded.
- Pipeline.DetermineCompanyId: articles are the normalised records, so their fields are always strings. A dictionary without a title or content, which the source reads as "", is represented by an empty string.
- Pipeline.EventType: the source field is a string or absent. A non-string JSON value under `source` is not modelled.
- `process_pipeline`, `_setup_companies`, `_fetch_all_news_articles`, the pipeline's own `_process_articles`, `lambda_handler`'s response building, `local_test_handler`, and everything in `database_manager.py` are left out. They are orchestration, logging and database I/O. `database_manager.py` is not part of this model.
- `extract_key_phrases` and the NLTK resource download (`_setup_nltk`) are left out. They are outside the analysed path.
