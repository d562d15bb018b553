# A verified model of the DQDA due-diligence aggregator

The system gathers evidence about a start-up from five collectors: pitch decks, whitepapers, the company website, on-chain tokenomics and founder backgrounds. Every collector turns its raw finds into one shared record, the `DQDADataPoint`. The DQDA agent fans the five collectors' records in and scores them. It computes four sub-scores (founder, market, competition, token utility), a fixed-order weakness list and a weighted investor-fit rating. A scaffold deal-qualification agent with its own assessment record sits beside it. A set of older research utilities parses, cleans and validates startup records, aggregates seed-funding rounds, filters news feeds and enriches records with social links.

This project models each of those parts in Dafny and proves what each part promises. The model follows the Python code's own branches, constants and error paths. Where the code is wrong, at the five defects listed under "## Findings", the model keeps the code as written and adds the correction beside it:

- Python's dynamic values are the datatype `Values.Json`. It comes with a truthiness predicate and `IsNumber`, which, as in Python, also accepts booleans.
- Floats are exact `real`s, and `round` is an explicit round-half-even.
- A call that raises in Python is an `Option` or `Result` that is `None` or an error in the model.
- Objects that the code updates in place are classes with `modifies` clauses. These are the collector, the crawler with its pattern lists, the scaffold agent with its collector list, the tokenomics record the metrics are written into, and the startup dictionary the API client enriches.
- Loops that the code runs (collection caps, the crawler's breadth-first search, the section tagger, the syllable counter, the scoring sums) are methods with loop invariants. Each is proved against a specification function, and the properties are proved as lemmas about that function.
- The pipeline around each defect takes the defective rule as a parameter, so both readings run through the same proofs.
  - The page count of the competition score is `pageCount` in `DqdaAgent.ReportFrom` and `DqdaAgent.RunFullPipeline`. Pass `PagesAsWritten` for the code as written and `Pages` for the correction.
  - The one-key rule of the crawler's merge is `mergeValue` in `WebsiteCrawling.VisitPage` and `WebsiteCrawling.WebsiteCrawler.CrawlWebsite`. Pass `MergeValueAsWritten` for the code as written and `MergeValue` for the correction.
  - The relevance score is `relevance` in `Whitepaper.AnalyzeText` and the members that call it. Pass `RelevanceAsWritten` for the code as written and `Relevance` for the correction.
  - The key the whitepaper analysis reads is `key` in `Whitepaper.Analyze` and `Whitepaper.ProcessDocument`. Pass `CleanTextKey` for the code as written and `CleanedTextKey` for the correction. As written, no document is ever processed.
  - The founder collection step is `process` in `Founder.CollectRawData`. Pass `CollectFounderBackgroundAsWritten` for the code as written and `CollectFounderBackground` for the correction. As written, no founder is collected when the social search is off.
- Network, file, PDF and HTML access, the clock, sleeps and the seeded random generators are all parameters. Fetches are oracle functions. Sleeps are recorded as a trace of delays. Random draws are passed-in values.

| file | module | source |
|---|---|---|
| common.dfy | Values | shared value model and string and number helpers |
| base_collector.dfy | BaseCollector | agent/dqda/data_collectors/base_collector.py |
| gathering.dfy | Gathering | the capped `_collect_raw_data` loop of the whitepaper and pitch-deck collectors |
| dqda_agent.dfy | DqdaAgent | agent/dqda/dqda_agent.py |
| dqda_fixture.dfy | DqdaFixture | the end-to-end fixture of test_dqda_agent.py |
| deal_agent.dfy | DealModels, DealAgent | agent/dqda/models.py, agent/dqda/agent.py |
| tokenomics.dfy | Tokenomics | agent/dqda/data_collectors/tokenomics_collector.py |
| website_crawler.dfy | WebsiteCrawling | agent/dqda/data_collectors/website_crawler.py |
| whitepaper.dfy | Whitepaper | agent/dqda/data_collectors/whitepaper_processor.py |
| pitch_deck.dfy | PitchDeck | agent/dqda/data_collectors/pitch_deck_parser.py |
| founder.dfy | Founder | agent/dqda/data_collectors/founder_background_collector.py |
| data_parser.dfy | DataParser | agent/processors/data_parser.py |
| data_validator.dfy | DataValidation | agent/processors/data_validator.py |
| seed_funding.dfy | SeedFunding | agent/data_collectors/seed_funding_collector.py |
| news.dfy | News | agent/data_collectors/news_aggregator.py |
| api_client.dfy | ApiClient | agent/data_collectors/api_client.py |

Where the regression tests and the code disagree, the model follows the code, with the corrections above modelled alongside it. test_dqda_collectors.py:316-332 expects its sample text to score a writing-quality abstract. The text contains neither "abstract" nor "summary", so the code gives `has_abstract` 0.0 for it. That test is not encoded in the model.

## Model

| member | source | states |
|---|---|---|
| Values.Clamp01 | agent/dqda/dqda_agent.py:185 | `max(0.0, min(1.0, x))` lies in [0, 1] and is `x` itself when `x` already does |
| Values.RoundHalfEven | agent/dqda/dqda_agent.py:185 | Python's `round` lands within one half of its argument |
| Values.RoundMonotone | agent/dqda/dqda_agent.py:185 | rounding never turns a smaller value into a larger integer |
| Values.RoundPercent | agent/dqda/dqda_agent.py:185 | a value in [0, 1] scaled by 100 and rounded is an integer in [0, 100] |
| DataParser.FundingRoundTrip | agent/processors/data_parser.py:10-21 | a whole number written after `$` with a `K`, `M` or `B` suffix reads back as the number times 1 000, 1 000 000 or 1 000 000 000, both as an amount and as a valuation |
| DataParser.SuffixScales | agent/processors/data_parser.py:14-19 | digits followed by one suffix letter read as the value of the digits times that suffix's multiplier |
| DataParser.SeparatorsIgnored | agent/processors/data_parser.py:12 | dropping every `,` or every `$` from the text does not change the parsed amount |
| DataParser.SeparatedFigure | agent/processors/data_parser.py:12-19 | a text that becomes a printed suffixed figure once its commas are dropped reads as that figure |
| DataParser.PlainAmountReads | agent/processors/data_parser.py:21 | a printed whole number without suffix reads back as that amount |
| DataParser.TwentyMillion | agent/processors/data_parser.py:10-21 | "$20M" parses to twenty million |
| DataParser.NatRead | agent/processors/data_parser.py:18-21 | `float` reads a printed whole number as that number |
| DataParser.FirstNumber | agent/processors/data_parser.py:31-33 | a number is found exactly when the text holds a digit |
| DataParser.FirstDigitFrom | agent/processors/data_parser.py:31 | the index found is the first digit at or after the start, and None means no digit follows |
| DataParser.EmployeeCountFound | agent/processors/data_parser.py:27-37 | `parse_employee_count` finds a count exactly when the text holds a digit |
| DataParser.DigitSurvives | agent/processors/data_parser.py:29 | removing `,` and `+` and stripping keeps a digit exactly when there was one |
| DataParser.EmployeeCountRoundTrip | agent/processors/data_parser.py:27-34 | a printed count followed by `+` reads back as the count |
| DataParser.ThousandEmployees | agent/processors/data_parser.py:29-33 | "1,000+" is read as one thousand |
| DataParser.Title | agent/processors/data_parser.py:56 | `str.title()`: same length; a letter is upper-cased unless it follows a letter, in which case it is lower-cased |
| DataParser.TitleOfLower | agent/processors/data_parser.py:56 | the title case of a text does not depend on the text's case |
| DataParser.TitleIdempotent | agent/processors/data_parser.py:56 | title-casing twice is the same as title-casing once |
| DataParser.LowerOfTitle | agent/processors/data_parser.py:56 | title case changes only the case of letters |
| DataParser.NormalizeIgnoresCase | agent/processors/data_parser.py:44-56 | `normalize_category` gives the same result for a name and its lower-cased form |
| DataParser.CanonicalNamesStable | agent/processors/data_parser.py:45-54 | every canonical name except "AI Web3" maps back to itself once lower-cased |
| DataParser.NormalizeIdempotent | agent/processors/data_parser.py:44-56 | normalising a normalised category changes nothing, unless the input was "ai" in some case |
| DataParser.AiNotStable | agent/processors/data_parser.py:50-56 | "ai" becomes "AI Web3", which normalises again to "Ai Web3" |
| DataParser.ExtractInvestors | agent/processors/data_parser.py:59-64 | the result is always a list: a list is returned unchanged, a text gives one entry per comma-separated part, anything else gives the empty list |
| DataParser.InvestorsRoundTrip | agent/processors/data_parser.py:62-63 | names without commas or outer spaces, joined with ", ", are split back into exactly those names |
| DataParser.SplitJoin | agent/processors/data_parser.py:63 | splitting ", "-joined names at commas gives the first name and then the others, each behind one space |
| DataParser.TwoInvestors | agent/processors/data_parser.py:63 | "a, b" gives the two names a and b |
| DataParser.Clean | agent/processors/data_parser.py:71-82 | each cleaner: a stripping cleaner strips text and keeps other values; the category cleaner normalises text; a `str()` cleaner always gives text, keeps text, and prints None, booleans and integers as Python does; the investors cleaner always gives a list |
| DataParser.FieldsCleaned | agent/processors/data_parser.py:85-93 | the first loop's record has exactly the cleaned field names as keys |
| DataParser.CleanStartupData | agent/processors/data_parser.py:67-99 | the method builds the cleaned record given by the specification function `CleanedOf` |
| DataParser.CleanFields | agent/processors/data_parser.py:85-93 | the first loop sets every field of the list, in order, to its cleaned value or to `None` |
| DataParser.CopyRest | agent/processors/data_parser.py:95-97 | the second loop adds every key of the input not yet in the cleaned record, with its value, and nothing else |
| DataParser.CleanedKeys | agent/processors/data_parser.py:67-99 | the cleaned record's keys are the input's keys plus all twelve field names |
| DataParser.CleanedUnknown | agent/processors/data_parser.py:95-97 | a key that is not one of the fields keeps its value |
| DataParser.FieldLookup | agent/processors/data_parser.py:85-93 | a field whose name occurs once in the list holds its own cleaner's result, or `None` when missing |
| DataParser.CleanedField | agent/processors/data_parser.py:70-93 | each of the twelve fields holds its cleaned value, or `None` when the input lacks it |
| DataParser.CleanedAmountReads | agent/processors/data_parser.py:74 | a whole-number funding amount is printed by `str()` and that text parses back to the same amount |
| DataParser.CleanedCategory | agent/processors/data_parser.py:73 | a text category is normalised; a category that is not text is kept |
| DataParser.CleanedInvestors | agent/processors/data_parser.py:76 | investors come out as `extract_investors` of the input value |
| DataParser.CleanedMissing | agent/processors/data_parser.py:92-93 | a field the input lacks is present as `None` |
| DataValidation.AllPresent | agent/processors/data_validator.py:12-17 | true exactly when every listed field is present with a truthy value |
| DataValidation.ValidateStartup | agent/processors/data_validator.py:8-17 | true exactly when name, category and funding amount are all present and truthy |
| DataValidation.SchemeLength | agent/processors/data_validator.py:23 | the prefix found is `http://` or `https://` in any case |
| DataValidation.HostEnd | agent/processors/data_validator.py:24-27 | the host ends at the first `:`, `/` or `?`, or at the end of the text |
| DataValidation.HostChars | agent/processors/data_validator.py:24-26 | a host consists only of letters, digits, hyphens and dots |
| DataValidation.ScanMeansSplit | agent/processors/data_validator.py:24-28 | reading the host, port and path left to right accepts exactly what the pattern accepts |
| DataValidation.SplitScanned | agent/processors/data_validator.py:24-28 | whenever a split into host, port and path exists, the left-to-right reading finds one |
| DataValidation.ScanSplit | agent/processors/data_validator.py:24-28 | a split found by the left-to-right reading is a split into host, port and path |
| DataValidation.UrlMeaning | agent/processors/data_validator.py:20-30 | `validate_url` accepts exactly a scheme `http://` or `https://` in any case, then host, port and path, with at most one newline after them (`$` also matches before a final newline) |
| DataValidation.UrlNoWhitespace | agent/processors/data_validator.py:28 | an accepted URL contains no whitespace, except perhaps a final newline |
| DataValidation.NoSchemeRefused | agent/processors/data_validator.py:23 | a URL that does not start with `h` or `H` is refused |
| DataValidation.DomainAccepted | agent/processors/data_validator.py:23-24 | `https://` followed by a label, a dot and a top-level domain is accepted |
| DataValidation.ExampleComAccepted | agent/processors/data_validator.py:20-30 | "https://example.com" is accepted |
| DataValidation.ValidateDate | agent/processors/data_validator.py:33-42 | an accepted date has length 4, 10 or one more with a final newline |
| DataValidation.DateChars | agent/processors/data_validator.py:36-40 | an accepted date holds only digits, `-` and `/`, apart from a final newline |
| DataValidation.YearAccepted | agent/processors/data_validator.py:38 | every four-digit year is accepted |
| DataValidation.NoRangeCheck | agent/processors/data_validator.py:37 | month and day are not range-checked: "2024-13-45" is accepted |
| DataValidation.FilterValid | agent/processors/data_validator.py:45-53 | the list kept is never longer than the input |
| DataValidation.FilterValidStartups | agent/processors/data_validator.py:45-53 | the loop keeps exactly the valid startups, in order (the specification function `FilterValid`) |
| DataValidation.FilterAppend | agent/processors/data_validator.py:48-50 | filtering a concatenation filters each part, so the order is kept |
| DataValidation.FilterMembers | agent/processors/data_validator.py:48-50 | a startup is kept exactly when it is in the input and passes `validate_startup` |
| DataValidation.FilterIdempotent | agent/processors/data_validator.py:45-53 | filtering twice is the same as filtering once |
| DataValidation.DeduplicateStartups | agent/processors/data_validator.py:56-67 | the loop computes the specification function `Dedup`, or None when a name is not text; on success the result is `FirstOccurrences`: the first startup of each non-empty lower-cased name, in input order |
| DataValidation.DedupFirst | agent/processors/data_validator.py:58-64 | whenever it succeeds, de-duplication keeps exactly the startups whose non-empty lower-cased name no earlier startup has, in input order (`FirstOccurrences`) |
| DataValidation.FirstOccurrencesMembers | agent/processors/data_validator.py:60-64 | a startup is in `FirstOccurrences` exactly when it is at some position whose name is non-empty text and differs from every earlier name |
| DataValidation.DedupSnoc | agent/processors/data_validator.py:60-64 | one more startup fails the call exactly when its name is not text; otherwise it is appended exactly when its lower-cased name is non-empty and not seen before |
| DataValidation.SeenAfterMeaning | agent/processors/data_validator.py:60-63 | after a prefix, the seen set holds exactly the initial names and the non-empty lower-cased names of that prefix |
| DataValidation.DedupFails | agent/processors/data_validator.py:61 | the call raises exactly when some startup has a name that is not text |
| DataValidation.DedupDistinct | agent/processors/data_validator.py:60-64 | the names kept are non-empty and pairwise distinct, ignoring case |
| DataValidation.DedupOfFresh | agent/processors/data_validator.py:60-64 | a list whose names are already fresh comes back unchanged |
| DataValidation.DedupIdempotent | agent/processors/data_validator.py:56-67 | de-duplicating twice is the same as de-duplicating once |
| DataValidation.DedupCovers | agent/processors/data_validator.py:60-64 | every startup kept comes from the input, and every non-empty name not seen before is represented in the output |
| ApiClient.APIClient.constructor | agent/data_collectors/api_client.py:10-12 | the client keeps the configured Crunchbase key it is given |
| ApiClient.ReplaceChar | agent/data_collectors/api_client.py:50 | `replace(' ', '-')`: same length, each occurrence of the character replaced and every other character kept |
| ApiClient.APIClient.FetchCrunchbaseData | agent/data_collectors/api_client.py:14-38 | the empty list is returned, with or without a configured key |
| ApiClient.APIClient.FetchAdditionalCompanyData | agent/data_collectors/api_client.py:40-42 | no data is found for any company |
| ApiClient.APIClient.EnrichStartupData | agent/data_collectors/api_client.py:44-53 | the caller's dictionary is updated in place to the specification function `Enrich` and the same object is returned; when the name is not text nothing changes and the call fails |
| ApiClient.EnrichFails | agent/data_collectors/api_client.py:47-51 | enrichment fails exactly when the links must be built and the name is present but not text |
| ApiClient.EnrichKeepsEntries | agent/data_collectors/api_client.py:47-53 | only the `social_media` key is added: every other entry, and an existing `social_media` value, is kept |
| ApiClient.EnrichLinks | agent/data_collectors/api_client.py:48-51 | the links added are built from the name; a missing name gives the links of the empty name |
| ApiClient.EnrichIdempotent | agent/data_collectors/api_client.py:47 | enriching a second time changes nothing |
| ApiClient.HandlesAgree | agent/data_collectors/api_client.py:49-50 | both handles are lower case without spaces; the LinkedIn handle keeps the name's length; with hyphens ignored the two handles are the same |
| News.FundingRelatedMeaning | agent/data_collectors/news_aggregator.py:50-59 | an entry is funding news exactly when its lower-cased "title summary" text contains some funding keyword and some category keyword |
| News.AnyInMeaning | agent/data_collectors/news_aggregator.py:56-57 | `any(k in text for k in words)` holds exactly when some word occurs in the text |
| News.MissingFieldIsEmpty | agent/data_collectors/news_aggregator.py:54 | a missing title or summary counts as the empty text |
| News.SubstringMatching | agent/data_collectors/news_aggregator.py:54-59 | keywords match as substrings: funding news stays funding news whatever text is added before the title and after the summary |
| News.EmptyCategoryMatchesAll | agent/data_collectors/news_aggregator.py:52-57 | with the empty category every entry with a funding keyword matches |
| News.CategoryCaseIgnored | agent/data_collectors/news_aggregator.py:52 | the category's case does not matter |
| News.ExtractCompaniesFromNews | agent/data_collectors/news_aggregator.py:71-81 | the loop computes the specification function `CompanySet`: the set of company words, or None when a title is not text |
| News.PickCompanies | agent/data_collectors/news_aggregator.py:77-79 | the inner loop keeps, in order, the words that start with a capital letter and are longer than three characters |
| News.PicksMeaning | agent/data_collectors/news_aggregator.py:77-79 | a word is picked exactly when it is one of the words and is a company word |
| News.CompanyListFails | agent/data_collectors/news_aggregator.py:75-77 | the extraction fails exactly when some article's title is not text |
| News.CompanyListMeaning | agent/data_collectors/news_aggregator.py:74-79 | a word is in the list exactly when it is a company word of some article's title |
| News.CompanySetMeaning | agent/data_collectors/news_aggregator.py:71-81 | a name is returned exactly when it is a capitalised word longer than three characters in some article's title |
| SeedFunding.CollectSeedFundingData | agent/data_collectors/seed_funding_collector.py:30-46 | the four source lists, each cut to `max_results`, are appended in the order Crunchbase, PitchBook, TechCrunch, CB Insights and the total is cut to `max_results`; with a non-negative cap this equals cutting the plain concatenation, so at most `max_results` rounds come back |
| SeedFunding.CollectPrefix | agent/data_collectors/seed_funding_collector.py:40-46 | cutting each source first and then the total gives the first `n` rounds of the whole concatenation |
| SeedFunding.RoundDefaults | agent/data_collectors/seed_funding_collector.py:259-303 | a record lacking the keys reads as amount "0", no investors and "Unknown" for source site, lead investor, industry and headquarters; text values are taken as they are |
| SeedFunding.FirstsMembers | agent/data_collectors/seed_funding_collector.py:318 | the distinct investors in first-occurrence order hold every investor exactly once |
| SeedFunding.AddSite | agent/data_collectors/seed_funding_collector.py:270-281 | the source-site part of the loop body adds the round to its site's entry (the specification function `SiteStep`) |
| SeedFunding.AddLead | agent/data_collectors/seed_funding_collector.py:283-293 | the lead-investor part of the loop body adds the round to its lead's entry (the specification function `LeadStep`) |
| SeedFunding.AddCount | agent/data_collectors/seed_funding_collector.py:295-305 | the industry and headquarters counters add one to the round's key, starting from 0 |
| SeedFunding.AverageLeads | agent/data_collectors/seed_funding_collector.py:324-329 | the loop over the lead summary sets each entry's average to total invested over investments |
| SeedFunding.PrefixStep | agent/data_collectors/seed_funding_collector.py:256-305 | one more round adds its amount to the total, its investors to the investor list and set, and itself to its site, lead, industry and headquarters entries |
| SeedFunding.SummariseRounds | agent/data_collectors/seed_funding_collector.py:256-305 | after the main loop the total funding, unique investors, investor count, site and lead summaries and both breakdowns are those of all rounds; the averages and most active list are still empty |
| SeedFunding.CalculateInvestorMetrics | agent/data_collectors/seed_funding_collector.py:237-342 | the method computes the specification function `InvestorMetrics` |
| SeedFunding.GroupGrows | agent/data_collectors/seed_funding_collector.py:272-293 | adding a round to a group adds one round, its amount and its investors to the group's totals |
| SeedFunding.SitesMeaning | agent/data_collectors/seed_funding_collector.py:270-340 | the site summary has one entry per site seen; each counts that site's rounds, adds up their parsed amounts and collects their investors |
| SeedFunding.LeadsMeaning | agent/data_collectors/seed_funding_collector.py:283-293 | the lead summary has one entry per lead investor seen; each counts that investor's rounds and adds up their parsed amounts |
| SeedFunding.BreakdownMeaning | agent/data_collectors/seed_funding_collector.py:295-305 | the industry and geographic breakdowns count the rounds with each value of their field |
| SeedFunding.OverStep | agent/data_collectors/seed_funding_collector.py:270-305 | one more round adds itself to the group of its own key and to no other |
| SeedFunding.GroupsPartition | agent/data_collectors/seed_funding_collector.py:270-305 | each round is in exactly one group: over the distinct keys of a field the group counts add up to the number of rounds and the group funding to the total funding |
| SeedFunding.InvestorsOfRounds | agent/data_collectors/seed_funding_collector.py:265-332 | an investor is among the unique investors exactly when some round lists it |
| SeedFunding.MetricsTotals | agent/data_collectors/seed_funding_collector.py:245-332 | both round counts are the number of rounds (no de-duplication), the investment distribution stays empty, the unique investors are those some round lists, and the averages are per round when there are rounds and stay 0 otherwise |
| SeedFunding.LeadAverages | agent/data_collectors/seed_funding_collector.py:283-329 | each lead's entry counts its rounds (at least one), adds up their amounts and carries the mean amount |
| SeedFunding.KeyHasRounds | agent/data_collectors/seed_funding_collector.py:270-305 | every value a field takes has at least one round |
| SeedFunding.BreakdownSums | agent/data_collectors/seed_funding_collector.py:295-305 | the breakdown counts, added up in the dictionary's order, give the number of rounds |
| SeedFunding.SortSorted | agent/data_collectors/seed_funding_collector.py:318 | the sort behind `most_common` orders by non-increasing count, is a permutation, and keeps entries distinct |
| SeedFunding.OccurrenceEntries | agent/data_collectors/seed_funding_collector.py:318 | the `Counter` holds each distinct investor once with its number of occurrences |
| SeedFunding.TopOf | agent/data_collectors/seed_funding_collector.py:319-322 | the first `n` entries of the sorted counts are at most `n`, sorted, distinct and true counts, and an investor left out means the list is full and it took part no more often than the last one listed |
| SeedFunding.MostActive | agent/data_collectors/seed_funding_collector.py:313-322 | `most_common(10)`: at most ten entries by non-increasing count, each an investor of the rounds with its true count, no investor twice, and any investor left out took part no more often than the last one listed |
| BaseCollector.ParseSource | agent/dqda/data_collectors/base_collector.py:26-32 | `DataSource(value)` finds only a member whose value is the given text |
| BaseCollector.SourceValueRoundTrip | agent/dqda/data_collectors/base_collector.py:26-32 | every source type is found again from its value |
| BaseCollector.ToDict | agent/dqda/data_collectors/base_collector.py:73-89 | `to_dict` has exactly the thirteen field keys, and `source_type` is its text value |
| BaseCollector.FromDict | agent/dqda/data_collectors/base_collector.py:91-96 | `from_dict` succeeds only for a dictionary with the field keys, a startup name, a source type and a text timestamp that `fromisoformat` accepts once its 'Z' is replaced; the record carries that replaced timestamp and the source type whose value was given; a missing, non-text or unparsable timestamp, an unknown source type, an unexpected key or a missing name are errors |
| BaseCollector.ToDictFields | agent/dqda/data_collectors/base_collector.py:73-96 | each optional field of `to_dict(p)` reads back as the same field of `p` |
| BaseCollector.FromDictToDict | agent/dqda/data_collectors/base_collector.py:73-96 | for a timestamp `fromisoformat` accepts, `from_dict(to_dict(p))` succeeds and restores the startup name, source type and confidence, and the whole record when the timestamp has no 'Z' |
| BaseCollector.FromDictOfToDict | agent/dqda/data_collectors/base_collector.py:73-96 | reading back `to_dict(p)` changes nothing but the timestamp's 'Z', and fails exactly when `fromisoformat` rejects the timestamp |
| BaseCollector.Confidence | agent/dqda/data_collectors/base_collector.py:253-275 | the confidence lies in [0.5, 1.0] and is exactly 0.5 for an empty item |
| BaseCollector.ConfidenceBonuses | agent/dqda/data_collectors/base_collector.py:263-275 | the confidence is 0.5 plus 0.2 for content or text, 0.1 for url or source_url, 0.1 for metadata and 0.1 for title, and it is 1.0 exactly when all four signals are there |
| BaseCollector.StructuredData | agent/dqda/data_collectors/base_collector.py:277-291 | the structured data has exactly the keys of the item minus {content, text, data, url, source_url, link, html}, with their values unchanged |
| BaseCollector.QualityIndicators | agent/dqda/data_collectors/base_collector.py:293-314 | the assessment raises, and the item is dropped, exactly when the content is truthy and has no length |
| BaseCollector.QualityTags | agent/dqda/data_collectors/base_collector.py:303-312 | at most four tags, each present exactly when its condition holds (content longer than 100, a url, metadata, a title) |
| BaseCollector.ProcessingNotes | agent/dqda/data_collectors/base_collector.py:316-331 | the notes start with "Collected via <class>" and have a second entry exactly when the item has a truthy collection method |
| BaseCollector.FirstTruthyOfThree | agent/dqda/data_collectors/base_collector.py:201-206 | `a or b or c` is the first truthy value, or the last one when none is |
| BaseCollector.NormalizeSpec | agent/dqda/data_collectors/base_collector.py:181-223 | an item is dropped exactly when it is not a dictionary or its truthy content is a number; a kept record has the collector's source type, the given name as startup and search name, the given keywords, no errors, the first truthy url/source_url/link as URL and the first truthy content/text/data as raw content |
| BaseCollector.KeepSomeStep | agent/dqda/data_collectors/base_collector.py:151-158 | one more item adds its normalised record, if any, at the end |
| BaseCollector.NormalizeAllWellFormed | agent/dqda/data_collectors/base_collector.py:151-158 | no more records than items come out, and each is well formed for the collector, name and keywords |
| BaseCollector.CollectSpecProperties | agent/dqda/data_collectors/base_collector.py:138-167 | a failure yields exactly one degraded record (the collector's source type, confidence 0.1, `errors == [msg]`, note "Graceful degradation for <class>"); success yields at most `max_results` well-formed records, a prefix of the normalised items in raw order |
| BaseCollector.Collector.CollectData | agent/dqda/data_collectors/base_collector.py:117-167 | the method returns the specification function `CollectSpec`; it sleeps once per kept record before truncation and not at all after a failure |
| BaseCollector.Collector.NormalizeItems | agent/dqda/data_collectors/base_collector.py:151-160 | the loop keeps the items that normalise, in order, sleeping the rate-limit delay once per kept record |
| BaseCollector.Collector.constructor | agent/dqda/data_collectors/base_collector.py:111-115 | a missing or zero rate-limit delay falls back to the configured delay; three retries with a base delay of 1.0 |
| Values.SumByBounds | agent/dqda/dqda_agent.py:172-185 | a sum of `n` values in [lo, hi] lies in [n·lo, n·hi] |
| BaseCollector.RetryStep | agent/dqda/data_collectors/base_collector.py:238-249 | a failed attempt sleeps `base·2^k` and moves on, except after the last attempt |
| BaseCollector.Backoff | agent/dqda/data_collectors/base_collector.py:245 | the delay trace from attempt a to b has one delay per attempt |
| BaseCollector.RetryFromSpec | agent/dqda/data_collectors/base_collector.py:236-251 | from attempt a: every attempt before the last made failed; the first success is returned with the delays before it; with no success the result is `None` after every attempt |
| BaseCollector.RetrySpec | agent/dqda/data_collectors/base_collector.py:225-251 | at most `max_retries` calls; the first success is returned; a delay of `base·2^k` follows failed call k only when another call comes after it; with all calls failing the result is `None` |
| BaseCollector.DefaultRetriesAllFail | agent/dqda/data_collectors/base_collector.py:225-251 | with the defaults a call that always fails is tried three times, sleeps 1 then 2 seconds and yields `None` |
| BaseCollector.Collector.RetryWithBackoff | agent/dqda/data_collectors/base_collector.py:225-251 | the attempt loop computes the specification function `RetryFrom` from attempt 0 with the collector's retry count and base delay |
| DqdaAgent.PipelineCalls | agent/dqda/dqda_agent.py:54-84 | five calls in the order pitch deck, whitepaper, website, tokenomics, founders, each with the name, keywords and cap; the website call gets `base_urls` (a missing URL list becomes `[]`), the tokenomics call `use_test_data`, the others nothing more |
| DqdaAgent.CollectedSpec | agent/dqda/dqda_agent.py:92-99 | the collected map has exactly the five roles; each holds its task's records, and a failed task gives `[]` without affecting the other entries |
| DqdaAgent.FanIn | agent/dqda/dqda_agent.py:93-99 | the loop fills the map role by role (the specification function `Collected`) |
| DqdaAgent.Percent | agent/dqda/dqda_agent.py:185 | `int(round(clamp(x, 0, 1) * 100))` lies in [0, 100] |
| DqdaAgent.FounderScoreRange | agent/dqda/dqda_agent.py:172-185 | no founders score 0; otherwise the clamped mean on the 0-100 scale lies between the rounded extreme contributions |
| DqdaAgent.ComputeFounderScore | agent/dqda/dqda_agent.py:172-185 | the loop computes the specification function `FounderScore`, a score in [0, 100] |
| DqdaAgent.MaxOf | agent/dqda/dqda_agent.py:198-236 | a running maximum starting from 0 is non-negative and at least every value seen |
| DqdaAgent.MaxOfAttained | agent/dqda/dqda_agent.py:198-236 | the maximum is reached: it is the starting 0 or one of the values seen, as `max(...)` returns one of its arguments |
| DqdaAgent.WritingPartsOnlyCounted | agent/dqda/dqda_agent.py:218-221 | keys other than the five counted ones never contribute to whitepaper quality |
| DqdaAgent.CompletenessAtMostOne | agent/dqda/dqda_agent.py:230-235 | site completeness (truthy values over at least one) lies in [0, 1] |
| DqdaAgent.MarketRawRange | agent/dqda/dqda_agent.py:240-244 | with non-negative terms the market score lies in [15, 100], and a market-size section alone lifts it to at least 45 |
| DqdaAgent.MarketAnalysis | agent/dqda/dqda_agent.py:187-252 | the market score lies in [15, 100], and is at least 45 when some pitch deck has a truthy market-size section |
| DqdaAgent.ScanPitchDecks | agent/dqda/dqda_agent.py:196-205 | the pitch-deck loop finds whether any deck has a truthy market-size section and the largest numeric section coverage |
| DqdaAgent.CollectWritingParts | agent/dqda/dqda_agent.py:217-221 | the inner loop keeps the numeric values among the five writing-quality keys, in order |
| DqdaAgent.ScanWhitepapers | agent/dqda/dqda_agent.py:211-224 | the whitepaper loop finds the largest mean of the counted writing-quality values |
| DqdaAgent.ScanSites | agent/dqda/dqda_agent.py:229-235 | the website loop finds the largest company-information completeness |
| DqdaAgent.ComputeMarketAnalysis | agent/dqda/dqda_agent.py:187-252 | the method computes the specification function `MarketAnalysis`, a score in [15, 100] |
| DqdaAgent.CompetitionFrom | agent/dqda/dqda_agent.py:280-282 | the competition score lies in [30, 100], and is at least 60 with a competitive-advantage section |
| DqdaAgent.CompetitionIgnoresPageList | agent/dqda/dqda_agent.py:272-275 | a crawl that stores its pages as a list earns no page credit as written, while the corrected count gives it 12 points |
| DqdaAgent.ComputeCompetition | agent/dqda/dqda_agent.py:254-288 | the method computes `CompetitionBy` under the page-count reading it is given: `PagesAsWritten` (the code as written) or `Pages` (corrected) |
| DqdaAgent.TokenUtility | agent/dqda/dqda_agent.py:290-313 | the token score lies in [0, 100] |
| DqdaAgent.TokenUtilitySpec | agent/dqda/dqda_agent.py:290-313 | no token records score 0 and give exactly the signal "No tokenomics data available", and only then is that the signal list |
| DqdaAgent.ComputeTokenUtility | agent/dqda/dqda_agent.py:290-313 | the loop computes the specification function `TokenUtility` |
| DqdaAgent.WeaknessFlags | agent/dqda/dqda_agent.py:315-349 | nine conditions, in the source's order |
| DqdaAgent.WeaknessTextsDistinct | agent/dqda/dqda_agent.py:327-347 | the nine weakness texts differ from each other |
| DqdaAgent.WeaknessesSpec | agent/dqda/dqda_agent.py:315-335 | at most nine weaknesses; each score weakness is listed exactly when its score is strictly below 40 |
| DqdaAgent.MissingWeaknessesSpec | agent/dqda/dqda_agent.py:337-347 | each missing-data weakness is listed exactly when its role is empty |
| DqdaAgent.InvestorFit | agent/dqda/dqda_agent.py:351-383 | the fit score lies in [0, 100] |
| DqdaAgent.InvestorFitSpec | agent/dqda/dqda_agent.py:351-383 | the score lies in [0, 100]; the tier is "strong" exactly from 75, "moderate" exactly in [55, 75), "weak" below 55; with at most nine weaknesses the penalty is at most 0.18; one more weakness never raises the score |
| DqdaAgent.Dicts | agent/dqda/dqda_agent.py:138 | every record is serialised with `to_dict`, keeping length and order |
| DqdaAgent.DataPointDicts | agent/dqda/dqda_agent.py:137-140 | `data_points` has the collected roles as keys, each with as many dictionaries as records |
| DqdaAgent.ReportFrom | agent/dqda/dqda_agent.py:100-143 | under either page-count reading and whatever the collectors return, every score is in its range, there are at most nine weaknesses, and `data_points` covers the collected roles |
| DqdaAgent.ReadingsAgree | agent/dqda/dqda_agent.py:254-288 | the as-written and corrected page counts give the same founder, market and token scores and data points, and the same whole report when no website record stores its crawled pages as a list |
| DqdaAgent.AllEmptyScores | agent/dqda/dqda_agent.py:172-313 | with every role empty the sub-scores are 0, 15, 30 and 0 |
| DqdaAgent.AllEmptyWeaknesses | agent/dqda/dqda_agent.py:315-349 | with every role empty all nine weaknesses are listed, in order |
| DqdaAgent.AllEmptyFit | agent/dqda/dqda_agent.py:351-383 | with every role empty the investor fit is 0, "weak" |
| DqdaAgent.RunFullPipeline | agent/dqda/dqda_agent.py:43-143 | the method builds the specification report `ReportFrom` from the fanned-in results, under the page-count reading it is given |
| DqdaFixture.FixtureFounderScore | test_dqda_agent.py:42-131 | the fixture founder's assessment 0.76 gives a founder score of 76 |
| DqdaFixture.FixtureCompleteness | test_dqda_agent.py:42-131 | the fixture's company information is complete: completeness 1 |
| DqdaFixture.FixtureMarketScore | test_dqda_agent.py:42-131 | the fixture's market score is 85: the whitepaper's only key is not one of the five counted ones |
| DqdaFixture.FixtureCompetitionScore | test_dqda_agent.py:42-131 | under any page-count reading that counts the fixture's one page, the fixture's competition score is 64 |
| DqdaFixture.FixturePages | test_dqda_agent.py:42-131 | the fixture stores its pages as a dictionary, so both page-count readings count one page |
| DqdaFixture.FixtureTokenScore | test_dqda_agent.py:42-131 | the fixture's token score is 90 |
| DqdaFixture.FixtureVerdict | test_dqda_agent.py:42-131 | with every role filled and the fixture scores there is no weakness, and the fit is 80, "strong" |
| DqdaFixture.FixtureReport | test_dqda_agent.py:42-131 | the report `ReportFrom` builds for the fixture's five records, under any page-count reading that counts its one page (both do): founder 76, market 85, competition 64, token 90, no weakness, fit 80 "strong" |
| DealModels.NewAssessment | agent/dqda/models.py:16-25 | a new assessment has the given name and scores and, by default, no data points, no category scores and no flags |
| DealModels.AssessmentToDictSpec | agent/dqda/models.py:27-36 | `to_dict` has exactly the seven keys; the data points are serialised one by one through the record's own `to_dict`, keeping length and order; the scores, category scores, flags and timestamp are copied unchanged |
| DealAgent.Keywords | agent/dqda/agent.py:29 | every collector receives the startup name followed by the additional keywords |
| DealAgent.KwargsSpec | agent/dqda/agent.py:35-44 | each optional path and the token symbol are passed exactly when truthy, and a truthy website URL is passed both as `website_url` and as the one-element `base_urls` |
| DealAgent.FlattenAppend | agent/dqda/agent.py:54-59 | the fan-in of two runs of results is the fan-in of each, concatenated |
| DealAgent.FlattenDropsNonLists | agent/dqda/agent.py:55-59 | an exception or non-list result is dropped and changes nothing else |
| DealAgent.AssessmentSpec | agent/dqda/agent.py:67-99 | no data points: scores 0.0 and empty category scores and flags; otherwise the mean confidence (the sum of the confidences over their number), 7.5 for every configured category, the overall score min(7.5 × the weight sum, 10.0) and the flag "Scaffold Mode" |
| DealAgent.AssessmentConfidenceRange | agent/dqda/agent.py:80 | the mean confidence lies between the smallest and largest confidence |
| DealAgent.DefaultWeightsScore | agent/dqda/agent.py:84-94 | with the default weights, which sum to 1, a non-empty assessment scores 7.5 |
| DealAgent.DealQualificationAgent.constructor | agent/dqda/agent.py:9-12 | a new agent has no collectors |
| DealAgent.DealQualificationAgent.RegisterCollector | agent/dqda/agent.py:17-20 | the collector is appended, so collectors run in registration order |
| DealAgent.DealQualificationAgent.ScheduleCalls | agent/dqda/agent.py:26-50 | one call per collector, in registration order, each with the name, keywords and keyword arguments of the input |
| DealAgent.DealQualificationAgent.Gather | agent/dqda/agent.py:54-59 | the loop concatenates list results in collector order and drops the rest (the specification function `Flatten`) |
| DealAgent.DealQualificationAgent.CalculateAssessment | agent/dqda/agent.py:67-99 | the loops compute the specification function `Assessment` over the agent's weight table |
| DealAgent.DealQualificationAgent.Run | agent/dqda/agent.py:22-65 | the scheduled calls are those of `ScheduleCalls` and the assessment is that of the concatenated list results |
| Gathering.GatherAll | agent/dqda/data_collectors/pitch_deck_parser.py:98-103 | the loop "process each URL, keep a record it yields, stop at the cap" computes the specification function `Gather` |
| Gathering.GatherExtends | agent/dqda/data_collectors/pitch_deck_parser.py:98-103 | the loop keeps what it had and adds at most one record per URL |
| Gathering.GatherFrom | agent/dqda/data_collectors/pitch_deck_parser.py:98-103 | every record added is what processing one of the URLs yielded |
| Gathering.GatherFromAt | agent/dqda/data_collectors/pitch_deck_parser.py:98-103 | the record at any added position is what processing one of the URLs yielded |
| Gathering.GatherCapped | agent/dqda/data_collectors/pitch_deck_parser.py:100-103 | starting below the cap, the loop never goes over it |
| Gathering.GatherOverCap | agent/dqda/data_collectors/pitch_deck_parser.py:100-103 | starting at or over the cap, the loop stops after its first record |
| Gathering.GatherNothing | agent/dqda/data_collectors/pitch_deck_parser.py:98-103 | when no URL yields a record, nothing is added |
| Tokenomics.SearchTokenAddresses | agent/dqda/data_collectors/tokenomics_collector.py:166-177 | the result is the first matches of the known-token scan, never more than five |
| Tokenomics.MatchingOfSound | agent/dqda/data_collectors/tokenomics_collector.py:171-175 | every address taken from one chain is the address of one of its known tokens whose name, or the startup's name, contains a keyword; no more addresses than tokens |
| Tokenomics.SearchSound | agent/dqda/data_collectors/tokenomics_collector.py:169-177 | every address found belongs to a matching known token of one of the listed chains |
| Tokenomics.MatchingOfComplete | agent/dqda/data_collectors/tokenomics_collector.py:169-175 | every matching known token of a chain has its address among that chain's matches |
| Tokenomics.SearchCompleteAt | agent/dqda/data_collectors/tokenomics_collector.py:169-175 | the address of a matching known token of any listed chain is among all the matches |
| Tokenomics.SearchComplete | agent/dqda/data_collectors/tokenomics_collector.py:169-175 | every address of a matching known token of a listed chain is a match; with `SearchSound`, an address is a match exactly when it is such an address |
| Tokenomics.SearchFinds | agent/dqda/data_collectors/tokenomics_collector.py:166-177 | when at most five tokens match in all, every matching known token's address is returned |
| Tokenomics.NameMatchSelectsAll | agent/dqda/data_collectors/tokenomics_collector.py:173-174 | a keyword contained in the startup's own name selects every known token of every listed chain, whatever the token names |
| Tokenomics.NoKeywordsNoTokens | agent/dqda/data_collectors/tokenomics_collector.py:173-177 | with no keywords no address is found |
| Tokenomics.SearchForTokenAddresses | agent/dqda/data_collectors/tokenomics_collector.py:147-177 | the nested loop over chains and known tokens computes `SearchTokenAddresses` |
| Tokenomics.IdentifyBlockchain | agent/dqda/data_collectors/tokenomics_collector.py:531-540 | the chain identified is always Ethereum or BSC |
| Tokenomics.IdentifyBlockchainRules | agent/dqda/data_collectors/tokenomics_collector.py:531-540 | a 42-character `0x` address is Ethereum; otherwise BSC exactly for a `bnb` prefix or a length of 42; Ethereum by default |
| Tokenomics.IdentifyBlockchainSamples | test_dqda_collectors.py:444-450 | the test's `0x` address is Ethereum and its `bnb1` address is BSC |
| Tokenomics.DecentralizationLevel | agent/dqda/data_collectors/tokenomics_collector.py:520-529 | the level from the five-chain table, and "unknown" for any other chain |
| Tokenomics.IdentifiedChainsHaveLevel | agent/dqda/data_collectors/tokenomics_collector.py:520-540 | every chain that can be identified from an address has level "high" or "medium" |
| Tokenomics.ParseHex | agent/dqda/data_collectors/tokenomics_collector.py:363 | `int(s, 16)` on plain hex digits is their value |
| Tokenomics.HashVal | agent/dqda/data_collectors/tokenomics_collector.py:363 | an address prefix that is empty or not alphanumeric gives the fallback hash 1,000,000 |
| Tokenomics.TestSupplyData | agent/dqda/data_collectors/tokenomics_collector.py:360-370 | test supply data exists exactly when the hash can be computed |
| Tokenomics.TestSupplyShape | agent/dqda/data_collectors/tokenomics_collector.py:360-370 | total is the hash times a million, circulating is four fifths of it, the maximum is twice the total exactly for an even hash, inflation is 2% exactly for a multiple of three |
| Tokenomics.TestSupplySample | test_dqda_collectors.py:452-462 | the test's address gives a fixed, non-null total and circulating supply, with maximum and inflation set |
| Tokenomics.TestSupplyBnbRaises | agent/dqda/data_collectors/tokenomics_collector.py:363 | `bnb1abcd` is alphanumeric but not hex, so `int(..., 16)` raises for the BSC test address |
| Tokenomics.ProcessHoldersShape | agent/dqda/data_collectors/tokenomics_collector.py:417-432 | the processed list is never longer than the raw one and each entry is the three-key form of some raw entry |
| Tokenomics.ProcessHoldersAllConvert | agent/dqda/data_collectors/tokenomics_collector.py:417-432 | when every entry converts, one processed entry per raw entry, in order |
| Tokenomics.ProcessHolderList | agent/dqda/data_collectors/tokenomics_collector.py:417-432 | the loop, which skips entries whose quantities do not convert and fails on an entry that is not a dictionary, computes `ProcessHolders` |
| Tokenomics.ProcessHoldersErr | agent/dqda/data_collectors/tokenomics_collector.py:421-430 | an uncaught error on an earlier entry is the error of the whole list |
| Tokenomics.ProcessHoldersSample | test_dqda_collectors.py:464-485 | the test's two raw holders become two processed holders with address, balance and percentage as written |
| Tokenomics.ConcentrationRisk | agent/dqda/data_collectors/tokenomics_collector.py:565 | "high" exactly above 50, "medium" exactly in (30, 50], "low" exactly at or below 30 |
| Tokenomics.DerivedMetricsFrame | agent/dqda/data_collectors/tokenomics_collector.py:542-574 | only the circulation ratio, the estimated market cap and the holder statistics may change; every other key keeps its value |
| Tokenomics.CirculationRatioWritten | agent/dqda/data_collectors/tokenomics_collector.py:550-554 | with both supplies non-zero numbers the ratio written is circulating over total |
| Tokenomics.NoRatioWithoutSupply | agent/dqda/data_collectors/tokenomics_collector.py:553 | without a truthy total and circulating supply no ratio is written |
| Tokenomics.ConcentrationWritten | agent/dqda/data_collectors/tokenomics_collector.py:557-565 | for a non-empty summable top-holder list the holder statistics gain the top-5 and top-10 sums and the risk tier, keeping their other entries |
| Tokenomics.DerivedMetricsSteps | agent/dqda/data_collectors/tokenomics_collector.py:542-571 | when all three steps succeed the result is the market-cap step after the concentration step after the ratio step |
| Tokenomics.DerivedMetricsSample | test_dqda_collectors.py:487-517 | the test's record gets ratio 0.8, top-5 concentration 83, risk "high" and a market cap of one million |
| Tokenomics.SamplePercentages | test_dqda_collectors.py:495-501 | the test's five percentages sum to 83 |
| Tokenomics.TokenomicsRecord.SumPercentages | agent/dqda/data_collectors/tokenomics_collector.py:560-561 | the loop computes `PctSum`: the sum of the percentages, or failure on an entry that is not a dictionary or whose percentage is not a number |
| Tokenomics.TokenomicsRecord.CalculateDerivedMetrics | agent/dqda/data_collectors/tokenomics_collector.py:542-574 | the in-place update leaves the record equal to `DerivedMetrics` of the old one, stopping at the first step that would raise |
| Tokenomics.DataQuality | agent/dqda/data_collectors/tokenomics_collector.py:576-619 | a score exists exactly when all four categories are dictionaries |
| Tokenomics.DataQualityRange | agent/dqda/data_collectors/tokenomics_collector.py:576-619 | the quality lies in [0, 1] |
| Tokenomics.DataQualityEmpty | test_dqda_collectors.py:532-541 | empty categories, or none at all, score 0 |
| Tokenomics.DataQualityHighSample | test_dqda_collectors.py:519-530 | the test's "high quality" record scores exactly 0.7, since its empty top-holder list and whale analysis are falsy |
| Tokenomics.TokenResultsShape | agent/dqda/data_collectors/tokenomics_collector.py:131-143 | one non-empty record at most per address, in order |
| Tokenomics.CollectRawBound | agent/dqda/data_collectors/tokenomics_collector.py:127-145 | for a non-negative bound at most `max_results` records, and never more than the addresses given |
| Tokenomics.CollectRawData | agent/dqda/data_collectors/tokenomics_collector.py:105-145 | the loop searches only when no address is given, then computes `CollectRaw` over the first `max_results` addresses |
| WebsiteCrawling.BlockedAdmin | test_dqda_collectors.py:357-366 | `/admin` on the test host is blocked by the default patterns |
| WebsiteCrawling.BlockedLogin | test_dqda_collectors.py:357-366 | `/login` is blocked |
| WebsiteCrawling.BlockedApi | test_dqda_collectors.py:357-366 | `/api/v1/data` is blocked |
| WebsiteCrawling.BlockedImage | test_dqda_collectors.py:357-366 | `/image.jpg` is blocked by the extension pattern |
| WebsiteCrawling.BlockedSearch | test_dqda_collectors.py:357-366 | `/search?utm_source=google` is blocked |
| WebsiteCrawling.BlockedBeforeNewline | agent/dqda/data_collectors/website_crawler.py:74 | `$` also matches just before a final newline, so `/a.json` followed by a newline is blocked |
| WebsiteCrawling.NotBlockedWithout | agent/dqda/data_collectors/website_crawler.py:71-77 | a URL whose lower-case form has none of a few witness characters, and no `.` among its last five characters (its last six when it ends in a newline), matches none of the default patterns |
| WebsiteCrawling.AllowedSamples | test_dqda_collectors.py:369-376 | `/about`, `/company` and `/team` on the test host are not blocked |
| WebsiteCrawling.PagePriority | agent/dqda/data_collectors/website_crawler.py:542-550 | the priority is one of the table's categories or "general" |
| WebsiteCrawling.PagePriorityFirst | agent/dqda/data_collectors/website_crawler.py:544-548 | the priority is the category of the first entry with a path contained in the lower-cased page path |
| WebsiteCrawling.PagePriorityGeneral | agent/dqda/data_collectors/website_crawler.py:550 | when no entry matches the priority is "general" |
| WebsiteCrawling.PagePrioritySamples | test_dqda_collectors.py:380-381 | `/about` and `/team` are about pages |
| WebsiteCrawling.ProductPriority | test_dqda_collectors.py:382 | `/product` is a product page |
| WebsiteCrawling.ContactPriority | test_dqda_collectors.py:383 | `/contact` is a contact page |
| WebsiteCrawling.BlogPriority | test_dqda_collectors.py:384 | `/blog` is a blog page: none of the earlier categories match it |
| WebsiteCrawling.RandomPagePriority | test_dqda_collectors.py:385 | `/random-page` is a general page |
| WebsiteCrawling.NameVariations | agent/dqda/data_collectors/website_crawler.py:516-527 | at most one variation, present exactly for a name of more than one word, and then the upper-cased initials |
| WebsiteCrawling.NameVariationAcronym | agent/dqda/data_collectors/website_crawler.py:521-525 | the acronym has one upper-cased initial per word, in order |
| WebsiteCrawling.SplitTwoWords | agent/dqda/data_collectors/website_crawler.py:521 | two words with one space between them split into those two words |
| WebsiteCrawling.NameVariationSample | test_dqda_collectors.py:406-414 | "Test Startup" gives the one variation "TS" |
| WebsiteCrawling.MergeValue | agent/dqda/data_collectors/website_crawler.py:532-538 | for one key: a list extends a list, and otherwise the existing value only gives way to a text when the existing value is empty |
| WebsiteCrawling.MergeCompanyData | agent/dqda/data_collectors/website_crawler.py:529-540 | the merged keys are the union of the keys; keys on one side only keep their value |
| WebsiteCrawling.MergeWith | agent/dqda/data_collectors/website_crawler.py:529-540 | under any one-key rule, the merged keys are the union of the keys, and keys on one side only keep their value |
| WebsiteCrawling.MergeReadingsDiffer | agent/dqda/data_collectors/website_crawler.py:535-538 | the as-written and corrected one-key rules differ exactly when the new value is text, the existing value is falsy, and the two differ |
| WebsiteCrawling.MergeAsWrittenKeepsScalars | agent/dqda/data_collectors/website_crawler.py:535-538 | as written, an existing value that is not a list is never replaced |
| WebsiteCrawling.MergeEmptyExistingSample | agent/dqda/data_collectors/website_crawler.py:535-538 | an empty existing industry stays empty as written and takes the new text once corrected |
| WebsiteCrawling.MergeKeepsFirstNonEmpty | agent/dqda/data_collectors/website_crawler.py:535-538 | a truthy existing value that is not a list is never overwritten |
| WebsiteCrawling.MergeNothing | agent/dqda/data_collectors/website_crawler.py:531 | merging an empty dictionary changes nothing |
| WebsiteCrawling.MergeOneMore | agent/dqda/data_collectors/website_crawler.py:531-540 | under any one-key rule, merging one more key changes only that key, which is present before exactly when it was in the existing data |
| WebsiteCrawling.MergeCompanyDataInto | agent/dqda/data_collectors/website_crawler.py:529-540 | the loop over the new items leaves the existing dictionary equal to `MergeWith` under the one-key rule it is given: `MergeValueAsWritten` as written, `MergeValue` corrected |
| WebsiteCrawling.CompanyOfKeys | agent/dqda/data_collectors/website_crawler.py:293-297 | under either merge rule, the company data has a key exactly when some crawled page's extracted data has it |
| WebsiteCrawling.Dedup | agent/dqda/data_collectors/website_crawler.py:464 | removing duplicates keeps exactly the same URLs, each once |
| WebsiteCrawling.InternalLinks | agent/dqda/data_collectors/website_crawler.py:435-464 | at most ten distinct links, each one of the page's targets, on the page's own host and not blocked |
| WebsiteCrawling.Children | agent/dqda/data_collectors/website_crawler.py:312-314 | the entries a page adds are exactly its links not yet visited, each one level deeper |
| WebsiteCrawling.QueueWeightChildren | agent/dqda/data_collectors/website_crawler.py:307-314 | the children of a page above the depth bound weigh less than the page, so the crawl terminates |
| WebsiteCrawling.Enqueue | agent/dqda/data_collectors/website_crawler.py:312-314 | the loop appends exactly `Children` to the queue |
| WebsiteCrawling.VisitPage | agent/dqda/data_collectors/website_crawler.py:278-314 | one visit pops the head, marks it visited before its single fetch, and appends exactly the unvisited internal links of the fetched page, one level deeper, when it is above the depth bound; on a page it records the page and merges its company data under the given rule; the crawl invariant is kept and the queue gets lighter |
| WebsiteCrawling.SiteStep | agent/dqda/data_collectors/website_crawler.py:300-304 | a fetch that returns a page sets its path's entry to that page's title, content length and priority, overwriting an earlier page of the same path; a failed fetch leaves the site structure as it is |
| WebsiteCrawling.CrawlStep | agent/dqda/data_collectors/website_crawler.py:277-318 | one loop iteration keeps the crawl invariant and the breadth-first frontier; a head that fails the visited, depth or block checks is only popped; the queue gets lighter |
| WebsiteCrawling.WebsiteCrawler.constructor | agent/dqda/data_collectors/website_crawler.py:62-77 | a new crawler has the default blocked patterns and priority table |
| WebsiteCrawling.WebsiteCrawler.AddBlockedPatterns | agent/dqda/data_collectors/website_crawler.py:571-578 | the new patterns follow the old ones, so the list grows by exactly their number |
| WebsiteCrawling.WebsiteCrawler.SetPriorityPaths | agent/dqda/data_collectors/website_crawler.py:580-587 | the priority table is replaced and the blocked patterns kept |
| WebsiteCrawling.WebsiteCrawler.CrawlWebsite | agent/dqda/data_collectors/website_crawler.py:246-338 | the base URL is fetched first, at depth 0, and is fetched whenever it is fetchable and a page is allowed; every later fetch is an internal link, one level deeper, of an earlier fetched page above the depth bound; short of `max_pages` pages, every such link was fetched; no URL is fetched twice; every URL fetched was unblocked and within the depth bound; at most `max_pages` pages; company data (under the given merge rule) are built from the fetched pages in order; the site structure has a key exactly for the path of each fetched page, holding the title, content length and priority of the last page fetched under that path; pages crawled never exceed URLs visited |
| WebsiteCrawling.LinksOf | agent/dqda/data_collectors/website_crawler.py:307-311 | the links a fetched page adds are at most ten and never blocked |
| WebsiteCrawling.PopQueued | agent/dqda/data_collectors/website_crawler.py:278 | popping the queue keeps the origin of every remaining entry |
| WebsiteCrawling.PopClosed | agent/dqda/data_collectors/website_crawler.py:278-287 | after a pop, every link seen is visited, still pending, or the popped URL about to be visited |
| WebsiteCrawling.SkipFrontier | agent/dqda/data_collectors/website_crawler.py:280-285 | skipping a visited, too deep or blocked head keeps the breadth-first frontier |
| WebsiteCrawling.VisitRooted | agent/dqda/data_collectors/website_crawler.py:287-291 | a fetch whose origin lies in the earlier fetches keeps every fetch rooted at the base URL |
| WebsiteCrawling.VisitQueued | agent/dqda/data_collectors/website_crawler.py:307-314 | after a fetch, the old queue entries and the new page's children all have their origin |
| WebsiteCrawling.VisitClosed | agent/dqda/data_collectors/website_crawler.py:307-314 | after a fetch whose unvisited links are enqueued, every link seen is visited or pending |
| WebsiteCrawling.VisitFrontier | agent/dqda/data_collectors/website_crawler.py:278-314 | visiting the popped head restores the breadth-first frontier |
| WebsiteCrawling.RootedOrder | agent/dqda/data_collectors/website_crawler.py:272-314 | rooted fetches start at the base URL at depth 0, and each later one is a link of an earlier page |
| WebsiteCrawling.DrainedClosed | agent/dqda/data_collectors/website_crawler.py:277-314 | once the queue is drained, every link of a page fetched above the depth bound was fetched |
| WebsiteCrawling.CrawlDone | agent/dqda/data_collectors/website_crawler.py:277-318 | when the loop stops: one visited URL per fetch, the base URL first, every later fetch a link of an earlier page, and with the queue drained the base URL fetched unless it is unfetchable and every link seen fetched |
| Whitepaper.DocumentType | agent/dqda/data_collectors/whitepaper_processor.py:278-312 | the type is one of pdf, txt, doc, html and unknown |
| Whitepaper.DocumentTypeExtensionFirst | agent/dqda/data_collectors/whitepaper_processor.py:292-294 | a `.pdf` URL is a PDF whatever the content type |
| Whitepaper.DocumentTypeUnknown | agent/dqda/data_collectors/whitepaper_processor.py:289-312 | the type is unknown exactly when no extension, no content-type word and no `http` applies |
| Whitepaper.HtmlByContentType | agent/dqda/data_collectors/whitepaper_processor.py:300-304 | for a URL with none of the extensions, an HTML content type without `pdf` gives HTML |
| Whitepaper.DocumentTypePdfSample | test_dqda_collectors.py:236-240 | the test's `.pdf` URL is a PDF |
| Whitepaper.DocumentTypeTxtSample | test_dqda_collectors.py:248-252 | the test's `.txt` URL is text |
| Whitepaper.DocumentTypeHtmlSample | test_dqda_collectors.py:242-246 | the test's extensionless URL with an HTML content type is HTML |
| Whitepaper.CollapseWs | agent/dqda/data_collectors/whitepaper_processor.py:472 | after collapsing, every whitespace character left is a space |
| Whitepaper.CollapseSingleSpaced | agent/dqda/data_collectors/whitepaper_processor.py:472 | the collapsed text never has two spaces side by side, and starts with a space exactly when the text starts with whitespace |
| Whitepaper.CleanText | agent/dqda/data_collectors/whitepaper_processor.py:461-483 | the cleaned text has only kept characters, spaces as its only whitespace, and no whitespace at either end |
| Whitepaper.CleanTextNoLineBreaks | agent/dqda/data_collectors/whitepaper_processor.py:472-478 | the cleaned text has no newline or tab, so the blank-line substitution never applies |
| Whitepaper.CleanTextSingleSpaces | test_dqda_collectors.py:254-260 | when every character is one the cleaner keeps, as in the test, no two spaces end up side by side |
| Whitepaper.CleanTextDropBetween | agent/dqda/data_collectors/whitepaper_processor.py:472-475 | a dropped character between two spaces leaves two spaces, since whitespace is collapsed before the drop |
| Whitepaper.CleanTextDoubleSpaceSample | agent/dqda/data_collectors/whitepaper_processor.py:472-481 | for one concrete input the cleaned text holds a double space, and cleaning it again changes it |
| Whitepaper.SectionKey | agent/dqda/data_collectors/whitepaper_processor.py:554 | the key keeps the length; each character is kept when it is in [a-z0-9] and becomes `_` otherwise |
| Whitepaper.HeaderName | agent/dqda/data_collectors/whitepaper_processor.py:547-578 | a line names a section exactly when it is a markdown, numbered or all-caps header, and the name is made of [a-z0-9_] |
| Whitepaper.Classify | agent/dqda/data_collectors/whitepaper_processor.py:540-581 | after stripping, an empty line is skipped, a header opens a section, and anything else is a content line |
| Whitepaper.TagLine | agent/dqda/data_collectors/whitepaper_processor.py:539-581 | one pass of the loop body is one step of the line fold |
| Whitepaper.TagLines | agent/dqda/data_collectors/whitepaper_processor.py:539-581 | the loop over the lines computes the fold |
| Whitepaper.IdentifySections | agent/dqda/data_collectors/whitepaper_processor.py:522-587 | the method, the loop followed by the final save, computes `Sections` |
| Whitepaper.SectionsOfLinesNamed | agent/dqda/data_collectors/whitepaper_processor.py:550-585 | every saved section is non-empty and is the introduction or the name of a header line |
| Whitepaper.SectionsNamed | agent/dqda/data_collectors/whitepaper_processor.py:536-587 | every section is non-empty and is named "introduction" or a name made of [a-z0-9_] |
| Whitepaper.HeaderThenHeader | agent/dqda/data_collectors/whitepaper_processor.py:550-555 | a header straight after a header records nothing for the first one |
| Whitepaper.IntroductionOnly | agent/dqda/data_collectors/whitepaper_processor.py:536-585 | without headers, all content goes to "introduction", joined by single spaces |
| Whitepaper.SavedAfterContent | agent/dqda/data_collectors/whitepaper_processor.py:550-585 | a header followed by one content line records that line under the header's name |
| Whitepaper.RepeatedNameOverwrites | agent/dqda/data_collectors/whitepaper_processor.py:550-551 | a repeated section name overwrites the earlier entry |
| Whitepaper.AlternatingSections | agent/dqda/data_collectors/whitepaper_processor.py:539-585 | headers each followed by one content line give one section per header, later ones of the same name overwriting |
| Whitepaper.OneLineOneSection | agent/dqda/data_collectors/whitepaper_processor.py:535-587 | a single line yields at most one section |
| Whitepaper.CleanTextOneSection | agent/dqda/data_collectors/whitepaper_processor.py:496-499 | the analysis tags the cleaned text, which has no newline, so at most one section comes out |
| Whitepaper.MarkdownTitle | agent/dqda/data_collectors/whitepaper_processor.py:548-554 | `# Word` names the section by the lower-cased word |
| Whitepaper.TestSections | test_dqda_collectors.py:262-292 | the test's 21-line document, indented and with blank lines around each header and content line, gives exactly the five named sections with their stripped content |
| Whitepaper.BlankSkipped | agent/dqda/data_collectors/whitepaper_processor.py:540-542 | a line that strips to nothing changes nothing |
| Whitepaper.SavedAfterSpacedContent | agent/dqda/data_collectors/whitepaper_processor.py:540-556 | header, blank, content, blank records the content under the header's name |
| Whitepaper.SpacedSections | agent/dqda/data_collectors/whitepaper_processor.py:535-587 | a blank line, five spaced header/content blocks and a blank line give exactly the five sections, later names overwriting |
| Whitepaper.ClassifyStripped | agent/dqda/data_collectors/whitepaper_processor.py:540 | indentation does not change how a line is classified |
| Whitepaper.SpacedClassified | agent/dqda/data_collectors/whitepaper_processor.py:540-556 | four raw lines that strip to a header, nothing, plain text and nothing classify as a spaced block |
| Whitepaper.LetterWords | agent/dqda/data_collectors/whitepaper_processor.py:656 | the words counted are non-empty runs of letters only |
| Whitepaper.WordSyllables | agent/dqda/data_collectors/whitepaper_processor.py:660-666 | a word counts at least one syllable and at most one per letter |
| Whitepaper.CountSyllables | agent/dqda/data_collectors/whitepaper_processor.py:654-668 | the loop computes the sum of the per-word syllable counts |
| Whitepaper.SyllableBounds | agent/dqda/data_collectors/whitepaper_processor.py:659-666 | the count of a word list lies between the number of words and the number of letters |
| Whitepaper.SyllablesAtLeastWords | agent/dqda/data_collectors/whitepaper_processor.py:654-668 | a text has at least as many syllables as letter-only words |
| Whitepaper.SilentE | agent/dqda/data_collectors/whitepaper_processor.py:661-666 | a final silent 'e' after another vowel group does not count |
| Whitepaper.ReadingEase | agent/dqda/data_collectors/whitepaper_processor.py:631-633 | the reading ease is clamped and scaled into [0, 1] |
| Whitepaper.QualityOf | agent/dqda/data_collectors/whitepaper_processor.py:625-650 | the counts are recorded, every rate lies in [0, 1], reading ease is present exactly for a non-empty text, and each structure flag is 1.0 exactly when its test holds |
| Whitepaper.WritingQuality | agent/dqda/data_collectors/whitepaper_processor.py:617-652 | at least one sentence; rates in [0, 1]; reading ease exactly for a text with words; the abstract, references and figures flags follow their tests |
| Whitepaper.AbstractInHead | agent/dqda/data_collectors/whitepaper_processor.py:636 | the abstract test looks at the first 500 characters only |
| Whitepaper.QualityMapRates | agent/dqda/data_collectors/whitepaper_processor.py:625-650 | every rate in the quality dictionary is a number in [0, 1], and reading ease is there exactly when it was computed |
| Whitepaper.NoTerminatorOneSentence | agent/dqda/data_collectors/whitepaper_processor.py:623 | a text with no `.`, `!` or `?` counts as one sentence |
| Whitepaper.RelevanceScore | agent/dqda/data_collectors/whitepaper_processor.py:756-761 | the weighted relevance lies in [0, 1] |
| Whitepaper.RelevanceAsWritten | agent/dqda/data_collectors/whitepaper_processor.py:726-761 | as written, the relevance lies in [0, 1] |
| Whitepaper.Relevance | agent/dqda/data_collectors/whitepaper_processor.py:726-761 | the relevance with the name lower-cased like the text lies in [0, 1] |
| Whitepaper.ScoreMonotone | agent/dqda/data_collectors/whitepaper_processor.py:756-760 | more name mentions never lower the score |
| Whitepaper.EmptyNameNeutral | agent/dqda/data_collectors/whitepaper_processor.py:728-729 | an empty name scores 0.5, in both readings |
| Whitepaper.CapitalisedNameNeverFound | agent/dqda/data_collectors/whitepaper_processor.py:731-734 | the lower-cased text never contains a name with an upper-case letter |
| Whitepaper.CapitalisedNameCapped | agent/dqda/data_collectors/whitepaper_processor.py:734-761 | as written, a capitalised name scores at most 0.5 whatever the text |
| Whitepaper.RelevanceAgreesOnLowercase | agent/dqda/data_collectors/whitepaper_processor.py:731-734 | the two readings agree on names without upper-case letters |
| Whitepaper.RelevanceAsWrittenAtMost | agent/dqda/data_collectors/whitepaper_processor.py:731-734 | the as-written score is never above the intended one |
| Whitepaper.CapitalisedMentionMissed | agent/dqda/data_collectors/whitepaper_processor.py:731-734 | for a capitalised name that the text mentions, the as-written score misses at least the 1/6 that one mention is worth |
| Whitepaper.ExtractAndClean | agent/dqda/data_collectors/whitepaper_processor.py:314-338 | a result exists exactly for a supported type with extracted text; it holds the raw text under `raw_text` and its cleaned form under `cleaned_text`, and has no `clean_text` key |
| Whitepaper.AnalyzeText | agent/dqda/data_collectors/whitepaper_processor.py:496-520 | the analysis carries the text, its sections, its writing quality and the relevance under the rule it is given: `RelevanceAsWritten` as written, `Relevance` corrected |
| Whitepaper.AnalysisReadings | agent/dqda/data_collectors/whitepaper_processor.py:725-740 | under both relevance rules the relevance is in [0, 1], the as-written one never exceeds the corrected one, and the two analyses differ in nothing else |
| Whitepaper.Analyze | agent/dqda/data_collectors/whitepaper_processor.py:485-496 | the analysis exists exactly when the processed content has the key it reads |
| Whitepaper.RecordFields | agent/dqda/data_collectors/whitepaper_processor.py:228-239 | the record carries the cleaned text, the document type and the writing-quality dictionary |
| Whitepaper.FileDocumentType | agent/dqda/data_collectors/whitepaper_processor.py:146-152 | a local file's type comes from its extension alone; HTML exactly for `.html` or `.htm` when it is neither `.pdf` nor `.txt` |
| Whitepaper.FileTypeAgrees | agent/dqda/data_collectors/whitepaper_processor.py:146-150 | for `.pdf` and `.txt` names the file rule and the URL rule agree |
| Whitepaper.AsWrittenNoDocument | agent/dqda/data_collectors/whitepaper_processor.py:496 | as written the analysis reads `clean_text`, which no extractor writes, so no document yields a record |
| Whitepaper.AsWrittenNeverProcesses | agent/dqda/data_collectors/whitepaper_processor.py:129-243 | as written no URL and no local file ever yields a record |
| Whitepaper.DocumentSucceeds | agent/dqda/data_collectors/whitepaper_processor.py:166-187 | reading `cleaned_text`, a document of an accepted, supported type whose text was extracted yields the record of its cleaned text's analysis |
| Whitepaper.ProcessUrlSucceeds | agent/dqda/data_collectors/whitepaper_processor.py:193-239 | reading `cleaned_text`, a downloaded URL of an accepted, supported type yields the record of its cleaned text's analysis |
| Whitepaper.RecordQualityRates | agent/dqda/data_collectors/whitepaper_processor.py:228-239 | the writing quality that reaches a record has every rate in [0, 1] |
| Whitepaper.ProcessedSectionsAtMostOne | agent/dqda/data_collectors/whitepaper_processor.py:221-232 | a processed document's text is cleaned, so its sections are at most one |
| Whitepaper.CollectRawData | agent/dqda/data_collectors/whitepaper_processor.py:78-127 | the method, the local file, then the URLs up to the cap, then the search results up to the cap, computes `CollectRaw` |
| Whitepaper.CollectCapped | agent/dqda/data_collectors/whitepaper_processor.py:99-125 | for a cap of at least one, at most that many records, the local file's record first; for a smaller cap only the local record can be there |
| Whitepaper.CollectNothingFromUrls | agent/dqda/data_collectors/whitepaper_processor.py:108-125 | when no URL yields a record, the result is the local file's record alone |
| Whitepaper.AsWrittenCollectsNothing | agent/dqda/data_collectors/whitepaper_processor.py:78-127 | as written, the collector returns no records at all, whatever its inputs |
| PitchDeck.DownloadPdf | agent/dqda/data_collectors/pitch_deck_parser.py:150-181 | content comes back exactly when a session exists, the GET succeeded, and the content type contains `pdf` or the URL ends in `.pdf`; it is then the response body |
| PitchDeck.PdfSuffixAccepted | agent/dqda/data_collectors/pitch_deck_parser.py:173 | a URL ending in `.pdf`, in any case, is accepted whatever its content type |
| PitchDeck.NextPos | agent/dqda/data_collectors/pitch_deck_parser.py:381-387 | the section boundary lies after the match start and at most at the end of the text |
| PitchDeck.NextPosIsNearest | agent/dqda/data_collectors/pitch_deck_parser.py:381-387 | the boundary is the nearest match of any pattern after the start: no pattern matches before it, and it is the end of the text or itself a match |
| PitchDeck.NextSectionPosition | agent/dqda/data_collectors/pitch_deck_parser.py:381-387 | the inner loop over the patterns computes `NextPos` |
| PitchDeck.FirstSectionIsFirst | agent/dqda/data_collectors/pitch_deck_parser.py:378-393 | a section is found exactly when some match gives a stripped candidate longer than 50 characters, and it is the first such candidate |
| PitchDeck.FindSection | agent/dqda/data_collectors/pitch_deck_parser.py:378-393 | the loop over one pattern's matches, which stops at the first that qualifies, computes `FirstSection` |
| PitchDeck.Findings | agent/dqda/data_collectors/pitch_deck_parser.py:375-393 | what each pattern yields, in order |
| PitchDeck.AssembleSpec | agent/dqda/data_collectors/pitch_deck_parser.py:375-393 | every key is one of the names and holds what was found for it; every name something was found for is a key |
| PitchDeck.FindSections | agent/dqda/data_collectors/pitch_deck_parser.py:375-393 | the outer loop over names and patterns computes `Assemble` of the findings |
| PitchDeck.PitchSectionsSpec | agent/dqda/data_collectors/pitch_deck_parser.py:356-395 | the keys are among the nine names; each value is the first qualifying candidate of its own pattern; every pattern with a qualifying candidate has a key |
| PitchDeck.IdentifyPitchDeckSections | agent/dqda/data_collectors/pitch_deck_parser.py:356-395 | the nested loops compute `PitchSections` |
| PitchDeck.QualityFrom | agent/dqda/data_collectors/pitch_deck_parser.py:402-419 | every indicator lies in [0, 1] and reaches 1.0 exactly at 1000 words, three truthy metadata fields, five expected sections and 20 headers or bullets; the coverage is a fifth per section |
| PitchDeck.Assess | agent/dqda/data_collectors/pitch_deck_parser.py:397-421 | the indicators reach 1.0 exactly when their conditions hold, and the coverage is 0.0 exactly when no expected section is present |
| PitchDeck.AssessQuality | agent/dqda/data_collectors/pitch_deck_parser.py:397-421 | the same facts for the method's own metadata fields and expected sections |
| PitchDeck.CoverageOfTwo | test_dqda_collectors.py:194-202 | with problem and solution found and market size, team and financials not, as in the test, the coverage is 0.4 |
| PitchDeck.QualityScore | agent/dqda/data_collectors/pitch_deck_parser.py:344 | the mean of indicators in [0, 1] lies in [0, 1], and is 1.0 exactly when every indicator is |
| PitchDeck.RelevanceFrom | agent/dqda/data_collectors/pitch_deck_parser.py:441-445 | the score lies in [0, 1]; without mentions it is the keyword part alone; with a mention it is at least 0.12 |
| PitchDeck.DeckRelevance | agent/dqda/data_collectors/pitch_deck_parser.py:423-445 | the relevance lies in [0, 1], and an empty name gives 0.5 |
| PitchDeck.MentionRaisesRelevance | test_dqda_collectors.py:204-212 | a text that mentions the name scores strictly higher than one that does not and hits no more keywords |
| PitchDeck.EnhanceSpec | agent/dqda/data_collectors/pitch_deck_parser.py:340-346 | the metadata update sets the four analysis entries and keeps every other entry |
| PitchDeck.AnalysisMetadata | agent/dqda/data_collectors/pitch_deck_parser.py:316-354 | the section count is the number of sections, the quality score the mean of the indicators in [0, 1], the relevance in [0, 1], and every other metadata entry is kept |
| PitchDeck.ExtractFromUrl | agent/dqda/data_collectors/pitch_deck_parser.py:107-148 | a record is produced only for a URL whose download was accepted |
| PitchDeck.DeckRecordFields | agent/dqda/data_collectors/pitch_deck_parser.py:135-144 | the record carries the analysis' text, sections, indicators and metadata, and the method "pdf_extraction" |
| PitchDeck.ExtractedRecord | agent/dqda/data_collectors/pitch_deck_parser.py:119-144 | a downloaded, extracted PDF gives a record whose content is the text, whose sections are those found in it and whose indicators assess that text |
| PitchDeck.CollectRawData | agent/dqda/data_collectors/pitch_deck_parser.py:68-105 | the method, the given URLs up to the cap and then the search results up to the cap, computes `CollectRaw` |
| PitchDeck.CollectCapped | agent/dqda/data_collectors/pitch_deck_parser.py:84-105 | at most `max_results` records, and at most one for a negative cap; every record comes from one of the URLs |
| PitchDeck.NoSessionNoRecords | test_dqda_collectors.py:215-224 | without an HTTP session every download fails and nothing is collected |
| Founder.SummarizeExperience | agent/dqda/data_collectors/founder_background_collector.py:489-512 | the company list is the companies in order; the distinct count is at most the entries and at least one when there are any; the mean tenure times the entries is the total; no entries give the zero summary |
| Founder.YearsWithinTotal | agent/dqda/data_collectors/founder_background_collector.py:507-510 | with non-negative durations the technical or business years lie between 0 and the total |
| Founder.SummaryOfThree | test_dqda_collectors.py:575-588 | three positions at distinct companies, technical, business and neither, give the summed total, three companies, and the years of each kind |
| Founder.EngineerRole | test_dqda_collectors.py:578 | "Senior Software Engineer" is a technical role only |
| Founder.ManagerRole | test_dqda_collectors.py:579 | "Product Manager" is a business role only |
| Founder.CofounderRole | test_dqda_collectors.py:580 | "Co-founder" is neither |
| Founder.DegreePoints | agent/dqda/data_collectors/founder_background_collector.py:599-614 | one degree is worth between 0 and 0.7 |
| Founder.EducationQuality | agent/dqda/data_collectors/founder_background_collector.py:585-616 | the score lies in [0, 1], and no degrees score 0 |
| Founder.CalculateEducationQuality | agent/dqda/data_collectors/founder_background_collector.py:593-616 | the accumulating loop computes `EducationQuality` |
| Founder.EducationMonotone | agent/dqda/data_collectors/founder_background_collector.py:595-616 | another degree never lowers the score |
| Founder.EducationExample | test_dqda_collectors.py:590-599 | the test's PhD from Stanford and Bachelor from Harvard reach the cap of 1.0 |
| Founder.LevelOfConcat | agent/dqda/data_collectors/founder_background_collector.py:568-577 | the level names the highest degree present: the level of two degree lists together is the higher of their two levels |
| Founder.NetworkQuality | agent/dqda/data_collectors/founder_background_collector.py:683-697 | no connections score 0; the score is at most 1, and non-negative for non-negative relevances |
| Founder.NetworkExample | test_dqda_collectors.py:601-612 | the test's connections score 0.7 + 0.1 = 0.8 |
| Founder.RiskScore | agent/dqda/data_collectors/founder_background_collector.py:740-741 | the risk score lies in [0, 1], and no risk factors score 0 |
| Founder.RiskMonotone | agent/dqda/data_collectors/founder_background_collector.py:740-751 | more risk factors or fewer positive ones never lower the score or its level |
| Founder.RiskLevels | agent/dqda/data_collectors/founder_background_collector.py:745-751 | one risk factor is low risk whatever the positive factors; two without a positive factor are medium; three are high |
| Founder.AssessFrom | agent/dqda/data_collectors/founder_background_collector.py:824-864 | the overall score is the weighted sum with inverted risk; the recommendation follows the score; each strength and weakness is listed exactly when its threshold is passed |
| Founder.AssessRange | agent/dqda/data_collectors/founder_background_collector.py:836-864 | with every score in [0, 1] the overall score is in [0, 1]; "positive" exactly at or above 0.7, "caution" exactly at or below 0.4 |
| Founder.AssessScores | agent/dqda/data_collectors/founder_background_collector.py:836-864 | the method, appending strengths and weaknesses as it goes, computes `AssessFrom` |
| Founder.AssessParts | agent/dqda/data_collectors/founder_background_collector.py:846-856 | the strengths and weaknesses are appended in the source's order |
| Founder.OverallAssessment | agent/dqda/data_collectors/founder_background_collector.py:808-866 | an assessment exists exactly when the score lookups in the profile do not raise |
| Founder.CalculateOverallAssessment | agent/dqda/data_collectors/founder_background_collector.py:808-866 | the method computes `OverallAssessment` |
| Founder.EmptyProfileAssessment | agent/dqda/data_collectors/founder_background_collector.py:819-822 | an empty profile scores 0.1 x (1 - 0.5) = 0.05, with a caution and a limited presence |
| Founder.ExampleProfileAssessment | test_dqda_collectors.py:614-628 | the test's profile scores 0.745, is recommended, and lists three strengths |
| Founder.Slug | agent/dqda/data_collectors/founder_background_collector.py:379-382 | the lower-cased name with spaces replaced has no space and no upper-case letter |
| Founder.FirstOk | agent/dqda/data_collectors/founder_background_collector.py:387-401 | the address taken is the first whose HEAD request answers 200, and one is taken exactly when some address answers 200 |
| Founder.LinkedinProfile | agent/dqda/data_collectors/founder_background_collector.py:363-412 | the profile is found exactly when a session exists and some address answers 200; the completeness is then 0.8, else 0.3 with the search-based flag; the position, location, experience years and connections count are always None |
| Founder.ExperienceSection | agent/dqda/data_collectors/founder_background_collector.py:418-445 | the experience section holds the summary of the experiences |
| Founder.EducationSection | agent/dqda/data_collectors/founder_background_collector.py:514-579 | the education section holds the education score of the degrees |
| Founder.NetworkSection | agent/dqda/data_collectors/founder_background_collector.py:618-639 | the network section holds the network score of the connections |
| Founder.RiskSection | agent/dqda/data_collectors/founder_background_collector.py:699-753 | the risk section holds the risk score of the factors |
| Founder.PresenceScore | agent/dqda/data_collectors/founder_background_collector.py:779-780 | the presence is the mean of the platform scores, 0 for none, and lies in [0, 1] when they do |
| Founder.SocialSection | agent/dqda/data_collectors/founder_background_collector.py:759-782 | the social section holds the presence score |
| Founder.WithSections | agent/dqda/data_collectors/founder_background_collector.py:339-351 | the profile has the five sections under their own keys, besides its other entries |
| Founder.SectionScores | agent/dqda/data_collectors/founder_background_collector.py:819-834 | the assessment reads its five inputs from the five sections, whatever the other entries |
| Founder.WithAssessment | agent/dqda/data_collectors/founder_background_collector.py:353-357 | the profile gains the assessment, or processing fails where the assessment raises |
| Founder.ProfileAssessment | agent/dqda/data_collectors/founder_background_collector.py:289-357 | the collected profile always exists and carries the assessment computed from the scores its sections were built from |
| Founder.BaseProfileScores | agent/dqda/data_collectors/founder_background_collector.py:339-351 | the scores read back from the profile are the ones its sections were built from |
| Founder.ProfileScoreInRange | agent/dqda/data_collectors/founder_background_collector.py:808-844 | with non-negative durations and relevances and platform scores in [0, 1], the overall score is in [0, 1] |
| Founder.SocialSearchOff | agent/dqda/data_collectors/founder_background_collector.py:330-336 | with the social search both readings give the same profile; without it the code as written loses the founder and the intended reading does not |
| Founder.SearchForFounders | agent/dqda/data_collectors/founder_background_collector.py:147-189 | two placeholder names for a startup name of two or more words, none otherwise, never more than three |
| Founder.DiscoverFounders | agent/dqda/data_collectors/founder_background_collector.py:191-239 | at most three names, the first three names extracted from the first page that yields any; none when every fetch fails |
| Founder.FounderNames | agent/dqda/data_collectors/founder_background_collector.py:125-130 | the founder names are the given ones; with none given and no website, the search's |
| Founder.OneWordNoFounders | agent/dqda/data_collectors/founder_background_collector.py:177-189 | a one-word startup name with no names and no website finds nobody |
| Founder.KeepSome | agent/dqda/data_collectors/founder_background_collector.py:133-143 | the profiles kept are those of names whose collection succeeds with a non-empty profile, at most one per name; an empty profile is falsy and skipped |
| Founder.CollectRawData | agent/dqda/data_collectors/founder_background_collector.py:104-145 | the loop computes `CollectRaw` over the first `max_results` names |
| Founder.CollectCapped | agent/dqda/data_collectors/founder_background_collector.py:133-143 | at most `max_results` profiles, never more than the names, each the profile of one of them |
| Founder.AsWrittenCollectsNoFounder | agent/dqda/data_collectors/founder_background_collector.py:330-336 | without the social search, the code as written collects no founder at all |
| Founder.KeepNone | test_dqda_collectors.py:640-648 | when no name yields a profile, nothing is collected |

## Left out

- Network and file access are oracle parameters: HTTP requests and sessions, PDF text extraction, HTML parsing, RSS parsing, date parsing, the robots.txt test `_can_crawl`, `_fetch_and_parse_page`, `_download_whitepaper` and `_fetch_page_content`. The model supplies their results; it does not implement them.
- The asyncio fan-out (`gather`) and `sleep` run in sequence in the model. Sleeps become a recorded trace of delays, and concurrency and the clock are not modelled.
- Values drawn by the seeded random or salted-hash generators are parameters of the model. This covers `_generate_test_experience`, `_estimate_network_size`, `_identify_key_connections`, the risk-factor draws, `_analyze_platform_presence`, `_get_test_holder_data`, `_get_test_market_data` and the random degrees.
- The canned tables of the four simulated seed-funding sources are a parameter; the concatenation, cap and metrics over them are modelled.
- `generate_investor_report`, `fetch_funding_news` and its `_parse_date`, and the Crunchbase request construction are not modelled. They only format text, or call the network.
- Every collector's `get_search_suggestions` is not modelled, nor are the tokenomics metadata and price fetchers and `_get_data_sources`. `_collect_token_data` is an oracle.
- The crawler's `_collect_raw_data` and `_search_for_startup_urls` are not modelled; `_extract_company_info` and `_extract_names_from_content` are oracles.
- The whitepaper terminology and insight extractors are parameters. The Flesch reading-ease constants are taken as exact rationals.
- Python floats are exact reals. `round` is exact round-half-even, and `float()` on text is an oracle beyond plain decimal numerals. Tokenomics.DataQualityHighSample states the exact value 0.7 and not the test's `> 0.7`. The test's comparison is decided by float rounding.
- Case mapping, whitespace, `isupper`, `isalnum` and `\w` cover ASCII only.
- Set and dictionary iteration order is not modelled. The news company list is a set, and so is the `companies_worked_at` list.
- WebsiteCrawling.InternalLinks: returns the first ten distinct links in order of first occurrence, where the source takes ten from a set in unspecified order.
- Tokenomics.ParseHex: its contract speaks only of unprefixed hexadecimal text. The `0x`/`0X` prefix Python also accepts is modelled in its body but not stated.
- Tokenomics.CollectRawBound: states no bound for a negative `max_results`.
- DataParser.Clean: the `str()` cleaner prints text, None, booleans and whole numbers as Python does. A fractional number prints as "<float>", a list as "<list>" and a dictionary as "<dict>", and a float with a whole value such as 5.0 prints as "5". The model's numbers do not keep Python's int/float distinction, and `repr` of floats and containers is not modelled.
- DataParser.CleanStartupData: inherits that rendering for the fields it cleans with `str()`, so a `funding_amount` of 1.5 becomes "<float>" where Python gives "1.5".
- News.FieldText: the f-string rendering of an entry's title and summary uses the same rendering, so a number, list or dictionary there is not read as Python would print it.
- BaseCollector.ProcessingNotes: the "Method:" note uses the same rendering for a non-text collection method.
- BaseCollector.FromDict: a field of the wrong type, such as a numeric `startup_name` or a text `retry_count`, is an error in the model. The dataclass constructor does not check types and would accept it. The in-place update of the caller's dictionary is not modelled: the model reads the dictionary and builds a new record. The timestamp stays text, and `isIso` stands in for `datetime.fromisoformat`.
- WebsiteCrawling.WebsiteCrawler.AddBlockedPatterns: added patterns, like the defaults, are limited to three shapes: a literal text, an extension list anchored at the end, and a `?` followed later on the line by a text. A literal's characters are matched as they are, so regex metacharacters (`.`, `\d`, `|`, `*`, anchors) keep no regex meaning; `add_blocked_patterns` accepts any regular expression.
- WebsiteCrawling.WebsiteCrawler.CrawlWebsite: states that every later fetch is a link of an earlier fetched page, but not that fetch depths never decrease (the breadth-first order).
- SeedFunding.RoundOf: a record whose source site, lead investor, industry or headquarters is not text, or whose investors are text rather than a list, yields no round. The source groups on any hashable value, and `set.update` on a text adds its characters. The call sites in the source pass text values.
- Founder.ExperienceSection: like Founder.EducationSection, Founder.NetworkSection, Founder.RiskSection and Founder.SocialSection, it builds only the founder and startup names, the score the assessment reads, and (for the risk section) the factor lists and risk level. The sections' other keys (the raw experience, degree, connection and platform lists and their descriptive fields) are not modelled.
- Text repetition (`str * int`), logging, configuration loading and the command-line entry points are not modelled.

## Findings

| source | as written | input that shows it | evidently intended | confidence | as-written member | corrected member |
|---|---|---|---|---|---|---|
| agent/dqda/data_collectors/whitepaper_processor.py:496 | the analysis reads the key `clean_text`, but every extractor stores `cleaned_text` (lines 360-361, 394-395, 416-417, 453-454), so the lookup raises and every document yields nothing | any downloaded `.txt` whitepaper | read `cleaned_text` | not executed | Whitepaper.AsWrittenNeverProcesses, Whitepaper.AsWrittenCollectsNothing | Whitepaper.DocumentSucceeds, Whitepaper.ProcessUrlSucceeds |
| agent/dqda/data_collectors/website_crawler.py:535-538 | the branch that replaces an empty existing text can never run under its guard, so an empty existing scalar is never filled in | existing `{"industry": ""}` merged with `{"industry": "DeFi"}` | fill in the empty value, or drop the dead branch | not executed | WebsiteCrawling.MergeAsWrittenKeepsScalars, WebsiteCrawling.MergeEmptyExistingSample | WebsiteCrawling.MergeCompanyData, WebsiteCrawling.MergeCompanyDataInto |
| agent/dqda/dqda_agent.py:272-275 | pages count only when `crawled_pages` is a dictionary, but the crawler stores a list, so a crawled site never earns page credit | a website record whose `crawled_pages` is a list of 3 pages | count the list's length | not executed | DqdaAgent.CompetitionIgnoresPageList | DqdaAgent.ComputeCompetition |
| agent/dqda/data_collectors/whitepaper_processor.py:731-734 | the startup name is searched without lower-casing in the lower-cased text, so a capitalised name is never found | name "Acme" with text "Acme" | lower-case the name too | not executed | Whitepaper.RelevanceAsWritten, Whitepaper.CapitalisedMentionMissed | Whitepaper.Relevance |
| agent/dqda/data_collectors/founder_background_collector.py:330-336 | with the social search off, `gather` returns five results that are unpacked into six names; the unpacking raises and the founder is lost | `search_social` False | unpack the five results and leave the social section empty | not executed | Founder.SocialSearchOff, Founder.AsWrittenCollectsNoFounder | Founder.ProfileAssessment |
