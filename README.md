# Verified model of the NGO portal's decision logic

The portal helps people find non-profit organisations (NGOs) and their events in the
cities of the Rosatom network. It has a Django REST back end and several React front
ends. This project models the parts that make decisions, in Dafny, and proves what
they promise:

- **Recommendations.** The back end's rule-based recommender ranks approved NGOs and
  upcoming events for a user. It adds up points, sorts with a stable descending sort,
  cuts the list to `limit` and tops up short NGO lists (`Recommendations`). Two
  browser-side recommenders use other weights: the current front end
  (`ClientRecommendations`) and the first one (`LegacyRecommendations`). All three
  share a model of the library sort (`Ranking`).
- **Article markdown.** The line-based parser of the article pages is a
  paragraph/list buffer state machine (`Markdown`).
- **Page bar.** The page window, the shortcut and ellipsis flags, the disabled
  buttons and the "shown a - b of n" caption (`Pagination`).
- **Event calendar.** The filters, the calendar entries, the day selection, the
  filter option lists and the planned-event toggle (`Calendar`).
- **Serializers.** User registration, the event-registration guard, the rating mean
  after a review, and the per-request flags (`Serializers`).
- **API views.** The state-changing actions: NGO creation, favourites,
  unregistration, moderation and the material library (`ViewActions`). Also the
  read-only rules: city normalisation, news visibility, the recommendations dispatch
  and search (`ViewQueries`).
- **CSV import.** The command's row rules, slug de-duplication and tag handling
  (`CsvImport`).
- **Home page.** The four-column layout of the city list (`CityColumns`).

Shared helpers live in `Seqs` (Option, order-preserving filter, truncation, counting)
and `Text` (Python `strip`, JavaScript `trim`, substring tests, `split`/`join`,
decimal rendering).

Modelling choices:

- Scores are exact `real`s: they mix integers with a float rating and division.
- Database tables are sequences of rows in queryset order or maps keyed by their
  unique column. Unique-together tables are sets of pairs.
- Code that updates state step by step is modelled with methods and loop
  invariants. Each such method is proved equal to a specification function or given a
  contract stating its whole new state, and the promised properties are lemmas about
  that function or state. The objects whose fields
  change are classes: `Markdown.MarkdownParser`, `Calendar.Planner`,
  `Serializers.EventRegistrations`, `Serializers.ReviewBoard`, `ViewActions.Portal`
  and `CsvImport.Catalog`.

## Model

| member | source | states |
|---|---|---|
| Ranking.SortDesc | backend/api/recommendations.py:83 | the sorted list has the same length and the same elements (as a multiset) as the input |
| Ranking.SortIsSorted | backend/api/recommendations.py:83 | the sorted list is ordered by non-increasing score |
| Ranking.SortIsStable | backend/api/recommendations.py:83 | for every score, the elements carrying it keep their input order (stable sort) |
| Ranking.SortDistinct | backend/api/recommendations.py:83 | sorting a list without repeats yields no repeats |
| Ranking.TopIsBest | backend/api/recommendations.py:86 | an element cut off by the truncation scores no more than any element kept |
| Ranking.TopShape | backend/api/recommendations.py:83-86 | the first `k` of the sorted list come from the input, have non-increasing scores, and beat every element left out |
| Ranking.RankScored | backend/api/recommendations.py:77-86 | sorting the (candidate, score) records and keeping the candidates of the first `k` equals keeping the first `k` candidates sorted by score |
| Ranking.SortScored | backend/api/recommendations.py:83 | sorting the records by score and projecting the candidates equals sorting the candidates by score |
| Seqs.Filter | backend/api/recommendations.py:32-47 | the filtered list holds exactly the elements passing the predicate and is no longer than the input |
| Seqs.FilterIsSubsequence | frontend_new/src/pages/CalendarPage.jsx:141 | filtering keeps the input order |
| Seqs.FilterIdempotent | frontend_new/src/pages/CalendarPage.jsx:141 | filtering twice with the same predicate equals filtering once |
| Seqs.Take | backend/api/recommendations.py:86 | truncation keeps the first `min(n, len)` elements unchanged |
| Seqs.Count | frontend_new/src/utils/aiRecommendations.js:206-214 | the count is the length of the filtered list |
| Recommendations.GetRecommendations | backend/api/recommendations.py:8-24 | 'ngos' gives the NGO ranking, 'events' the event ranking, any other type the empty list |
| Recommendations.NgoCandidates | backend/api/recommendations.py:32-47 | the candidates keep the table order |
| Recommendations.NgoCandidatesIff | backend/api/recommendations.py:32-47 | an NGO is a candidate iff it is approved, in the user's city when the city is set, and neither favourited nor logged as viewed by the user |
| Recommendations.NgoScore | backend/api/recommendations.py:53-75 | the score is at least twice the rating (for non-negative counts) and at most 23 plus twice the rating |
| Recommendations.ScoreNgo | backend/api/recommendations.py:54-75 | the accumulated score equals the NGO score function |
| Recommendations.ScoreNgos | backend/api/recommendations.py:53-80 | the loop pairs each candidate with its score, in order |
| Recommendations.NgoScoreMonotone | backend/api/recommendations.py:60-67 | the score never decreases when participants, events or rating grow |
| Recommendations.NgoInterestBonus | backend/api/recommendations.py:57-58 | a category among the interests is worth exactly 10 points |
| Recommendations.TopNgosOfScored | backend/api/recommendations.py:83-86 | sorting the scored records and keeping the first `limit` NGOs gives the best `limit` candidates by score |
| Recommendations.NgoRecommendations | backend/api/recommendations.py:27-96 | the scoring loop, the sort, the cut and the backfill compute the NGO ranking |
| Recommendations.NgoRankingOrdered | backend/api/recommendations.py:83-86 | the ranked part has at most `limit` candidates, is a prefix of the stable sort by non-increasing score, and no candidate left out scores more than one kept |
| Recommendations.Backfill | backend/api/recommendations.py:89-94 | the backfill takes, in table order, the first `remaining` approved NGOs that were not already chosen, or all of them when fewer remain: exactly `min(remaining, available)` of them |
| Recommendations.RankNgosShape | backend/api/recommendations.py:86-94 | the result starts with the ranked candidates and holds exactly `min(limit, ranked + available)` NGOs, so it reaches `limit` whenever enough approved NGOs remain; it is not backfilled when there are `limit` candidates, and backfills only approved NGOs not already chosen |
| Recommendations.RankNgosUnique | backend/api/recommendations.py:86-94 | with unique ids in the NGO table, no NGO is recommended twice |
| Recommendations.TopNgosFacts | backend/api/recommendations.py:83-86 | the ranked NGOs are distinct rows of the table |
| Recommendations.RankedHeadNotExcluded | backend/api/recommendations.py:32-47 | everything before the backfill is approved, in the user's city when it is set, and neither favourited nor viewed |
| Recommendations.BackfillIgnoresExclusion | backend/api/recommendations.py:89-94 | a favourited NGO comes back through the backfill: the backfill does not re-apply the exclusion |
| Recommendations.EventCandidates | backend/api/recommendations.py:105-117 | the event candidates keep the table order |
| Recommendations.EventCandidatesIff | backend/api/recommendations.py:105-117 | an event is a candidate iff it has not begun, its NGO is in the user's city when the city is set, and the user has not registered for it |
| Recommendations.Recency | backend/api/recommendations.py:137-141 | the closeness term is 5, 3 or 0 |
| Recommendations.EventScore | backend/api/recommendations.py:124-141 | the score is at least twice the NGO rating and at most 20 more than that |
| Recommendations.ScoreEvent | backend/api/recommendations.py:124-141 | the accumulated score equals the event score function |
| Recommendations.EventRecommendations | backend/api/recommendations.py:99-154 | the scoring loop, the sort and the cut compute the event ranking |
| Recommendations.RankEventsOrdered | backend/api/recommendations.py:149-152 | at most `limit` events, all candidates not yet begun, by non-increasing score, and no candidate left out beats one kept (no backfill) |
| Recommendations.SoonerScoresNoLower | backend/api/recommendations.py:137-141 | moving an event earlier never lowers its score |
| Recommendations.EventInterestBonus | backend/api/recommendations.py:127-128 | a category among the interests is worth exactly 10 points |
| Recommendations.HuggingFaceRecommendations | backend/api/recommendations.py:157-177 | whether the key is missing, the body completes or it raises, the answer is the rule-based NGO ranking |
| ClientRecommendations.MentionPoints | frontend_new/src/utils/aiRecommendations.js:206-214 | the inner loop gives 8 points per interest that the category name or the short description mentions |
| ClientRecommendations.ScoreSimple | frontend_new/src/utils/aiRecommendations.js:187-244 | the accumulated score equals the simple score function: city, interest, activity, favourite, description and base terms |
| ClientRecommendations.SimpleRecommendations | frontend_new/src/utils/aiRecommendations.js:167-266 | the loop, the sort and the slice compute the simple ranking |
| ClientRecommendations.SimpleRankingShape | frontend_new/src/utils/aiRecommendations.js:168-257 | a missing or empty list gives nothing; otherwise exactly `min(5, n)` NGOs of the list by non-increasing score, and none left out scores more than one returned |
| ClientRecommendations.SameCityBonus | frontend_new/src/utils/aiRecommendations.js:176-196 | the user's own city (default 'Ангарск') is worth 9 more than another city and 5 more than 'Все' |
| ClientRecommendations.InterestTerms | frontend_new/src/utils/aiRecommendations.js:199-221 | an exact category match gives 15; no interests gives the flat 5; the interest term lies between 0 and max(15, 8 per interest) |
| ClientRecommendations.FoundCategory | frontend_new/src/utils/aiRecommendations.js:321-322 | an id that names no NGO of the list has the empty category |
| ClientRecommendations.ScoreRule | frontend_new/src/utils/aiRecommendations.js:308-330 | the accumulated rule score equals the rule score function |
| ClientRecommendations.RuleBasedRecommendations | frontend_new/src/utils/aiRecommendations.js:304-339 | the loop, the sort and the slice compute the rule-based ranking |
| ClientRecommendations.RuleRankingShape | frontend_new/src/utils/aiRecommendations.js:332-338 | exactly `min(5, n)` NGOs for the `n` NGOs with a positive score, each with a positive score, by non-increasing score, and none left out scores more than one returned |
| ClientRecommendations.SimilarHistoryWorthTwo | frontend_new/src/utils/aiRecommendations.js:318-326 | each history entry pointing at an NGO of the same category adds exactly 2 |
| ClientRecommendations.AiRecommendations | frontend_new/src/utils/aiRecommendations.js:38-48 | an empty, blank or shorter-than-ten key, or a failing remote path, gives exactly the simple ranking; otherwise the remote answer is returned |
| ClientRecommendations.CohereRecommendations | frontend_new/src/utils/aiRecommendations.js:272-299 | without a key, after the request and on an error, the answer is the simple ranking |
| LegacyRecommendations.SimpleScores | src/utils/aiRecommendations.js:67-85 | exactly one scored record per NGO of the user's city |
| LegacyRecommendations.SimpleRecommendations | src/utils/aiRecommendations.js:63-91 | the loop, the sort and the slice compute the simple ranking for the given random draws |
| LegacyRecommendations.ScoreThreshold | src/utils/aiRecommendations.js:74-82 | with draws in [0, 5), a score reaches 10 iff the category is among the interests |
| LegacyRecommendations.SortedScoreThreshold | src/utils/aiRecommendations.js:88 | the threshold holds at every position of the sorted list |
| LegacyRecommendations.SimpleRankingShape | src/utils/aiRecommendations.js:67-90 | exactly `min(5, n)` NGOs for the `n` NGOs of the user's city, all of that city, and every interest match is placed before every non-match |
| LegacyRecommendations.InterestMatchesCrowdOut | src/utils/aiRecommendations.js:74-90 | if an interest match of the user's city was left out, every NGO returned is an interest match |
| LegacyRecommendations.FoundCategory | src/utils/aiRecommendations.js:144 | an id that names no NGO gives a missing category |
| LegacyRecommendations.ScoreRule | src/utils/aiRecommendations.js:133-150 | the accumulated rule score equals the rule score function |
| LegacyRecommendations.RuleBasedRecommendations | src/utils/aiRecommendations.js:129-159 | the loop, the sort and the slice compute the rule-based ranking |
| LegacyRecommendations.RuleRankingShape | src/utils/aiRecommendations.js:152-158 | exactly `min(5, n)` NGOs for the `n` NGOs with a positive score, each with a positive score, by non-increasing score, and none left out scores more than one returned |
| LegacyRecommendations.UnknownIdMatchesMissingCategory | src/utils/aiRecommendations.js:142-146 | a history entry with an unknown id counts for an NGO without a category, because both categories are `undefined` |
| LegacyRecommendations.AiRecommendations | src/utils/aiRecommendations.js:8-57 | without a key, or when the remote path throws, the answer is the simple ranking; otherwise the remote answer is returned |
| LegacyRecommendations.CohereRecommendations | src/utils/aiRecommendations.js:97-124 | without a key, after the request and on an error, the answer is the simple ranking |
| Markdown.MarkdownContent | frontend/src/components/MarkdownContent.jsx:3-4 | missing or empty content renders nothing; otherwise the parsed elements |
| Markdown.ParseMarkdown | frontend/src/components/MarkdownContent.jsx:7-99 | one line step per line of the split text, then the final flushes, give the parse |
| Markdown.MarkdownParser.constructor | frontend/src/components/MarkdownContent.jsx:9-12 | the parser starts with no elements and empty buffers |
| Markdown.MarkdownParser.FlushParagraph | frontend/src/components/MarkdownContent.jsx:14-22 | the buffered paragraph, if any, is emitted and the buffer emptied |
| Markdown.MarkdownParser.FlushList | frontend/src/components/MarkdownContent.jsx:24-33 | the buffered list, if any, is emitted, the buffer emptied and `inList` cleared |
| Markdown.MarkdownParser.ProcessLine | frontend/src/components/MarkdownContent.jsx:35-93 | the buffers change as the line's kind prescribes |
| Markdown.MarkdownParser.ProcessTrimmed | frontend/src/components/MarkdownContent.jsx:39-92 | the branches on the trimmed line match its classification |
| Markdown.MarkdownParser.ProcessLines | frontend/src/components/MarkdownContent.jsx:35 | the loop over the lines applies each line's kind in order |
| Markdown.KindOf | frontend/src/components/MarkdownContent.jsx:39-92 | a line is blank iff it is empty; headings have level 1 to 3; text lines are not empty |
| Markdown.Classify | frontend/src/components/MarkdownContent.jsx:36 | a line is blank iff it trims to the empty string |
| Markdown.HeadingLineText | frontend/src/components/MarkdownContent.jsx:39-64 | '# ', '## ' or '### ' gives a heading of that level whose text is the rest of the line, not rewritten |
| Markdown.ItemLineText | frontend/src/components/MarkdownContent.jsx:68-75 | a '- ' or '* ' line is a list item: the trimmed rest with bold markup applied |
| Markdown.TextLineText | frontend/src/components/MarkdownContent.jsx:79-88 | a text line contributes itself with bold markup applied |
| Markdown.BoldWraps | frontend/src/components/MarkdownContent.jsx:73 | `**x**` becomes `<strong>x</strong>` for a non-empty x without stars or line breaks |
| Markdown.BoldWithoutMarker | frontend/src/components/MarkdownContent.jsx:79-88 | a line without `**` is left as it is |
| Markdown.BoldMatch | frontend/src/components/MarkdownContent.jsx:73 | a match of the lazy pattern has a non-empty group and closes inside the line |
| Markdown.CloseFrom | frontend/src/components/MarkdownContent.jsx:73 | the lazy group stops at the first `**` at or after the earliest end, with no line terminator before it; there is no match exactly when a line terminator precedes every later `**` |
| Markdown.BoldFromPlain | frontend/src/components/MarkdownContent.jsx:73 | text in which no `**` starts is copied unchanged |
| Markdown.BoldFromSpan | frontend/src/components/MarkdownContent.jsx:73 | a span `**x**` (x non-empty, no stars or line breaks) becomes `<strong>x</strong>` and the replacement continues after it |
| Markdown.BoldTwoSpans | frontend/src/components/MarkdownContent.jsx:73 | with the global flag, two bold spans are both replaced, left to right, and the text between them is kept |
| Markdown.HeadingClosesBlocks | frontend/src/components/MarkdownContent.jsx:39-45 | a heading first flushes the pending paragraph or list, then is emitted, leaving both buffers empty |
| Markdown.BlankLineClosesBlocks | frontend/src/components/MarkdownContent.jsx:89-92 | a blank line flushes the pending paragraph or list and emits nothing else |
| Markdown.ListLinesFormOneList | frontend/src/components/MarkdownContent.jsx:68-75 | consecutive list lines close the paragraph once and fill one list, in order |
| Markdown.TextLinesFormOneParagraph | frontend/src/components/MarkdownContent.jsx:79-88 | consecutive text lines close the list once and fill one paragraph, in order |
| Markdown.ApplyInv | frontend/src/components/MarkdownContent.jsx:35-93 | each line keeps the invariant: the paragraph and list buffers are never both non-empty, `inList` is set iff items are buffered |
| Markdown.RunInv | frontend/src/components/MarkdownContent.jsx:35-93 | the invariant holds after any number of lines |
| Markdown.ParseWellFormed | frontend/src/components/MarkdownContent.jsx:15-25 | no empty paragraph or empty list is emitted, and headings have level 1 to 3 |
| Markdown.ParseAccountsForEveryLine | frontend/src/components/MarkdownContent.jsx:35-96 | the texts of the emitted elements, in order, are the lines' contributions in input order: one text per non-blank line (a heading's text, a paragraph line or a list item), none for a blank line |
| Markdown.ClosedContents | frontend/src/components/MarkdownContent.jsx:14-33 | flushing moves the buffered texts into the elements without changing their order |
| Markdown.ApplyContents | frontend/src/components/MarkdownContent.jsx:35-93 | each line appends exactly its contribution after everything held so far |
| Markdown.RunContents | frontend/src/components/MarkdownContent.jsx:35 | after any number of lines the buffers and elements hold the contributions of those lines, in order |
| Markdown.ClosedRunContents | frontend/src/components/MarkdownContent.jsx:95-96 | after the final flushes the elements hold every contribution, in order |
| Markdown.ContributionsCount | frontend/src/components/MarkdownContent.jsx:36-92 | a non-blank line contributes one text and a blank line none |
| Pagination.Paginate | frontend_new/src/components/Pagination.jsx:3-82 | nothing is rendered iff there are at most one page; otherwise the window loop and flags give the bar |
| Pagination.Span | frontend_new/src/components/Pagination.jsx:16-18 | the loop's page list is the ascending range from start to end |
| Pagination.WindowBounds | frontend_new/src/components/Pagination.jsx:9-14 | 1 <= startPage <= endPage <= totalPages |
| Pagination.WindowSize | frontend_new/src/components/Pagination.jsx:7-18 | the window holds `min(5, totalPages)` pages |
| Pagination.CurrentPageShown | frontend_new/src/components/Pagination.jsx:9-18 | an existing current page is in the window |
| Pagination.ButtonsIncreasing | frontend_new/src/components/Pagination.jsx:34-70 | the page buttons, shortcuts included, are strictly increasing: no page gets two buttons |
| Pagination.EveryPageReachable | frontend_new/src/components/Pagination.jsx:34-70 | every page has a button or lies in a gap an ellipsis stands for |
| Pagination.EllipsisMarksGap | frontend_new/src/components/Pagination.jsx:34-70 | an ellipsis is shown iff its gap holds a page without a button |
| Pagination.PrevNextDisabled | frontend_new/src/components/Pagination.jsx:26-76 | "Назад" is disabled iff on page 1, "Вперёд" iff on the last page |
| Pagination.ShownRange | frontend_new/src/components/Pagination.jsx:23 | the caption counts `min(itemsPerPage, remaining items)` items |
| Calendar.Visible | frontend_new/src/pages/CalendarPage.jsx:140-146 | the shown events are exactly the loaded events passing the city, format and category filters |
| Calendar.VisibleInOrder | frontend_new/src/pages/CalendarPage.jsx:141 | the filter keeps the loaded order |
| Calendar.AllFiltersShowEverything | frontend_new/src/pages/CalendarPage.jsx:143-145 | with every filter on 'Все' all events are shown |
| Calendar.CitylessEventsAlwaysPass | frontend_new/src/pages/CalendarPage.jsx:142-143 | an event without a city passes every city filter |
| Calendar.EventsForCity | frontend_new/src/pages/CalendarPage.jsx:140-179 | one calendar entry per shown event, same ids, same order |
| Calendar.PlannedHighlight | frontend_new/src/pages/CalendarPage.jsx:148-172 | the star, the gold border and border width 3 appear exactly for planned events |
| Calendar.CategoryFallback | frontend_new/src/pages/CalendarPage.jsx:149-154 | an event without a category gets the 'Другое' colours; an unknown category the default colours |
| Calendar.DateClickSelectsVisibleDay | frontend_new/src/pages/CalendarPage.jsx:182-197 | a click selects exactly the shown events of that day, in order, and clears the selection when there are none |
| Calendar.Present | frontend_new/src/pages/CalendarPage.jsx:126-127 | `filter(Boolean)` keeps exactly the non-empty values present |
| Calendar.FirstOccurrences | frontend_new/src/pages/CalendarPage.jsx:126-127 | `Array.from(new Set(..))` holds each value once |
| Calendar.FirstOccurrencesOrdered | frontend_new/src/pages/CalendarPage.jsx:126-127 | the values come in the order of their first occurrence |
| Calendar.CityOptionsFacts | frontend_new/src/pages/CalendarPage.jsx:126 | 'Все' followed by each city of some event, once each |
| Calendar.CategoryOptionsFacts | frontend_new/src/pages/CalendarPage.jsx:127 | 'Все' followed by each category of some event, once each |
| Calendar.ToggleFlipsOnlyTheEvent | frontend_new/src/pages/CalendarPage.jsx:97-105 | the toggle flips the membership of the event and of nothing else |
| Calendar.ToggleTwice | frontend_new/src/pages/CalendarPage.jsx:97-105 | toggling twice restores the set |
| Calendar.Planner.AddToPlans | frontend_new/src/pages/CalendarPage.jsx:92-106 | without a user only a warning toast; with one the set is toggled and the matching toast shown |
| Serializers.ValidateUser | backend/api/serializers.py:39-43 | valid iff the passwords agree, and then the attributes are unchanged; otherwise the password error |
| Serializers.CreateUser | backend/api/serializers.py:45-48 | the user is created from every validated field except `password_confirm` |
| Serializers.RegisterUser | backend/api/serializers.py:39-48 | registration succeeds iff the passwords agree, with every field but the confirmation |
| Serializers.ValidateRegistration | backend/api/serializers.py:147-159 | valid iff the event exists, the user is not registered yet, and a truthy limit is not reached |
| Serializers.RegistrationKeepsLimits | backend/api/serializers.py:147-163 | sequential validate-then-create never repeats a pair and never exceeds a non-zero limit |
| Serializers.EventRegistrations.Register | backend/api/serializers.py:147-163 | a request stores the registration exactly when validation accepts it, keeping the table invariant |
| Serializers.MeanRating | backend/api/serializers.py:189 | the rating is the arithmetic mean of the reviews |
| Serializers.MeanInRange | backend/api/serializers.py:189 | ratings of 1 to 5 stars have a mean in [1, 5] |
| Serializers.ReviewBoard.CreateReview | backend/api/serializers.py:181-192 | a repeated (NGO, user) review changes nothing; otherwise it is stored and the NGO's rating becomes the mean of its reviews |
| Serializers.StoredRatingInRange | backend/api/serializers.py:185-190 | the stored rating stays within 1 to 5 |
| Serializers.IsLinked | backend/api/serializers.py:83-87 | the flag is true iff the request is authenticated and the row exists |
| Serializers.AnonymousFlagsFalse | backend/api/serializers.py:123-130 | without a request, or for an anonymous one, `is_favorite`, `is_registered` and `is_saved` are false |
| Serializers.AuthorName | backend/api/serializers.py:299-300 | the author's username, or 'Неизвестно' without an author |
| ViewActions.Portal.CreateNgo | front4/backend/api/views.py:76-92 | the new NGO is pending, with exactly one moderation request and one 'view' activity |
| ViewActions.Portal.Favorite | front4/backend/api/views.py:94-115 | POST adds the pair and one activity if absent (201), else changes nothing (200); DELETE removes it (200) |
| ViewActions.FavoriteTwice | front4/backend/api/views.py:99-111 | favouriting twice stores the pair once; the first request answers 201 iff the pair was absent and the second answers 200; exactly one activity is logged over both calls when the pair was absent, none otherwise |
| ViewActions.Portal.Unregister | front4/backend/api/views.py:195-200 | the user's registration for an existing event is removed, present or not |
| ViewActions.PendingRequests | front4/backend/api/views.py:376 | exactly the pending requests |
| ViewActions.Portal.Queue | front4/backend/api/views.py:380-384 | staff and superusers see the pending requests, everybody else none |
| ViewActions.Portal.Decide | front4/backend/api/views.py:386-418 | a request outside the queue is not found; otherwise the request and its NGO take the decision, with moderator, time and comment or reason |
| ViewActions.Portal.SaveMaterial | front4/backend/api/views.py:450-467 | a new pair is stored with its notes (201); an existing one keeps its notes unless notes are given (200) |
| ViewActions.SaveTwice | front4/backend/api/views.py:454-467 | after two saves the pair is in the library and the second request answers 200; the first answers 201 iff the pair was absent; the stored notes are the given ones, else the existing ones, else empty |
| ViewActions.Portal.UnsaveMaterial | front4/backend/api/views.py:469-474 | the pair is removed, present or not |
| ViewActions.Portal.ViewMaterial | front4/backend/api/views.py:476-482 | the view count grows by exactly one and nothing else changes |
| ViewQueries.NormalizeCityFacts | front4/backend/api/views.py:57 | the normalised city has no comma and no surrounding whitespace, and normalising twice changes nothing |
| ViewQueries.NormalizeCityKeepsPlainCity | front4/backend/api/views.py:271 | a plain city is its own normal form |
| ViewQueries.NewsFeed | front4/backend/api/views.py:509-530 | the feed is exactly the readable items in the city, in order |
| ViewQueries.NewsVisibility | front4/backend/api/views.py:511-519 | anonymous: published only; non-staff: published or their own; staff with no city: everything |
| ViewQueries.GlobalNewsInEveryCity | front4/backend/api/views.py:522-528 | items without a city pass every city filter |
| ViewQueries.RecommendationsDispatch | front4/backend/api/views.py:245-262 | the type defaults to 'ngos'; 'ngos' and 'events' are served, anything else is 'Invalid type' |
| ViewQueries.RecommendationsStatus | front4/backend/api/views.py:262 | the status is 400 iff the type was invalid |
| ViewQueries.Search | front4/backend/api/views.py:267-300 | an empty query finds nothing; otherwise the lists for the requested types, with the city normalised |
| ViewQueries.NgoResults | front4/backend/api/views.py:278-288 | present iff the type is 'all' or 'ngos': the first `min(10, matches)` approved NGOs of the city matching the query, in table order |
| ViewQueries.EventResults | front4/backend/api/views.py:290-298 | present iff the type is 'all' or 'events': the first `min(10, matches)` upcoming events of the city matching the query, in table order |
| ViewQueries.SearchFindsEarlyMatches | front4/backend/api/views.py:283-287 | a matching NGO is among the ten results whenever fewer than ten matching rows come before it |
| CsvImport.ClassifyRow | front4/backend/api/management/commands/load_csv_data.py:57-80 | blank iff every cell is blank; too short iff fewer than 3 cells; loaded iff name and category are present |
| CsvImport.EveryRowAccounted | front4/backend/api/management/commands/load_csv_data.py:53-80 | every row is blank, skipped or loaded, exactly one of them |
| CsvImport.SlugBase | front4/backend/api/management/commands/load_csv_data.py:90-93 | "name city" with a city, the name alone without |
| CsvImport.UniqueSlug | front4/backend/api/management/commands/load_csv_data.py:98-102 | the slug is free: the original if free, else `original-k` for the smallest free k >= 1 |
| CsvImport.NewNgo | front4/backend/api/management/commands/load_csv_data.py:105-116 | approved; city 'Не указан' when empty; a 300-character prefix as short description or 'НКО: name'; '-' as website becomes '' |
| CsvImport.Catalog.AddNgo | front4/backend/api/management/commands/load_csv_data.py:83-116 | the category is found or created and the NGO created under a free slug |
| CsvImport.Catalog.LoadNgoRow | front4/backend/api/management/commands/load_csv_data.py:53-120 | a loaded row adds exactly the NGO built from it, under a slug not used before, and gets or creates its category by slug; other rows change nothing |
| CsvImport.Catalog.LoadNgos | front4/backend/api/management/commands/load_csv_data.py:39-125 | `count` is the number of loaded rows and `skipped` the number of skipped rows; existing NGOs are kept, one NGO is added per count, and the new NGOs are exactly those built from the loaded rows; the category table is the row-by-row get-or-create by slug |
| CsvImport.NgosFromRowsStep | front4/backend/api/management/commands/load_csv_data.py:105-120 | an NGO created under a fresh slug adds the row's NGO to the new NGOs, and a row that creates none leaves them as they were |
| CsvImport.CategoriesAfterKeys | front4/backend/api/management/commands/load_csv_data.py:82-87 | the categories gained are exactly the slugs of the loaded rows' categories |
| CsvImport.CategoriesAfterKeeps | front4/backend/api/management/commands/load_csv_data.py:84-87 | a category that exists keeps its name |
| CsvImport.CategoriesAfterNamed | front4/backend/api/management/commands/load_csv_data.py:84-87 | a new category is named after the first loaded row whose category has its slug |
| CsvImport.ClassifyMaterial | front4/backend/api/management/commands/load_csv_data.py:141-151 | usable iff at least 5 cells with a title and a url |
| CsvImport.TagNames | front4/backend/api/management/commands/load_csv_data.py:166 | tag names are not empty |
| CsvImport.NonBlankStrippedMembers | front4/backend/api/management/commands/load_csv_data.py:166 | the tags are exactly the non-blank stripped pieces |
| CsvImport.TagNamesStripped | front4/backend/api/management/commands/load_csv_data.py:166 | every tag name is stripped and not blank |
| CsvImport.EmptyTagsNone | front4/backend/api/management/commands/load_csv_data.py:165 | an empty tag column gives no tags |
| CsvImport.TagSlugs | front4/backend/api/management/commands/load_csv_data.py:168 | the slugs of exactly the given names |
| CsvImport.GetOrCreateTagsKeys | front4/backend/api/management/commands/load_csv_data.py:167-172 | the tag table gains exactly the slugs of the names |
| CsvImport.GetOrCreateTagsKeeps | front4/backend/api/management/commands/load_csv_data.py:169-172 | existing tags keep their names |
| CsvImport.GetOrCreateTagsNamed | front4/backend/api/management/commands/load_csv_data.py:169-172 | a created tag is named after a name with its slug |
| CsvImport.Catalog.AttachTags | front4/backend/api/management/commands/load_csv_data.py:167-173 | every tag is got or created by slug and linked to the material |
| CsvImport.Catalog.LoadMaterialRow | front4/backend/api/management/commands/load_csv_data.py:141-175 | a usable row with a new url creates the material and attaches its tags; otherwise nothing changes |
| CsvImport.Catalog.LoadMaterials | front4/backend/api/management/commands/load_csv_data.py:128-177 | the material, tag and link tables are the row-by-row folds; the stored urls are the old ones plus every usable row's url; `count` is the number of distinct usable urls not stored before; known materials, links and tags are kept |
| CsvImport.Catalog.LoadMaterialRows | front4/backend/api/management/commands/load_csv_data.py:134-175 | the loop applies every classified row in order |
| CsvImport.Catalog.LoadMaterialStep | front4/backend/api/management/commands/load_csv_data.py:141-175 | one row moves each table one step along its fold; `created` says whether the row stored a material |
| CsvImport.StoredAfterKeys | front4/backend/api/management/commands/load_csv_data.py:154-161 | the stored urls are the old ones plus the url of every usable row |
| CsvImport.StoredAfterKeeps | front4/backend/api/management/commands/load_csv_data.py:154-161 | an existing material is not overwritten |
| CsvImport.CreatedMaterialsSize | front4/backend/api/management/commands/load_csv_data.py:163-175 | each created material adds one entry to the table |
| CsvImport.CreatedMaterialsCount | front4/backend/api/management/commands/load_csv_data.py:154-175 | the count is the number of distinct usable urls not stored before, so a url repeated in the file is counted once |
| CsvImport.TagsAfterKeeps | front4/backend/api/management/commands/load_csv_data.py:167-172 | existing tags keep their names |
| CsvImport.LinksAfterNew | front4/backend/api/management/commands/load_csv_data.py:163-173 | existing links are kept, and every new link belongs to a usable row whose material was not stored before |
| CityColumns.PerColumn | frontend_old/src/pages/HomePage.jsx:13 | `Math.ceil(n / 4)`: the least k with 4k >= n |
| CityColumns.Slice | frontend_old/src/pages/HomePage.jsx:16 | `slice` within bounds is the subrange; no longer than its range |
| CityColumns.Columns | frontend_old/src/pages/HomePage.jsx:13-17 | four columns of at most `ceil(n/4)` cities that give back the list when read in order |
| CityColumns.ColumnSizes | frontend_old/src/pages/HomePage.jsx:16 | each column holds at most `ceil(n/4)` cities, column i starts at city `i * ceil(n/4)`, a column inside the list is full |
| CityColumns.ColumnsCover | frontend_old/src/pages/HomePage.jsx:14-17 | the columns read in order give back the whole list |
| Text.TrimFacts | front4/backend/api/management/commands/load_csv_data.py:66-70 | the stripped string has no surrounding whitespace and is a part of the input |
| Text.TrimEmptyIff | front4/backend/api/management/commands/load_csv_data.py:57 | stripping gives the empty string iff every character is whitespace |
| Text.TrimIdempotent | front4/backend/api/views.py:57 | stripping twice equals stripping once |
| Text.JoinSplit | frontend/src/components/MarkdownContent.jsx:8 | joining the pieces of a split with the separator gives the input back |
| Text.BeforeFacts | frontend_new/src/pages/CalendarPage.jsx:185 | `split(c)[0]` is a prefix without `c`, the whole string when `c` is absent |
| Text.NatToStringInjective | front4/backend/api/management/commands/load_csv_data.py:101 | different counters render as different strings |
| Text.DigitsValueOfNat | front4/backend/api/management/commands/load_csv_data.py:101 | the decimal rendering reads back as the number |

## Left out

- Serializers.RegistrationKeepsLimits, ViewActions.Portal.ViewMaterial: requests are modelled one at a time, each applied atomically. The source counts registrations in validation (backend/api/serializers.py:155) and creates the registration afterwards, and reads `views_count`, adds one and saves it (front4/backend/api/views.py:480-481). Under concurrent requests the registration limit can therefore be exceeded and view counts can be lost; these races are not captured.
- Network calls are not modelled: `fetch`, the Hugging Face and Cohere requests, the JSON they return, cosine similarity over float embeddings, the 503 sleep-and-retry and the CORS message check. The answer of the remote path is a parameter (`remote`), and a failure is `None`.
- Console and `print` logging, toasts' timers, the `_usedAI` marker and all JSX rendering are not modelled.
- `String.prototype.toLowerCase`, Django's `slugify` and the database's case folding for `icontains` are parameters (`lower`, `slugify`, `fold`). Dafny has no Unicode case mapping.
- Python's `str.isspace` and JavaScript's whitespace set are given by code point. String lengths count code points, not UTF-16 units: `short_description.length > 50` differs only for text outside the Basic Multilingual Plane.
- The clock (`timezone.now()`) and the database's new row ids are parameters. Event dates are a day number and a second within the day.
- Scores are exact reals, not IEEE floats. Rounding of `participants_count / 10` and of the mean rating is not modelled.
- Request parsing, serializer field validation, permission classes other than the moderation queue, response bodies and DRF pagination are not modelled.
- `NGOViewSet.get_queryset`'s `city__icontains` and category filters and the whole of `map_ngos` (bounds parsing, `statistics`) are not modelled; only the city normalisation they share is.
- Reading the CSV files, the file-existence checks and `transaction.atomic` are not modelled. Rows arrive already split into cells.
- The planned-event persistence in `localStorage` and its cross-tab sync are not modelled.
- Recommendations.RankNgos: the backfill re-applies neither the city filter nor the favourite/viewed exclusion (shown by `BackfillIgnoresExclusion`). Only the ranked head is proved free of excluded NGOs.
- Calendar.CityOptionsFacts: an event whose city is literally 'Все' makes 'Все' appear twice in the list. Distinctness is proved for the values after the leading 'Все' only.
- Calendar.DateClick: an event with neither `event_date` nor `date` makes the source's `.split` throw. The model returns `Throws`, and `DateClickSelectsVisibleDay` assumes every event is dated.
- Pagination.Paginate: non-integer or `NaN` page numbers are not modelled. Pages and counts are integers.
- LegacyRecommendations.SimpleRecommendations: the two `Math.random() * 5` terms per NGO are inputs (`draws`). The ordering lemmas assume they lie in [0, 5).
