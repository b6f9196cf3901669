/** The read-only parts of the API views (front4/backend/api/views.py): the
    normalisation of the `city` query parameter, the news visibility rules,
    the dispatch of the recommendations endpoint and the universal search.
    Database filtering is modelled as filtering sequences of rows; Django's
    case-insensitive `icontains` is a containment test after applying the
    database's character folding `fold`, which is a parameter. */
module ViewQueries {
  import opened Seqs
  import opened Text

  // ---------------------------------------------------- city parameter

  /** `city.strip().split(",")[0].strip()`. */
  function NormalizeCity(city: string): string {
    Strip(Before(Strip(city), ','))
  }

  /** Stripping keeps only characters of the input. */
  lemma StripKeepsOut(s: string, c: char)
    requires c !in s
    ensures c !in Strip(s)
  {
    TrimFacts(s, PySpace);
  }

  /** The normalised city has no comma and no surrounding whitespace, and
      normalising it again changes nothing. */
  lemma NormalizeCityFacts(city: string)
    ensures ',' !in NormalizeCity(city)
    ensures IsTrimmed(NormalizeCity(city), PySpace)
    ensures NormalizeCity(NormalizeCity(city)) == NormalizeCity(city)
  {
    var b := Before(Strip(city), ',');
    BeforeFacts(Strip(city), ',');
    StripKeepsOut(b, ',');
    var r := NormalizeCity(city);
    TrimFacts(b, PySpace);
    TrimOfTrimmed(r, PySpace);
    BeforeFacts(r, ',');
    assert Before(Strip(r), ',') == r;
  }

  /** A city without a comma and without surrounding whitespace is its own
      normal form. */
  lemma NormalizeCityKeepsPlainCity(city: string)
    requires ',' !in city && IsTrimmed(city, PySpace)
    ensures NormalizeCity(city) == city
  {
    TrimOfTrimmed(city, PySpace);
    BeforeFacts(city, ',');
  }

  // -------------------------------------------------------------- news

  /** Who asks: an anonymous visitor or a signed-in user. */
  datatype Viewer = Anonymous | Member(id: int, staff: bool)

  /** A `News` row; `author` and `city` may be null. */
  datatype NewsItem = NewsItem(id: int, status: string, author: Option<int>, city: Option<string>)

  /** The status and authorship rule of `NewsViewSet.get_queryset`. */
  predicate Readable(v: Viewer, n: NewsItem) {
    match v
    case Anonymous => n.status == "published"
    case Member(id, staff) => staff || n.status == "published" || n.author == Some(id)
  }

  /** The city rule: with a non-blank parameter, the item's city equals the
      stripped parameter or is blank or null. */
  predicate InCity(cityParam: Option<string>, n: NewsItem) {
    cityParam.None? || Strip(cityParam.value) == ""
    || n.city == Some(Strip(cityParam.value)) || n.city == Some("") || n.city.None?
  }

  function NewsFilterFn(v: Viewer, cityParam: Option<string>): NewsItem -> bool {
    (n: NewsItem) => Readable(v, n) && InCity(cityParam, n)
  }

  /** `NewsViewSet.get_queryset`. */
  function NewsFeed(items: seq<NewsItem>, v: Viewer, cityParam: Option<string>): (r: seq<NewsItem>)
    ensures forall n :: n in r <==> n in items && Readable(v, n) && InCity(cityParam, n)
    ensures IsSubsequence(r, items)
  {
    FilterIsSubsequence(items, NewsFilterFn(v, cityParam));
    Filter(items, NewsFilterFn(v, cityParam))
  }

  /** Anonymous visitors see published news only; signed-in users who are
      not staff see published news and their own; staff see everything,
      in order, when no city is asked for. */
  lemma NewsVisibility(items: seq<NewsItem>, v: Viewer, cityParam: Option<string>)
    ensures v.Anonymous? ==> forall n :: n in NewsFeed(items, v, cityParam) ==> n.status == "published"
    ensures v.Member? && !v.staff ==>
      forall n :: n in NewsFeed(items, v, cityParam) ==> n.status == "published" || n.author == Some(v.id)
    ensures v.Member? && v.staff && cityParam.None? ==> NewsFeed(items, v, cityParam) == items
  {
    if v.Member? && v.staff && cityParam.None? {
      FilterAll(items, NewsFilterFn(v, cityParam));
    }
  }

  /** Items without a city are never removed by the city filter. */
  lemma GlobalNewsInEveryCity(n: NewsItem, cityParam: Option<string>)
    requires n.city.None? || n.city == Some("")
    ensures InCity(cityParam, n)
  {
  }

  // --------------------------------------------------- recommendations

  datatype RecommendationsReply = Recommend(kind: string) | BadRequest(error: string)

  /** The dispatch of the `recommendations` endpoint on its `type`
      parameter, which defaults to 'ngos'. */
  function RecommendationsDispatch(typeParam: Option<string>): (r: RecommendationsReply)
    ensures typeParam.None? ==> r == Recommend("ngos")
    ensures r.Recommend? <==> typeParam.None? || typeParam.value in {"ngos", "events"}
    ensures r.Recommend? && typeParam.Some? ==> r.kind == typeParam.value
    ensures r.BadRequest? ==> r.error == "Invalid type"
  {
    var t := if typeParam.Some? then typeParam.value else "ngos";
    if t == "ngos" then Recommend("ngos")
    else if t == "events" then Recommend("events")
    else BadRequest("Invalid type")
  }

  /** The HTTP status of the reply. */
  function RecommendationsStatus(r: RecommendationsReply): (code: int)
    ensures code == 400 <==> r.BadRequest?
  {
    if r.BadRequest? then 400 else 200
  }

  // ------------------------------------------------------------ search

  /** `s` with every character folded. */
  function Fold(s: string, fold: char -> char): (r: string)
    ensures |r| == |s|
    ensures forall i :: 0 <= i < |s| ==> r[i] == fold(s[i])
  {
    seq(|s|, i requires 0 <= i < |s| => fold(s[i]))
  }

  /** Django's `__icontains`. */
  predicate IContains(hay: string, needle: string, fold: char -> char) {
    Contains(Fold(hay, fold), Fold(needle, fold))
  }

  datatype SearchNgo = SearchNgo(name: string, description: string, shortDescription: string,
                                 city: string, approved: bool)

  datatype SearchEvent = SearchEvent(title: string, description: string, eventDate: int, ngoCity: string)

  /** The `results` object: a list is present exactly when its type was
      searched. */
  datatype SearchResults = SearchResults(ngos: Option<seq<SearchNgo>>, events: Option<seq<SearchEvent>>)

  /** The most results of each type. */
  const SearchLimit: nat := 10

  predicate NgoHit(n: SearchNgo, city: string, query: string, fold: char -> char) {
    n.approved
    && (city == "" || IContains(n.city, city, fold))
    && (IContains(n.name, query, fold) || IContains(n.description, query, fold)
        || IContains(n.shortDescription, query, fold))
  }

  predicate EventHit(e: SearchEvent, city: string, query: string, now: int, fold: char -> char) {
    e.eventDate >= now
    && (city == "" || e.ngoCity == city)
    && (IContains(e.title, query, fold) || IContains(e.description, query, fold))
  }

  function NgoHitFn(city: string, query: string, fold: char -> char): SearchNgo -> bool {
    (n: SearchNgo) => NgoHit(n, city, query, fold)
  }

  function EventHitFn(city: string, query: string, now: int, fold: char -> char): SearchEvent -> bool {
    (e: SearchEvent) => EventHit(e, city, query, now, fold)
  }

  function OrDefault(p: Option<string>, d: string): string {
    if p.Some? then p.value else d
  }

  /** The NGO list of `search`: present when `type` is 'all' or 'ngos',
      holding the first ten approved NGOs in the city that match the query. */
  function NgoResults(t: string, city: string, query: string, ngos: seq<SearchNgo>,
                      fold: char -> char): (r: Option<seq<SearchNgo>>)
    ensures r.Some? <==> t in {"all", "ngos"}
    ensures r.Some? ==>
      |r.value| <= SearchLimit
      && (forall n :: n in r.value ==> n in ngos && NgoHit(n, city, query, fold))
      && |r.value| == (if |Filter(ngos, NgoHitFn(city, query, fold))| < SearchLimit then |Filter(ngos, NgoHitFn(city, query, fold))| else SearchLimit)
      && r.value == Filter(ngos, NgoHitFn(city, query, fold))[..|r.value|]
  {
    if t in {"all", "ngos"} then Some(Take(Filter(ngos, NgoHitFn(city, query, fold)), SearchLimit)) else None
  }

  /** The event list of `search`: present when `type` is 'all' or
      'events', holding the first ten upcoming events of NGOs in the city
      that match the query. */
  function EventResults(t: string, city: string, query: string, events: seq<SearchEvent>, now: int,
                        fold: char -> char): (r: Option<seq<SearchEvent>>)
    ensures r.Some? <==> t in {"all", "events"}
    ensures r.Some? ==>
      |r.value| <= SearchLimit
      && (forall e :: e in r.value ==> e in events && EventHit(e, city, query, now, fold))
      && |r.value| == (if |Filter(events, EventHitFn(city, query, now, fold))| < SearchLimit then |Filter(events, EventHitFn(city, query, now, fold))| else SearchLimit)
      && r.value == Filter(events, EventHitFn(city, query, now, fold))[..|r.value|]
  {
    if t in {"all", "events"} then Some(Take(Filter(events, EventHitFn(city, query, now, fold)), SearchLimit)) else None
  }

  /** The `search` view: query `q` (default ''), `type` (default 'all'),
      normalised `city` (default ''), the clock reading `now`. An empty
      query finds nothing. */
  function Search(q: Option<string>, searchType: Option<string>, cityParam: Option<string>,
                  ngos: seq<SearchNgo>, events: seq<SearchEvent>, now: int, fold: char -> char): (r: SearchResults)
    ensures OrDefault(q, "") == "" ==> r == SearchResults(None, None)
    ensures OrDefault(q, "") != "" ==>
      r == SearchResults(
        NgoResults(OrDefault(searchType, "all"), NormalizeCity(OrDefault(cityParam, "")), OrDefault(q, ""), ngos, fold),
        EventResults(OrDefault(searchType, "all"), NormalizeCity(OrDefault(cityParam, "")), OrDefault(q, ""), events, now, fold))
  {
    var query := OrDefault(q, "");
    var t := OrDefault(searchType, "all");
    var city := NormalizeCity(OrDefault(cityParam, ""));
    if query == "" then SearchResults(None, None)
    else SearchResults(NgoResults(t, city, query, ngos, fold), EventResults(t, city, query, events, now, fold))
  }

  /** A searched NGO that is approved, in the city and matching the query
      appears when fewer than ten rows before it match. */
  lemma SearchFindsEarlyMatches(ngos: seq<SearchNgo>, city: string, query: string, fold: char -> char, i: int)
    requires 0 <= i < |ngos| && NgoHit(ngos[i], city, query, fold)
    requires |Filter(ngos[..i], NgoHitFn(city, query, fold))| < SearchLimit
    ensures ngos[i] in Take(Filter(ngos, NgoHitFn(city, query, fold)), SearchLimit)
  {
    var hit := NgoHitFn(city, query, fold);
    assert ngos == ngos[..i] + ngos[i..];
    FilterConcat(ngos[..i], ngos[i..], hit);
    assert ngos[i..][0] == ngos[i] && hit(ngos[i]);
    var before := Filter(ngos[..i], hit);
    assert Filter(ngos, hit)[|before|] == ngos[i];
    assert Take(Filter(ngos, hit), SearchLimit)[|before|] == ngos[i];
  }
}
