/** The rule-based recommender of the backend (backend/api/recommendations.py):
    approved NGOs and upcoming events are scored with an additive point
    scheme, ranked by a stable descending sort and cut to `limit`; NGO
    recommendations are topped up from the approved NGOs when too few
    candidates remain. The database is a value: tables are sequences in
    queryset order and unique-together tables are sets of pairs. */
module Recommendations {
  import opened Seqs
  import opened Ranking

  datatype Status = Pending | Approved | Rejected

  datatype Category = Category(id: int, name: string)

  datatype Ngo = Ngo(id: int, category: Category, city: string, status: Status,
                     participantsCount: int, eventsCount: int, rating: real)

  /** `ActivityHistory.activity_type`. */
  datatype ActivityKind = View | FavoriteAdded | EventRegistered | Reviewed

  datatype Activity = Activity(userId: int, kind: ActivityKind, ngoId: Option<int>)

  datatype Review = Review(userId: int, ngoId: int)

  /** A moment: the calendar day (days since some fixed origin) and the
      second within that day. */
  datatype Instant = Instant(day: int, second: int)

  datatype Event = Event(id: int, ngo: Ngo, date: Instant)

  datatype Registration = Registration(eventId: int, userId: int)

  /** An empty `city` is the unset (falsy) city. */
  datatype User = User(id: int, city: string, interests: seq<string>)

  /** `ngos` holds every NGO whatever its status; `favorites` holds the
      (user id, NGO id) pairs of the Favorite table. */
  datatype Db = Db(ngos: seq<Ngo>, favorites: set<(int, int)>, activities: seq<Activity>,
                   reviews: seq<Review>, events: seq<Event>, registrations: seq<Registration>)

  /** The result of `get_recommendations`: a list of NGOs or of events. */
  datatype Recommended = NgoList(ngos: seq<Ngo>) | EventList(events: seq<Event>)

  function Ids(s: seq<Ngo>): (r: seq<int>)
    ensures |r| == |s| && forall i :: 0 <= i < |s| ==> r[i] == s[i].id
  {
    seq(|s|, i requires 0 <= i < |s| => s[i].id)
  }

  predicate UniqueIds(s: seq<Ngo>) {
    forall i, j :: 0 <= i < j < |s| ==> s[i].id != s[j].id
  }

  // ---------------------------------------------------------------- NGOs

  /** The NGO is a favorite of the user or was logged as viewed by them. */
  predicate Excluded(db: Db, user: User, ngoId: int) {
    (user.id, ngoId) in db.favorites || Activity(user.id, View, Some(ngoId)) in db.activities
  }

  predicate IsNgoCandidate(db: Db, user: User, n: Ngo) {
    n.status == Approved && (user.city == "" || n.city == user.city) && !Excluded(db, user, n.id)
  }

  /** The queryset the NGO scorer iterates over, in table order. */
  function NgoCandidates(db: Db, user: User): (r: seq<Ngo>)
    ensures IsSubsequence(r, db.ngos)
  {
    FilterIsSubsequence(db.ngos, n => IsNgoCandidate(db, user, n));
    Filter(db.ngos, n => IsNgoCandidate(db, user, n))
  }

  /** The user has reviewed some NGO of category `c`. */
  predicate ReviewedCategory(db: Db, user: User, c: Category) {
    exists i, j :: 0 <= i < |db.reviews| && 0 <= j < |db.ngos| &&
      db.reviews[i].userId == user.id && db.reviews[i].ngoId == db.ngos[j].id &&
      db.ngos[j].category.id == c.id
  }

  function Min(a: real, b: real): real { if a <= b then a else b }

  /** The points an NGO earns: interest match, popularity, activity, rating
      and reviews of the same category. */
  function NgoScore(db: Db, user: User, n: Ngo): (r: real)
    ensures r <= 23.0 + 2.0 * n.rating
    ensures n.participantsCount >= 0 && n.eventsCount >= 0 ==> r >= 2.0 * n.rating
  {
    (if user.interests != [] && n.category.name in user.interests then 10.0 else 0.0)
    + Min(n.participantsCount as real / 10.0, 5.0)
    + Min(n.eventsCount as real, 5.0)
    + n.rating * 2.0
    + (if ReviewedCategory(db, user, n.category) then 3.0 else 0.0)
  }

  function NgoScoreFn(db: Db, user: User): Ngo -> real {
    n => NgoScore(db, user, n)
  }

  predicate FillsGap(chosen: seq<Ngo>, n: Ngo) {
    n.status == Approved && n.id !in Ids(chosen)
  }

  /** The approved NGOs not among `chosen`, the first `remaining` of them. */
  function Backfill(db: Db, chosen: seq<Ngo>, remaining: nat): (r: seq<Ngo>)
    ensures |r| <= remaining
    ensures var avail := Filter(db.ngos, n => FillsGap(chosen, n));
      |r| == (if remaining < |avail| then remaining else |avail|) && r == avail[..|r|]
    ensures forall i :: 0 <= i < |r| ==> r[i] in db.ngos && r[i].status == Approved && r[i].id !in Ids(chosen)
  {
    Take(Filter(db.ngos, n => FillsGap(chosen, n)), remaining)
  }

  /** The best `limit` candidates by score. */
  function TopNgos(db: Db, user: User, limit: nat): seq<Ngo> {
    Take(SortDesc(NgoCandidates(db, user), NgoScoreFn(db, user)), limit)
  }

  /** Sorting the scored candidates and keeping the first `limit` gives
      the top NGOs. */
  lemma TopNgosOfScored(db: Db, user: User, limit: nat)
    ensures Items(Take(SortDesc(ScoreEach(NgoCandidates(db, user), NgoScoreFn(db, user)), ScoreOf), limit))
         == TopNgos(db, user, limit)
  {
    RankScored(NgoCandidates(db, user), NgoScoreFn(db, user), limit);
  }

  /** What `get_ngo_recommendations(user, limit)` returns. */
  function RankNgos(db: Db, user: User, limit: nat): seq<Ngo> {
    var top := TopNgos(db, user, limit);
    if |top| < limit then top + Backfill(db, top, limit - |top|) else top
  }

  /** The body of the scoring loop: the score of one NGO, accumulated term
      by term. */
  method ScoreNgo(db: Db, user: User, ngo: Ngo) returns (score: real)
    ensures score == NgoScore(db, user, ngo)
  {
    var userInterests := user.interests;
    score := 0.0;
    if userInterests != [] && ngo.category.name in userInterests {
      score := score + 10.0;
    }
    score := score + Min(ngo.participantsCount as real / 10.0, 5.0);
    score := score + Min(ngo.eventsCount as real, 5.0);
    score := score + ngo.rating * 2.0;
    if ReviewedCategory(db, user, ngo.category) {
      score := score + 3.0;
    }
  }

  /** The scoring loop: each candidate paired with its score, in order. */
  method ScoreNgos(db: Db, user: User, ngos: seq<Ngo>) returns (scored: seq<Scored<Ngo>>)
    ensures scored == ScoreEach(ngos, NgoScoreFn(db, user))
  {
    scored := [];
    var i := 0;
    while i < |ngos|
      invariant 0 <= i <= |ngos|
      invariant scored == ScoreEach(ngos[..i], NgoScoreFn(db, user))
    {
      var score := ScoreNgo(db, user, ngos[i]);
      ScoreEachStep(ngos, i, NgoScoreFn(db, user));
      scored := scored + [Scored(ngos[i], score)];
      i := i + 1;
    }
    assert ngos[..i] == ngos;
  }

  /** `get_ngo_recommendations`: scores every candidate in a loop, sorts the
      scored list, keeps the first `limit` and backfills. */
  method NgoRecommendations(db: Db, user: User, limit: nat) returns (recommended: seq<Ngo>)
    ensures recommended == RankNgos(db, user, limit)
  {
    var scored := ScoreNgos(db, user, NgoCandidates(db, user));
    TopNgosOfScored(db, user, limit);
    recommended := Items(Take(SortDesc(scored, ScoreOf), limit));
    if |recommended| < limit {
      var remaining := limit - |recommended|;
      var additional := Backfill(db, recommended, remaining);
      recommended := recommended + additional;
    }
  }

  /** The candidates are exactly the approved NGOs of the user's city (when
      it is set) that the user has neither favorited nor viewed. */
  lemma NgoCandidatesIff(db: Db, user: User, n: Ngo)
    ensures n in NgoCandidates(db, user) <==>
      n in db.ngos && n.status == Approved && (user.city == "" || n.city == user.city)
      && (user.id, n.id) !in db.favorites && Activity(user.id, View, Some(n.id)) !in db.activities
  {
    var c := NgoCandidates(db, user);
    if n in c {
      var i :| 0 <= i < |c| && c[i] == n;
    }
    if n in db.ngos {
      var i :| 0 <= i < |db.ngos| && db.ngos[i] == n;
    }
  }

  /** The score never decreases when participants, events or rating grow. */
  lemma NgoScoreMonotone(db: Db, user: User, n: Ngo, participants: int, events: int, rating: real)
    requires n.participantsCount <= participants && n.eventsCount <= events && n.rating <= rating
    ensures NgoScore(db, user, n) <=
      NgoScore(db, user, n.(participantsCount := participants, eventsCount := events, rating := rating))
  {
  }

  /** A category among the user's interests is worth exactly 10 points. */
  lemma NgoInterestBonus(db: Db, user: User, n: Ngo)
    requires n.category.name in user.interests
    ensures NgoScore(db, user, n) == NgoScore(db, user.(interests := []), n) + 10.0
  {
  }

  /** The head of the result is ordered by non-increasing score with ties in
      table order, consists of candidates only, and every candidate left out
      scores no more than every candidate kept. */
  lemma NgoRankingOrdered(db: Db, user: User, limit: nat)
    ensures var top := TopNgos(db, user, limit);
      var s := NgoScoreFn(db, user);
      var sorted := SortDesc(NgoCandidates(db, user), s);
      |top| <= limit && top == sorted[..|top|]
      && SortedDesc(sorted, s)
      && (forall v :: WithKey(sorted, s, v) == WithKey(NgoCandidates(db, user), s, v))
      && (forall i :: 0 <= i < |top| ==> top[i] in NgoCandidates(db, user))
      && (forall x, i :: x in NgoCandidates(db, user) && x !in top && 0 <= i < |top|
            ==> NgoScore(db, user, x) <= NgoScore(db, user, top[i]))
  {
    var c := NgoCandidates(db, user);
    var s := NgoScoreFn(db, user);
    var sorted := SortDesc(c, s);
    var top := TopNgos(db, user, limit);
    SortIsSorted(c, s);
    forall v ensures WithKey(sorted, s, v) == WithKey(c, s, v) {
      SortIsStable(c, s, v);
    }
    forall i | 0 <= i < |top| ensures top[i] in c {
      assert top[i] in multiset(sorted);
    }
    forall x, i | x in c && x !in top && 0 <= i < |top|
      ensures NgoScore(db, user, x) <= NgoScore(db, user, top[i])
    {
      TopIsBest(c, s, limit, x);
    }
  }

  /** The result never has more than `limit` NGOs and reaches `limit`
      whenever the ranked candidates and the approved NGOs not among them
      together suffice; the backfill only runs when the ranked candidates fall
      short of `limit`, and then it only adds approved NGOs that were not
      chosen already. */
  lemma RankNgosShape(db: Db, user: User, limit: nat)
    ensures var r := RankNgos(db, user, limit);
      var top := TopNgos(db, user, limit);
      var avail := |Filter(db.ngos, n => FillsGap(top, n))|;
      |r| <= limit && r[..|top|] == top
      && |r| == (if limit < |top| + avail then limit else |top| + avail)
      && (|NgoCandidates(db, user)| >= limit ==> r == top)
      && (forall i :: |top| <= i < |r| ==> r[i].status == Approved && r[i].id !in Ids(top))
  {
  }

  /** Distinct rows of a table with unique ids have distinct ids. */
  lemma RowsOfUniqueTable(s: seq<Ngo>, t: seq<Ngo>)
    requires UniqueIds(t) && Distinct(s)
    requires forall i :: 0 <= i < |s| ==> s[i] in t
    ensures UniqueIds(s)
  {
    forall i, j | 0 <= i < j < |s| ensures s[i].id != s[j].id {
      var a :| 0 <= a < |t| && t[a] == s[i];
      var b :| 0 <= b < |t| && t[b] == s[j];
    }
  }

  lemma TopNgosFacts(db: Db, user: User, limit: nat)
    requires UniqueIds(db.ngos)
    ensures Distinct(TopNgos(db, user, limit))
    ensures forall i :: 0 <= i < |TopNgos(db, user, limit)| ==> TopNgos(db, user, limit)[i] in db.ngos
  {
    var c := NgoCandidates(db, user);
    var s := NgoScoreFn(db, user);
    var top := TopNgos(db, user, limit);
    assert Distinct(db.ngos);
    FilterDistinct(db.ngos, n => IsNgoCandidate(db, user, n));
    SortDistinct(c, s);
    forall i | 0 <= i < |top| ensures top[i] in db.ngos {
      assert top[i] in multiset(SortDesc(c, s));
      assert top[i] in c;
    }
  }

  /** With unique NGO ids in the table, no NGO is recommended twice. */
  lemma RankNgosUnique(db: Db, user: User, limit: nat)
    requires UniqueIds(db.ngos)
    ensures UniqueIds(RankNgos(db, user, limit))
  {
    var top := TopNgos(db, user, limit);
    var r := RankNgos(db, user, limit);
    TopNgosFacts(db, user, limit);
    if |top| < limit {
      assert Distinct(db.ngos);
      FilterDistinct(db.ngos, n => FillsGap(top, n));
      var b := Backfill(db, top, limit - |top|);
      assert Distinct(b);
      forall i, j | 0 <= i < |top| && 0 <= j < |b| ensures top[i] != b[j] {
        assert Ids(top)[i] == top[i].id;
      }
      assert r == top + b;
      assert Distinct(r);
      RowsOfUniqueTable(r, db.ngos);
    } else {
      RowsOfUniqueTable(r, db.ngos);
    }
  }

  /** The scored part of the result, everything before the backfill, holds
      only approved NGOs of the user's city (when it is set) that the user
      has neither favorited nor viewed. */
  lemma RankedHeadNotExcluded(db: Db, user: User, limit: nat)
    ensures var r := RankNgos(db, user, limit);
      var top := TopNgos(db, user, limit);
      |top| <= |r|
      && forall i :: 0 <= i < |top| ==>
           r[i] == top[i] && r[i].status == Approved && (user.city == "" || r[i].city == user.city)
           && !Excluded(db, user, r[i].id)
  {
    var r := RankNgos(db, user, limit);
    var top := TopNgos(db, user, limit);
    RankNgosShape(db, user, limit);
    NgoRankingOrdered(db, user, limit);
    forall i | 0 <= i < |top|
      ensures r[i] == top[i] && r[i].status == Approved && (user.city == "" || r[i].city == user.city)
      ensures !Excluded(db, user, r[i].id)
    {
      assert r[..|top|][i] == r[i];
      NgoCandidatesIff(db, user, top[i]);
    }
  }

  /** The backfill re-applies neither the city filter nor the favorite and
      viewed exclusion: an NGO the user already favorited can come back. */
  lemma BackfillIgnoresExclusion()
    ensures var user := User(1, "", []);
      var n := Ngo(7, Category(1, "Экология"), "Ангарск", Approved, 0, 0, 0.0);
      var db := Db([n], {(1, 7)}, [], [], [], []);
      Excluded(db, user, 7) && RankNgos(db, user, 1) == [n]
  {
    var user := User(1, "", []);
    var n := Ngo(7, Category(1, "Экология"), "Ангарск", Approved, 0, 0, 0.0);
    var db := Db([n], {(1, 7)}, [], [], [], []);
    assert !IsNgoCandidate(db, user, n);
    assert NgoCandidates(db, user) == [];
    assert TopNgos(db, user, 1) == [];
    assert Ids([]) == [];
    assert FillsGap([], n);
    assert Backfill(db, [], 1) == [n];
  }

  // -------------------------------------------------------------- events

  predicate AtOrAfter(a: Instant, b: Instant) {
    a.day > b.day || (a.day == b.day && a.second >= b.second)
  }

  predicate IsEventCandidate(db: Db, user: User, now: Instant, e: Event) {
    AtOrAfter(e.date, now) && (user.city == "" || e.ngo.city == user.city)
    && Registration(e.id, user.id) !in db.registrations
  }

  function EventCandidates(db: Db, user: User, now: Instant): (r: seq<Event>)
    ensures IsSubsequence(r, db.events)
  {
    FilterIsSubsequence(db.events, e => IsEventCandidate(db, user, now, e));
    Filter(db.events, e => IsEventCandidate(db, user, now, e))
  }

  /** `event.registered_count`. */
  function RegisteredCount(db: Db, e: Event): nat {
    Count(db.registrations, (r: Registration) => r.eventId == e.id)
  }

  /** Whole calendar days from `now` to the event. */
  function DaysUntil(e: Event, now: Instant): int {
    e.date.day - now.day
  }

  /** Points for closeness in time. */
  function Recency(days: int): (r: real)
    ensures r == 5.0 || r == 3.0 || r == 0.0
  {
    if days <= 7 then 5.0 else if days <= 30 then 3.0 else 0.0
  }

  function EventScore(db: Db, user: User, now: Instant, e: Event): (r: real)
    ensures 2.0 * e.ngo.rating <= r <= 20.0 + 2.0 * e.ngo.rating
  {
    (if user.interests != [] && e.ngo.category.name in user.interests then 10.0 else 0.0)
    + Min(RegisteredCount(db, e) as real / 5.0, 5.0)
    + e.ngo.rating * 2.0
    + Recency(DaysUntil(e, now))
  }

  function EventScoreFn(db: Db, user: User, now: Instant): Event -> real {
    e => EventScore(db, user, now, e)
  }

  /** What `get_event_recommendations(user, limit)` returns at time `now`. */
  function RankEvents(db: Db, user: User, now: Instant, limit: nat): seq<Event> {
    Take(SortDesc(EventCandidates(db, user, now), EventScoreFn(db, user, now)), limit)
  }

  /** The body of the event scoring loop. */
  method ScoreEvent(db: Db, user: User, now: Instant, event: Event) returns (score: real)
    ensures score == EventScore(db, user, now, event)
  {
    var userInterests := user.interests;
    score := 0.0;
    if userInterests != [] && event.ngo.category.name in userInterests {
      score := score + 10.0;
    }
    score := score + Min(RegisteredCount(db, event) as real / 5.0, 5.0);
    score := score + event.ngo.rating * 2.0;
    var daysUntil := event.date.day - now.day;
    if daysUntil <= 7 {
      score := score + 5.0;
    } else if daysUntil <= 30 {
      score := score + 3.0;
    }
  }

  method EventRecommendations(db: Db, user: User, now: Instant, limit: nat) returns (recommended: seq<Event>)
    ensures recommended == RankEvents(db, user, now, limit)
  {
    var events := EventCandidates(db, user, now);
    var scored: seq<Scored<Event>> := [];
    var i := 0;
    while i < |events|
      invariant 0 <= i <= |events|
      invariant scored == ScoreEach(events[..i], EventScoreFn(db, user, now))
    {
      var score := ScoreEvent(db, user, now, events[i]);
      scored := scored + [Scored(events[i], score)];
      assert events[..i + 1] == events[..i] + [events[i]];
      i := i + 1;
    }
    assert events[..i] == events;
    RankScored(events, EventScoreFn(db, user, now), limit);
    recommended := Items(Take(SortDesc(scored, ScoreOf), limit));
  }

  /** The event candidates are exactly the events not yet begun, of an NGO in
      the user's city when it is set, that the user has not registered for. */
  lemma EventCandidatesIff(db: Db, user: User, now: Instant, e: Event)
    ensures e in EventCandidates(db, user, now) <==>
      e in db.events && AtOrAfter(e.date, now) && (user.city == "" || e.ngo.city == user.city)
      && Registration(e.id, user.id) !in db.registrations
  {
    var c := EventCandidates(db, user, now);
    if e in c {
      var i :| 0 <= i < |c| && c[i] == e;
    }
    if e in db.events {
      var i :| 0 <= i < |db.events| && db.events[i] == e;
    }
  }

  /** At most `limit` events, all candidates, by non-increasing score, and no
      candidate left out beats one that was kept. */
  lemma RankEventsOrdered(db: Db, user: User, now: Instant, limit: nat)
    ensures var r := RankEvents(db, user, now, limit);
      |r| <= limit
      && (forall i :: 0 <= i < |r| ==> r[i] in EventCandidates(db, user, now) && DaysUntil(r[i], now) >= 0)
      && (forall i, j :: 0 <= i < j < |r| ==> EventScore(db, user, now, r[i]) >= EventScore(db, user, now, r[j]))
      && (forall x, i :: x in EventCandidates(db, user, now) && x !in r && 0 <= i < |r|
            ==> EventScore(db, user, now, x) <= EventScore(db, user, now, r[i]))
  {
    var c := EventCandidates(db, user, now);
    var s := EventScoreFn(db, user, now);
    var r := RankEvents(db, user, now, limit);
    SortIsSorted(c, s);
    forall i | 0 <= i < |r| ensures r[i] in c && DaysUntil(r[i], now) >= 0 {
      assert r[i] in multiset(SortDesc(c, s));
      assert r[i] in c;
      var k :| 0 <= k < |c| && c[k] == r[i];
    }
    forall x, i | x in c && x !in r && 0 <= i < |r|
      ensures EventScore(db, user, now, x) <= EventScore(db, user, now, r[i])
    {
      TopIsBest(c, s, limit, x);
    }
  }

  /** Moving an event earlier never lowers its score. */
  lemma SoonerScoresNoLower(db: Db, user: User, now: Instant, e: Event, later: Instant)
    requires DaysUntil(e, now) <= later.day - now.day
    ensures EventScore(db, user, now, e) >= EventScore(db, user, now, e.(date := later))
  {
  }

  /** A category among the user's interests is worth exactly 10 points. */
  lemma EventInterestBonus(db: Db, user: User, now: Instant, e: Event)
    requires e.ngo.category.name in user.interests
    ensures EventScore(db, user, now, e) == EventScore(db, user.(interests := []), now, e) + 10.0
  {
  }

  // ------------------------------------------------------------ dispatch

  /** `get_recommendations(user, rec_type, limit)`. An unknown type yields the
      empty list, shown here as an empty NGO list. */
  method GetRecommendations(db: Db, user: User, recType: string, now: Instant, limit: nat)
    returns (r: Recommended)
    ensures recType == "ngos" ==> r == NgoList(RankNgos(db, user, limit))
    ensures recType == "events" ==> r == EventList(RankEvents(db, user, now, limit))
    ensures recType != "ngos" && recType != "events" ==> r == NgoList([])
  {
    if recType == "ngos" {
      var ngos := NgoRecommendations(db, user, limit);
      r := NgoList(ngos);
    } else if recType == "events" {
      var events := EventRecommendations(db, user, now, limit);
      r := EventList(events);
    } else {
      r := NgoList([]);
    }
  }

  /** `get_ai_recommendations_huggingface`: whether the key is missing, the
      request body completes or it raises, the answer is the rule-based NGO
      ranking. */
  method HuggingFaceRecommendations(db: Db, user: User, hasKey: bool, raises: bool, limit: nat)
    returns (r: seq<Ngo>)
    ensures r == RankNgos(db, user, limit)
  {
    if !hasKey {
      r := NgoRecommendations(db, user, limit);
      return;
    }
    if raises {
      r := NgoRecommendations(db, user, limit);
    } else {
      r := NgoRecommendations(db, user, limit);
    }
  }
}
