/** The recommenders of the first front end (src/utils/aiRecommendations.js):
    a "simple" scorer that keeps the NGOs of the user's city and adds two
    random terms, a rule-based scorer, and the key check of
    `getAIRecommendations`. The random draws are inputs: `draws[2*i]` and
    `draws[2*i + 1]` are the two `Math.random() * 5` terms of the i-th NGO of
    the user's city, each in [0, 5). */
module LegacyRecommendations {
  import opened Seqs
  import opened Ranking

  /** One entry of `user.activityHistory`. */
  datatype Act = Act(ngoId: Option<int>)

  /** A missing `interests`, `activityHistory` or `favorites` list behaves as
      an empty one; the city may be missing. */
  datatype Profile = Profile(city: Option<string>, interests: seq<string>,
                             activityHistory: seq<Act>, favorites: seq<int>)

  /** `category` is a plain string here, possibly missing. */
  datatype NgoCard = NgoCard(id: int, city: Option<string>, category: Option<string>)

  const MaxResults: nat := 5

  /** `user.interests?.includes(ngo.category)`. */
  predicate InInterests(user: Profile, n: NgoCard) {
    n.category.Some? && n.category.value in user.interests
  }

  function SameCityFn(user: Profile): NgoCard -> bool {
    (n: NgoCard) => n.city == user.city
  }

  /** `ngos.filter(ngo => ngo.city === user.city)`. */
  function CityFiltered(user: Profile, ngos: seq<NgoCard>): seq<NgoCard> {
    Filter(ngos, SameCityFn(user))
  }

  predicate ValidDraws(draws: seq<real>) {
    forall k :: 0 <= k < |draws| ==> 0.0 <= draws[k] < 5.0
  }

  /** The score of the i-th NGO of the user's city. */
  function SimpleScore(user: Profile, n: NgoCard, draws: seq<real>, i: nat): real
    requires 2 * i + 1 < |draws|
  {
    (if InInterests(user, n) then 10.0 else 0.0) + draws[2 * i] + draws[2 * i + 1]
  }

  /** The `scores` list before sorting. */
  function SimpleScores(user: Profile, ngos: seq<NgoCard>, draws: seq<real>): (r: seq<Scored<NgoCard>>)
    requires |draws| >= 2 * |CityFiltered(user, ngos)|
    ensures |r| == |CityFiltered(user, ngos)|
  {
    var c := CityFiltered(user, ngos);
    seq(|c|, i requires 0 <= i < |c| => Scored(c[i], SimpleScore(user, c[i], draws, i)))
  }

  /** What `getSimpleRecommendations(user, ngos)` returns for the given draws. */
  function SimpleRanking(user: Profile, ngos: seq<NgoCard>, draws: seq<real>): seq<NgoCard>
    requires |draws| >= 2 * |CityFiltered(user, ngos)|
  {
    Items(Take(SortDesc(SimpleScores(user, ngos, draws), ScoreOf), MaxResults))
  }

  method SimpleRecommendations(user: Profile, ngos: seq<NgoCard>, draws: seq<real>) returns (result: seq<NgoCard>)
    requires |draws| >= 2 * |CityFiltered(user, ngos)|
    ensures result == SimpleRanking(user, ngos, draws)
  {
    var scores: seq<Scored<NgoCard>> := [];
    var cityFiltered := CityFiltered(user, ngos);
    var i := 0;
    while i < |cityFiltered|
      invariant 0 <= i <= |cityFiltered|
      invariant scores == SimpleScores(user, ngos, draws)[..i]
    {
      var ngo := cityFiltered[i];
      var score := 0.0;
      if ngo.category.Some? && ngo.category.value in user.interests {
        score := score + 10.0;
      }
      score := score + draws[2 * i];
      score := score + draws[2 * i + 1];
      scores := scores + [Scored(ngo, score)];
      i := i + 1;
    }
    assert scores == SimpleScores(user, ngos, draws);
    result := Items(Take(SortDesc(scores, ScoreOf), MaxResults));
  }

  /** With draws in [0, 5), a score reaches 10 exactly when the category is
      among the user's interests. */
  lemma ScoreThreshold(user: Profile, ngos: seq<NgoCard>, draws: seq<real>, k: nat)
    requires |draws| >= 2 * |CityFiltered(user, ngos)| && ValidDraws(draws)
    requires k < |SimpleScores(user, ngos, draws)|
    ensures var x := SimpleScores(user, ngos, draws)[k];
      x.score >= 10.0 <==> InInterests(user, x.item)
  {
    var c := CityFiltered(user, ngos);
    assert 2 * k + 1 < 2 * |c|;
  }

  /** At most five NGOs, all of the user's city, and every NGO whose category
      is among the interests is placed before every NGO whose category is not. */
  lemma SimpleRankingShape(user: Profile, ngos: seq<NgoCard>, draws: seq<real>)
    requires |draws| >= 2 * |CityFiltered(user, ngos)| && ValidDraws(draws)
    ensures var r := SimpleRanking(user, ngos, draws);
      var c := CityFiltered(user, ngos);
      |r| <= MaxResults && |r| == (if |c| < MaxResults then |c| else MaxResults)
      && (forall i :: 0 <= i < |r| ==> r[i] in ngos && r[i].city == user.city)
      && (forall i, j :: 0 <= i < j < |r| && InInterests(user, r[j]) ==> InInterests(user, r[i]))
  {
    var scores := SimpleScores(user, ngos, draws);
    var sorted := SortDesc(scores, ScoreOf);
    var r := SimpleRanking(user, ngos, draws);
    var c := CityFiltered(user, ngos);
    SortIsSorted(scores, ScoreOf);
    forall i | 0 <= i < |sorted| ensures sorted[i].item in c && 0 <= i < |sorted| {
      assert sorted[i] in multiset(scores);
      var k :| 0 <= k < |scores| && scores[k] == sorted[i];
    }
    forall i | 0 <= i < |r| ensures r[i] in ngos && r[i].city == user.city {
      assert r[i] == sorted[i].item;
    }
    forall i, j | 0 <= i < j < |r| && InInterests(user, r[j]) ensures InInterests(user, r[i]) {
      assert r[i] == sorted[i].item && r[j] == sorted[j].item;
      SortedScoreThreshold(user, ngos, draws, i);
      SortedScoreThreshold(user, ngos, draws, j);
    }
  }

  lemma SortedScoreThreshold(user: Profile, ngos: seq<NgoCard>, draws: seq<real>, p: nat)
    requires |draws| >= 2 * |CityFiltered(user, ngos)| && ValidDraws(draws)
    requires p < |SimpleScores(user, ngos, draws)|
    ensures var x := SortDesc(SimpleScores(user, ngos, draws), ScoreOf)[p];
      x.score >= 10.0 <==> InInterests(user, x.item)
  {
    var scores := SimpleScores(user, ngos, draws);
    var sorted := SortDesc(scores, ScoreOf);
    assert sorted[p] in multiset(scores);
    var k :| 0 <= k < |scores| && scores[k] == sorted[p];
    ScoreThreshold(user, ngos, draws, k);
  }

  /** An NGO of the user's city whose category is among the interests and
      that did not make the list means that every NGO returned has such a
      category. */
  lemma InterestMatchesCrowdOut(user: Profile, ngos: seq<NgoCard>, draws: seq<real>, k: nat)
    requires |draws| >= 2 * |CityFiltered(user, ngos)| && ValidDraws(draws)
    requires k < |CityFiltered(user, ngos)| && InInterests(user, CityFiltered(user, ngos)[k])
    requires CityFiltered(user, ngos)[k] !in SimpleRanking(user, ngos, draws)
    ensures forall i :: 0 <= i < |SimpleRanking(user, ngos, draws)| ==> InInterests(user, SimpleRanking(user, ngos, draws)[i])
  {
    var scores := SimpleScores(user, ngos, draws);
    var sorted := SortDesc(scores, ScoreOf);
    var r := SimpleRanking(user, ngos, draws);
    var x := scores[k];
    SortIsSorted(scores, ScoreOf);
    assert x in multiset(sorted);
    var p :| 0 <= p < |sorted| && sorted[p] == x;
    assert p >= |r|;
    ScoreThreshold(user, ngos, draws, k);
    forall i | 0 <= i < |r| ensures InInterests(user, r[i]) {
      assert r[i] == sorted[i].item;
      SortedScoreThreshold(user, ngos, draws, i);
    }
  }

  // ------------------------------------------------------ rule-based

  /** `ngos.find(n => n.id === id)?.category`: missing when no NGO has the id. */
  function FoundCategory(ngos: seq<NgoCard>, id: int): (r: Option<string>)
    ensures (forall i :: 0 <= i < |ngos| ==> ngos[i].id != id) ==> r == None
    decreases |ngos|
  {
    if ngos == [] then None else if ngos[0].id == id then ngos[0].category else FoundCategory(ngos[1..], id)
  }

  /** The entry has a truthy NGO id whose NGO's category equals `n`'s, where
      two missing categories are equal (`undefined === undefined`). */
  predicate Similar(ngos: seq<NgoCard>, n: NgoCard, act: Act) {
    act.ngoId.Some? && act.ngoId.value != 0 && FoundCategory(ngos, act.ngoId.value) == n.category
  }

  function SimilarFn(ngos: seq<NgoCard>, n: NgoCard): Act -> bool {
    act => Similar(ngos, n, act)
  }

  function RuleScore(user: Profile, ngos: seq<NgoCard>, n: NgoCard): int {
    (if n.city == user.city then 3 else 0)
    + (if InInterests(user, n) then 5 else 0)
    + 2 * Count(user.activityHistory, SimilarFn(ngos, n))
    + (if n.id in user.favorites then 1 else 0)
  }

  function RuleScoreFn(user: Profile, ngos: seq<NgoCard>): NgoCard -> real {
    n => RuleScore(user, ngos, n) as real
  }

  function PositiveFn(user: Profile, ngos: seq<NgoCard>): NgoCard -> bool {
    n => RuleScore(user, ngos, n) > 0
  }

  /** What `getRuleBasedRecommendations(user, ngos)` returns. */
  function RuleRanking(user: Profile, ngos: seq<NgoCard>): seq<NgoCard> {
    Take(SortDesc(Filter(ngos, PositiveFn(user, ngos)), RuleScoreFn(user, ngos)), MaxResults)
  }

  method ScoreRule(user: Profile, ngos: seq<NgoCard>, ngo: NgoCard) returns (matchScore: int)
    ensures matchScore == RuleScore(user, ngos, ngo)
  {
    matchScore := 0;
    if ngo.city == user.city {
      matchScore := matchScore + 3;
    }
    if ngo.category.Some? && ngo.category.value in user.interests {
      matchScore := matchScore + 5;
    }
    var similarNgos := Filter(user.activityHistory, SimilarFn(ngos, ngo));
    matchScore := matchScore + |similarNgos| * 2;
    if ngo.id in user.favorites {
      matchScore := matchScore + 1;
    }
  }

  method RuleBasedRecommendations(user: Profile, ngos: seq<NgoCard>) returns (result: seq<NgoCard>)
    ensures result == RuleRanking(user, ngos)
  {
    var recommendations: seq<Scored<NgoCard>> := [];
    var i := 0;
    while i < |ngos|
      invariant 0 <= i <= |ngos|
      invariant recommendations == ScoreEach(Filter(ngos[..i], PositiveFn(user, ngos)), RuleScoreFn(user, ngos))
    {
      var matchScore := ScoreRule(user, ngos, ngos[i]);
      ScoreFilterStep(ngos, i, PositiveFn(user, ngos), RuleScoreFn(user, ngos));
      if matchScore > 0 {
        recommendations := recommendations + [Scored(ngos[i], matchScore as real)];
      }
      i := i + 1;
    }
    assert ngos[..i] == ngos;
    RankScored(Filter(ngos, PositiveFn(user, ngos)), RuleScoreFn(user, ngos), MaxResults);
    result := Items(Take(SortDesc(recommendations, ScoreOf), MaxResults));
  }

  /** At most five NGOs, each from the list with a positive score, by
      non-increasing score; an NGO left out scores no higher than any
      returned one. */
  lemma RuleRankingShape(user: Profile, ngos: seq<NgoCard>)
    ensures var r := RuleRanking(user, ngos);
      var c := Filter(ngos, PositiveFn(user, ngos));
      |r| <= MaxResults && |r| == (if |c| < MaxResults then |c| else MaxResults)
      && (forall i :: 0 <= i < |r| ==> r[i] in ngos && RuleScore(user, ngos, r[i]) > 0)
      && (forall i, j :: 0 <= i < j < |r| ==> RuleScore(user, ngos, r[i]) >= RuleScore(user, ngos, r[j]))
      && (forall x, i :: x in ngos && x !in r && 0 <= i < |r| ==> RuleScore(user, ngos, x) <= RuleScore(user, ngos, r[i]))
  {
    var c := Filter(ngos, PositiveFn(user, ngos));
    var s := RuleScoreFn(user, ngos);
    var r := RuleRanking(user, ngos);
    assert r == Take(SortDesc(c, s), MaxResults);
    TopShape(c, s, MaxResults);
    forall i | 0 <= i < |r| ensures r[i] in ngos && RuleScore(user, ngos, r[i]) > 0 {
      assert r[i] in c;
    }
    forall i, j | 0 <= i < j < |r| ensures RuleScore(user, ngos, r[i]) >= RuleScore(user, ngos, r[j]) {
      assert s(r[i]) >= s(r[j]);
    }
    forall x, i | x in ngos && x !in r && 0 <= i < |r|
      ensures RuleScore(user, ngos, x) <= RuleScore(user, ngos, r[i])
    {
      assert r[i] in c;
      if RuleScore(user, ngos, x) > 0 {
        assert x in c;
        assert s(x) <= s(r[i]);
      }
    }
  }


  /** A history entry whose id names no NGO of the list still counts for an
      NGO without a category: both categories are `undefined`. */
  lemma UnknownIdMatchesMissingCategory(user: Profile, ngos: seq<NgoCard>, n: NgoCard, id: int)
    requires id != 0 && n.category.None?
    requires forall i :: 0 <= i < |ngos| ==> ngos[i].id != id
    ensures Similar(ngos, n, Act(Some(id)))
  {
  }

  // ----------------------------------------------------------- AI entry

  /** `getAIRecommendations` up to the network: without a key, or when the
      remote path throws (`remote == None`), the answer is the simple
      ranking. */
  method AiRecommendations(user: Profile, ngos: seq<NgoCard>, draws: seq<real>, apiKey: string,
                           remote: Option<seq<NgoCard>>)
    returns (result: seq<NgoCard>)
    requires |draws| >= 2 * |CityFiltered(user, ngos)|
    ensures apiKey == "" || remote.None? ==> result == SimpleRanking(user, ngos, draws)
    ensures apiKey != "" && remote.Some? ==> result == remote.value
  {
    if apiKey == "" {
      result := SimpleRecommendations(user, ngos, draws);
      return;
    }
    if remote.None? {
      result := SimpleRecommendations(user, ngos, draws);
    } else {
      result := remote.value;
    }
  }

  /** `getCohereRecommendations`: without a key, after the embedding
      request (`raises` false) and when it throws, the answer is the simple
      ranking; the embeddings are never used. */
  method CohereRecommendations(user: Profile, ngos: seq<NgoCard>, draws: seq<real>, apiKey: string,
                             raises: bool)
    returns (result: seq<NgoCard>)
    requires |draws| >= 2 * |CityFiltered(user, ngos)|
    ensures result == SimpleRanking(user, ngos, draws)
  {
    if apiKey == "" {
      result := SimpleRecommendations(user, ngos, draws);
      return;
    }
    if raises {
      result := SimpleRecommendations(user, ngos, draws);
    } else {
      result := SimpleRecommendations(user, ngos, draws);
    }
  }
}
