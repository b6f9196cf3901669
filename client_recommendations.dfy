/** The browser-side recommenders of the current front end
    (frontend_new/src/utils/aiRecommendations.js): the "simple" scorer used
    whenever the AI service is not available, the rule-based scorer, and the
    branch of `getAIRecommendations` that falls back to the simple scorer.
    JavaScript values that may be `undefined` are `Option`s where the code can
    tell them apart from an empty value, and plain values where it cannot. */
module ClientRecommendations {
  import opened Seqs
  import opened Ranking
  import opened Text

  /** One entry of `user.activityHistory`. */
  datatype Act = Act(ngoId: Option<int>, category: Option<string>)

  /** The user profile. A missing `interests`, `activityHistory` or
      `favorites` list behaves as an empty one. */
  datatype Profile = Profile(city: Option<string>, interests: seq<string>,
                             activityHistory: seq<Act>, favorites: seq<int>)

  /** An NGO as the page holds it. `categoryName` is the value of
      `ngo.category?.name || ngo.category || ''`; an empty short description
      also stands for a missing one (both are falsy). */
  datatype NgoCard = NgoCard(id: int, city: Option<string>, categoryName: string,
                             shortDescription: string)

  const DefaultCity: string := "Ангарск"
  const AllCities: string := "Все"
  const MaxResults: nat := 5

  /** `user?.x` on a missing user reads every field as missing. */
  function ProfileOrEmpty(user: Option<Profile>): Profile {
    if user.Some? then user.value else Profile(None, [], [], [])
  }

  /** `user?.city || 'Ангарск'`. */
  function UserCity(user: Option<Profile>): string {
    var p := ProfileOrEmpty(user);
    if p.city.Some? && p.city.value != "" then p.city.value else DefaultCity
  }

  function CityPoints(n: NgoCard, userCity: string): int {
    if n.city == Some(userCity) then 10 else if n.city == Some(AllCities) then 5 else 1
  }

  /** `ngo.short_description?.toLowerCase() || ''`. */
  function DescriptionLower(description: string, lower: string -> string): string {
    if description == "" then "" else lower(description)
  }

  /** The lower-cased interest occurs in the lower-cased category name or
      short description. */
  predicate Mentions(categoryName: string, description: string, lower: string -> string, interest: string) {
    Contains(lower(categoryName), lower(interest)) || Contains(DescriptionLower(description, lower), lower(interest))
  }

  function MentionsFn(categoryName: string, description: string, lower: string -> string): string -> bool {
    interest => Mentions(categoryName, description, lower, interest)
  }

  /** The category term: 15 for an exact match, otherwise 8 per interest the
      NGO mentions; nothing without interests or without a category. */
  function InterestPoints(interests: seq<string>, categoryName: string, description: string,
                          lower: string -> string): int {
    if |interests| > 0 && categoryName != "" then
      if categoryName in interests then 15 else 8 * Count(interests, MentionsFn(categoryName, description, lower))
    else 0
  }

  /** Some history entry names the NGO's id or its category. */
  predicate ActivityMatches(acts: seq<Act>, n: NgoCard) {
    exists i :: 0 <= i < |acts| && (acts[i].ngoId == Some(n.id) || acts[i].category == Some(n.categoryName))
  }

  function SimpleScore(user: Option<Profile>, n: NgoCard, lower: string -> string): int {
    var p := ProfileOrEmpty(user);
    CityPoints(n, UserCity(user))
    + InterestPoints(p.interests, n.categoryName, n.shortDescription, lower)
    + (if |p.interests| == 0 then 5 else 0)
    + (if ActivityMatches(p.activityHistory, n) then 12 else 0)
    - (if n.id in p.favorites then 1 else 0)
    + (if |n.shortDescription| > 50 then 3 else 0)
    + 2
  }

  function SimpleScoreFn(user: Option<Profile>, lower: string -> string): NgoCard -> real {
    n => SimpleScore(user, n, lower) as real
  }

  /** What `getSimpleRecommendations(user, ngos)` returns; `lower` is
      `String.prototype.toLowerCase`. */
  function SimpleRanking(user: Option<Profile>, ngos: Option<seq<NgoCard>>, lower: string -> string): seq<NgoCard> {
    if ngos.None? || ngos.value == [] then []
    else Take(SortDesc(ngos.value, SimpleScoreFn(user, lower)), MaxResults)
  }

  /** The inner `forEach` over the interests: 8 points for each interest
      the NGO's category name or short description mentions. */
  method MentionPoints(interests: seq<string>, categoryName: string, description: string,
                       lower: string -> string) returns (points: int)
    ensures points == 8 * Count(interests, MentionsFn(categoryName, description, lower))
  {
    points := 0;
    var j := 0;
    while j < |interests|
      invariant 0 <= j <= |interests|
      invariant points == 8 * Count(interests[..j], MentionsFn(categoryName, description, lower))
    {
      var interestLower := lower(interests[j]);
      var categoryLower := lower(categoryName);
      var descLower := DescriptionLower(description, lower);
      CountStep(interests, j, MentionsFn(categoryName, description, lower));
      if Contains(categoryLower, interestLower) || Contains(descLower, interestLower) {
        points := points + 8;
      }
      j := j + 1;
    }
    assert interests[..j] == interests;
  }

  /** The body of the `forEach` in `getSimpleRecommendations`: the score of
      one NGO, with the inner loop over the interests. */
  method ScoreSimple(user: Option<Profile>, ngo: NgoCard, lower: string -> string) returns (score: int)
    ensures score == SimpleScore(user, ngo, lower)
  {
    var p := ProfileOrEmpty(user);
    var userCity := UserCity(user);
    var userInterests := p.interests;
    score := 0;
    if ngo.city == Some(userCity) {
      score := score + 10;
    } else if ngo.city == Some(AllCities) {
      score := score + 5;
    } else {
      score := score + 1;
    }
    var categoryName := ngo.categoryName;
    if |userInterests| > 0 && categoryName != "" {
      if categoryName in userInterests {
        score := score + 15;
      } else {
        var points := MentionPoints(userInterests, categoryName, ngo.shortDescription, lower);
        score := score + points;
      }
    }
    if |userInterests| == 0 {
      score := score + 5;
    }
    if |p.activityHistory| > 0 && ActivityMatches(p.activityHistory, ngo) {
      score := score + 12;
    }
    if ngo.id in p.favorites {
      score := score - 1;
    }
    if |ngo.shortDescription| > 50 {
      score := score + 3;
    }
    score := score + 2;
  }

  /** `getSimpleRecommendations`: scores every NGO, sorts by score and keeps
      the first five. The source's fallback for an empty result is never
      reached, because every NGO is scored. */
  method SimpleRecommendations(user: Option<Profile>, ngos: Option<seq<NgoCard>>, lower: string -> string)
    returns (result: seq<NgoCard>)
    ensures result == SimpleRanking(user, ngos, lower)
  {
    if ngos.None? || ngos.value == [] {
      return [];
    }
    var all := ngos.value;
    var scores: seq<Scored<NgoCard>> := [];
    var i := 0;
    while i < |all|
      invariant 0 <= i <= |all|
      invariant scores == ScoreEach(all[..i], SimpleScoreFn(user, lower))
    {
      var score := ScoreSimple(user, all[i], lower);
      scores := scores + [Scored(all[i], score as real)];
      assert all[..i + 1] == all[..i] + [all[i]];
      i := i + 1;
    }
    assert all[..i] == all;
    RankScored(all, SimpleScoreFn(user, lower), MaxResults);
    result := Items(Take(SortDesc(scores, ScoreOf), MaxResults));
    if |result| == 0 {
      // `ngos.slice(0, 5)` in the source: unreachable
      assert false;
    }
  }

  /** An empty or missing list gives nothing; otherwise exactly
      min(5, |ngos|) NGOs of the list, by non-increasing score, and no NGO
      left out scores more than one returned. */
  lemma SimpleRankingShape(user: Option<Profile>, ngos: Option<seq<NgoCard>>, lower: string -> string)
    ensures var r := SimpleRanking(user, ngos, lower);
      (ngos.None? || ngos.value == [] ==> r == [])
      && (ngos.Some? ==>
            |r| == (if |ngos.value| < MaxResults then |ngos.value| else MaxResults)
            && (forall i :: 0 <= i < |r| ==> r[i] in ngos.value)
            && (forall i, j :: 0 <= i < j < |r| ==> SimpleScore(user, r[i], lower) >= SimpleScore(user, r[j], lower))
            && (forall x, i :: x in ngos.value && x !in r && 0 <= i < |r| ==> SimpleScore(user, x, lower) <= SimpleScore(user, r[i], lower)))
  {
    if ngos.Some? && ngos.value != [] {
      var s := SimpleScoreFn(user, lower);
      var r := SimpleRanking(user, ngos, lower);
      assert r == Take(SortDesc(ngos.value, s), MaxResults);
      TopShape(ngos.value, s, MaxResults);
      forall i, j | 0 <= i < j < |r| ensures SimpleScore(user, r[i], lower) >= SimpleScore(user, r[j], lower) {
        assert s(r[i]) >= s(r[j]);
      }
      forall x, i | x in ngos.value && x !in r && 0 <= i < |r|
        ensures SimpleScore(user, x, lower) <= SimpleScore(user, r[i], lower)
      {
        assert s(x) <= s(r[i]);
      }
    }
  }


  /** Being in the user's city is worth 9 points more than being in another
      named city, and 5 more than the 'Все' wildcard (for a user whose own
      city is not 'Все'). */
  lemma SameCityBonus(user: Option<Profile>, n: NgoCard, lower: string -> string, other: string)
    requires UserCity(user) != AllCities
    requires other != UserCity(user) && other != AllCities
    ensures SimpleScore(user, n.(city := Some(UserCity(user))), lower)
         == SimpleScore(user, n.(city := Some(other)), lower) + 9
    ensures SimpleScore(user, n.(city := Some(UserCity(user))), lower)
         == SimpleScore(user, n.(city := Some(AllCities)), lower) + 5
  {
  }

  /** An exact category match earns 15 whatever the other interests say; a
      user without interests gets the flat 5 instead. */
  lemma InterestTerms(user: Option<Profile>, n: NgoCard, lower: string -> string)
    ensures var p := ProfileOrEmpty(user);
      (n.categoryName != "" && n.categoryName in p.interests ==> InterestPoints(p.interests, n.categoryName, n.shortDescription, lower) == 15)
      && (p.interests == [] ==> InterestPoints(p.interests, n.categoryName, n.shortDescription, lower) + (if |p.interests| == 0 then 5 else 0) == 5)
      && (0 <= InterestPoints(p.interests, n.categoryName, n.shortDescription, lower) <= (if 15 < 8 * |p.interests| then 8 * |p.interests| else 15))
  {
  }

  // ------------------------------------------------------ rule-based

  /** `actNgo?.category?.name || actNgo?.category || ''` for the first NGO
      of the list with the given id. */
  function FoundCategory(ngos: seq<NgoCard>, id: int): (r: string)
    ensures (forall i :: 0 <= i < |ngos| ==> ngos[i].id != id) ==> r == ""
    decreases |ngos|
  {
    if ngos == [] then "" else if ngos[0].id == id then ngos[0].categoryName else FoundCategory(ngos[1..], id)
  }

  /** The history entry has a truthy NGO id whose NGO has the same category
      name as `n`. */
  predicate Similar(ngos: seq<NgoCard>, n: NgoCard, act: Act) {
    act.ngoId.Some? && act.ngoId.value != 0 && FoundCategory(ngos, act.ngoId.value) == n.categoryName
  }

  function SimilarFn(ngos: seq<NgoCard>, n: NgoCard): Act -> bool {
    act => Similar(ngos, n, act)
  }

  function RuleScore(user: Profile, ngos: seq<NgoCard>, n: NgoCard): int {
    (if n.city == user.city then 3 else 0)
    + (if n.categoryName in user.interests then 5 else 0)
    + 2 * Count(user.activityHistory, SimilarFn(ngos, n))
    + (if n.id in user.favorites then 1 else 0)
  }

  function RuleScoreFn(user: Profile, ngos: seq<NgoCard>): NgoCard -> real {
    n => RuleScore(user, ngos, n) as real
  }

  function PositiveFn(user: Profile, ngos: seq<NgoCard>): NgoCard -> bool {
    n => RuleScore(user, ngos, n) > 0
  }

  /** What `getRuleBasedRecommendations(user, ngos)` returns. */
  function RuleRanking(user: Profile, ngos: seq<NgoCard>): seq<NgoCard> {
    Take(SortDesc(Filter(ngos, PositiveFn(user, ngos)), RuleScoreFn(user, ngos)), MaxResults)
  }

  /** The body of the `forEach` in `getRuleBasedRecommendations`. */
  method ScoreRule(user: Profile, ngos: seq<NgoCard>, ngo: NgoCard) returns (matchScore: int)
    ensures matchScore == RuleScore(user, ngos, ngo)
  {
    matchScore := 0;
    if ngo.city == user.city {
      matchScore := matchScore + 3;
    }
    if ngo.categoryName in user.interests {
      matchScore := matchScore + 5;
    }
    var similarNgos := Filter(user.activityHistory, SimilarFn(ngos, ngo));
    matchScore := matchScore + |similarNgos| * 2;
    if ngo.id in user.favorites {
      matchScore := matchScore + 1;
    }
  }

  method RuleBasedRecommendations(user: Profile, ngos: seq<NgoCard>) returns (result: seq<NgoCard>)
    ensures result == RuleRanking(user, ngos)
  {
    var recommendations: seq<Scored<NgoCard>> := [];
    var i := 0;
    while i < |ngos|
      invariant 0 <= i <= |ngos|
      invariant recommendations == ScoreEach(Filter(ngos[..i], PositiveFn(user, ngos)), RuleScoreFn(user, ngos))
    {
      var matchScore := ScoreRule(user, ngos, ngos[i]);
      ScoreFilterStep(ngos, i, PositiveFn(user, ngos), RuleScoreFn(user, ngos));
      if matchScore > 0 {
        recommendations := recommendations + [Scored(ngos[i], matchScore as real)];
      }
      i := i + 1;
    }
    assert ngos[..i] == ngos;
    RankScored(Filter(ngos, PositiveFn(user, ngos)), RuleScoreFn(user, ngos), MaxResults);
    result := Items(Take(SortDesc(recommendations, ScoreOf), MaxResults));
  }

  /** At most five NGOs, each from the list with a positive score, by
      non-increasing score; an NGO left out has a score no higher than any
      returned one, and one whose score is not positive is never returned. */
  lemma RuleRankingShape(user: Profile, ngos: seq<NgoCard>)
    ensures var r := RuleRanking(user, ngos);
      var c := Filter(ngos, PositiveFn(user, ngos));
      |r| <= MaxResults && |r| == (if |c| < MaxResults then |c| else MaxResults)
      && (forall i :: 0 <= i < |r| ==> r[i] in ngos && RuleScore(user, ngos, r[i]) > 0)
      && (forall i, j :: 0 <= i < j < |r| ==> RuleScore(user, ngos, r[i]) >= RuleScore(user, ngos, r[j]))
      && (forall x, i :: x in ngos && x !in r && 0 <= i < |r| ==> RuleScore(user, ngos, x) <= RuleScore(user, ngos, r[i]))
  {
    var c := Filter(ngos, PositiveFn(user, ngos));
    var s := RuleScoreFn(user, ngos);
    var r := RuleRanking(user, ngos);
    assert r == Take(SortDesc(c, s), MaxResults);
    TopShape(c, s, MaxResults);
    forall i | 0 <= i < |r| ensures r[i] in ngos && RuleScore(user, ngos, r[i]) > 0 {
      assert r[i] in c;
    }
    forall i, j | 0 <= i < j < |r| ensures RuleScore(user, ngos, r[i]) >= RuleScore(user, ngos, r[j]) {
      assert s(r[i]) >= s(r[j]);
    }
    forall x, i | x in ngos && x !in r && 0 <= i < |r|
      ensures RuleScore(user, ngos, x) <= RuleScore(user, ngos, r[i])
    {
      assert r[i] in c;
      if RuleScore(user, ngos, x) > 0 {
        assert x in c;
        assert s(x) <= s(r[i]);
      }
    }
  }


  /** Each history entry that points at an NGO of the same category adds 2. */
  lemma SimilarHistoryWorthTwo(user: Profile, ngos: seq<NgoCard>, n: NgoCard, act: Act)
    requires Similar(ngos, n, act)
    ensures RuleScore(user.(activityHistory := user.activityHistory + [act]), ngos, n)
         == RuleScore(user, ngos, n) + 2
  {
    CountAppend(user.activityHistory, act, SimilarFn(ngos, n));
  }

  // ----------------------------------------------------------- AI entry

  /** The key is absent, blank or shorter than ten characters. */
  predicate NoValidKey(apiKey: string) {
    apiKey == "" || JsTrim(apiKey) == "" || |apiKey| < 10
  }

  /** `getAIRecommendations` up to the network: without a usable key, or
      when the remote path throws (`remote == None`), the answer is the
      simple ranking; the remote answer itself is a parameter. */
  method AiRecommendations(user: Option<Profile>, ngos: Option<seq<NgoCard>>, apiKey: string,
                           remote: Option<seq<NgoCard>>, lower: string -> string)
    returns (result: seq<NgoCard>)
    ensures NoValidKey(apiKey) || remote.None? ==> result == SimpleRanking(user, ngos, lower)
    ensures !NoValidKey(apiKey) && remote.Some? ==> result == remote.value
  {
    if apiKey == "" || JsTrim(apiKey) == "" || |apiKey| < 10 {
      result := SimpleRecommendations(user, ngos, lower);
      return;
    }
    if remote.None? {
      result := SimpleRecommendations(user, ngos, lower);
    } else {
      result := remote.value;
    }
  }

  /** `getCohereRecommendations`: without a key, after the embedding
      request (`raises` false) and when it throws, the answer is the simple
      ranking; the embeddings are never used. */
  method CohereRecommendations(user: Option<Profile>, ngos: Option<seq<NgoCard>>, apiKey: string, raises: bool,
                             lower: string -> string)
    returns (result: seq<NgoCard>)
    ensures result == SimpleRanking(user, ngos, lower)
  {
    if apiKey == "" {
      result := SimpleRecommendations(user, ngos, lower);
      return;
    }
    if raises {
      result := SimpleRecommendations(user, ngos, lower);
    } else {
      result := SimpleRecommendations(user, ngos, lower);
    }
  }
}
