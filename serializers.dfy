/** The checks and small state updates of the REST serializers
    (backend/api/serializers.py): user registration, the event-registration
    guard, the rating update after a review, and the per-request flags.
    Database tables are sequences of rows; a `unique_together` constraint is
    an invariant on them. */
module Serializers {
  import opened Seqs

  /** A validation result: the validated value, a validation error on a
      field (`non_field_errors` for errors raised in `validate`), or a
      primary key that names no row. */
  datatype Checked<T> = Valid(value: T) | Invalid(field: string, message: string) | NoSuchObject

  const NonField: string := "non_field_errors"

  // ------------------------------------------------------ registration

  /** `UserRegistrationSerializer.validate`: the two passwords must agree;
      the attributes are otherwise returned as they are. */
  function ValidateUser(attrs: map<string, string>): (r: Checked<map<string, string>>)
    requires "password" in attrs && "password_confirm" in attrs
    ensures r.Valid? <==> attrs["password"] == attrs["password_confirm"]
    ensures r.Valid? ==> r.value == attrs
    ensures !r.Valid? ==> r == Invalid("password", "Пароли не совпадают")
  {
    if attrs["password"] != attrs["password_confirm"] then Invalid("password", "Пароли не совпадают")
    else Valid(attrs)
  }

  /** The keyword arguments `UserRegistrationSerializer.create` passes to
      `create_user`: the validated data without `password_confirm`. */
  method CreateUser(validated: map<string, string>) returns (fields: map<string, string>)
    requires "password_confirm" in validated
    ensures "password_confirm" !in fields
    ensures fields.Keys == validated.Keys - {"password_confirm"}
    ensures forall k :: k in fields ==> fields[k] == validated[k]
  {
    var data := validated;
    data := data - {"password_confirm"};
    fields := data;
  }

  /** Registration end to end: a request whose passwords agree creates a
      user with every submitted field except the confirmation, and with
      the password it was given. */
  method RegisterUser(attrs: map<string, string>) returns (r: Checked<map<string, string>>)
    requires "password" in attrs && "password_confirm" in attrs
    ensures r.Valid? <==> attrs["password"] == attrs["password_confirm"]
    ensures r.Valid? ==>
      (r.value.Keys == attrs.Keys - {"password_confirm"}
       && "password" in r.value && r.value["password"] == attrs["password_confirm"])
  {
    var v := ValidateUser(attrs);
    if !v.Valid? {
      return v;
    }
    var fields := CreateUser(v.value);
    r := Valid(fields);
  }

  // ------------------------------------------------- event registrations

  /** An `EventRegistration` row. */
  datatype Registration = Registration(eventId: int, userId: int)

  function ForEventFn(eventId: int): Registration -> bool {
    (r: Registration) => r.eventId == eventId
  }

  /** `event.registrations.count()`. */
  function RegisteredCount(rows: seq<Registration>, eventId: int): nat {
    Count(rows, ForEventFn(eventId))
  }

  /** `max_participants` is truthy: neither `None` nor 0. */
  predicate Limited(max: Option<int>) {
    max.Some? && max.value != 0
  }

  /** `EventRegistrationSerializer.validate`, for the event `eventId` with
      the limits of `events` (event id to `max_participants`). */
  function ValidateRegistration(rows: seq<Registration>, events: map<int, Option<int>>,
                                eventId: int, userId: int): (r: Checked<Registration>)
    ensures r.Valid? <==>
      (eventId in events && Registration(eventId, userId) !in rows
       && !(Limited(events[eventId]) && RegisteredCount(rows, eventId) >= events[eventId].value))
    ensures r.Valid? ==> r.value == Registration(eventId, userId)
  {
    if eventId !in events then NoSuchObject
    else if Registration(eventId, userId) in rows then Invalid(NonField, "Вы уже зарегистрированы на это событие")
    else if Limited(events[eventId]) && RegisteredCount(rows, eventId) >= events[eventId].value then
      Invalid(NonField, "Достигнуто максимальное количество участников")
    else Valid(Registration(eventId, userId))
  }

  /** No (event, user) pair repeats, and no event with a limit holds more
      registrations than its limit (none at all for a negative limit). */
  predicate RegistrationsOk(rows: seq<Registration>, events: map<int, Option<int>>) {
    Distinct(rows)
    && forall e :: e in events && Limited(events[e]) ==>
         RegisteredCount(rows, e) <= (if events[e].value < 0 then 0 else events[e].value)
  }

  /** The registrations after `validate` and `create`. */
  function AfterRegistration(rows: seq<Registration>, events: map<int, Option<int>>,
                             eventId: int, userId: int): seq<Registration> {
    var r := ValidateRegistration(rows, events, eventId, userId);
    if r.Valid? then rows + [r.value] else rows
  }

  /** Sequential validate-then-create keeps every limit and never repeats a
      pair. */
  lemma RegistrationKeepsLimits(rows: seq<Registration>, events: map<int, Option<int>>,
                                eventId: int, userId: int)
    requires RegistrationsOk(rows, events)
    ensures RegistrationsOk(AfterRegistration(rows, events, eventId, userId), events)
  {
    var x := Registration(eventId, userId);
    if ValidateRegistration(rows, events, eventId, userId).Valid? {
      var rows' := rows + [x];
      forall e | e in events && Limited(events[e])
        ensures RegisteredCount(rows', e) <= (if events[e].value < 0 then 0 else events[e].value)
      {
        CountAppend(rows, x, ForEventFn(e));
      }
      assert Distinct(rows') by {
        forall i, j | 0 <= i < j < |rows'| ensures rows'[i] != rows'[j] {
          if j == |rows| {
            assert rows'[i] == rows[i];
          }
        }
      }
    }
  }

  /** The `EventRegistration` table and the events' limits. */
  class EventRegistrations {
    const events: map<int, Option<int>>
    var rows: seq<Registration>

    ghost predicate Valid()
      reads this
    {
      RegistrationsOk(rows, events)
    }

    constructor (events: map<int, Option<int>>)
      ensures this.events == events && rows == [] && Valid()
    {
      this.events := events;
      rows := [];
    }

    /** A registration request: `validate`, then `create` with the
        requesting user. */
    method Register(eventId: int, userId: int) returns (r: Checked<Registration>)
      requires Valid()
      modifies this
      ensures Valid()
      ensures r == ValidateRegistration(old(rows), events, eventId, userId)
      ensures rows == AfterRegistration(old(rows), events, eventId, userId)
    {
      RegistrationKeepsLimits(rows, events, eventId, userId);
      r := ValidateRegistration(rows, events, eventId, userId);
      if r.Valid? {
        rows := rows + [r.value];
      }
    }
  }

  // ----------------------------------------------------------- reviews

  datatype Review = Review(ngoId: int, userId: int, rating: int)

  function Sum(ratings: seq<int>): int
    decreases |ratings|
  {
    if ratings == [] then 0 else Sum(ratings[..|ratings| - 1]) + ratings[|ratings| - 1]
  }

  /** `sum(r.rating for r in reviews) / reviews.count()`. */
  method MeanRating(ratings: seq<int>) returns (mean: real)
    requires ratings != []
    ensures mean == Sum(ratings) as real / |ratings| as real
  {
    var total := 0;
    for i := 0 to |ratings|
      invariant total == Sum(ratings[..i])
    {
      assert ratings[..i + 1][..i] == ratings[..i];
      total := total + ratings[i];
    }
    assert ratings[..|ratings|] == ratings;
    mean := total as real / |ratings| as real;
  }

  /** With ratings in 1..5 the sum lies between the count and five times it. */
  lemma {:induction false} SumBounds(ratings: seq<int>)
    requires forall i :: 0 <= i < |ratings| ==> 1 <= ratings[i] <= 5
    ensures |ratings| <= Sum(ratings) <= 5 * |ratings|
    decreases |ratings|
  {
    if ratings != [] {
      SumBounds(ratings[..|ratings| - 1]);
    }
  }

  /** The mean of ratings in 1..5 is in [1, 5]. */
  lemma MeanInRange(ratings: seq<int>)
    requires ratings != []
    requires forall i :: 0 <= i < |ratings| ==> 1 <= ratings[i] <= 5
    ensures 1.0 <= Sum(ratings) as real / |ratings| as real <= 5.0
  {
    SumBounds(ratings);
    var n := |ratings| as real;
    var s := Sum(ratings) as real;
    QuotientBetween(s, n, 1.0, 5.0);
  }

  lemma QuotientBetween(s: real, n: real, lo: real, hi: real)
    requires n > 0.0 && lo * n <= s <= hi * n
    ensures lo <= s / n <= hi
  {
    var q := s / n;
    assert q * n == s;
  }

  function RatingsOf(reviews: seq<Review>, ngoId: int): (r: seq<int>)
    ensures |r| <= |reviews|
    decreases |reviews|
  {
    if reviews == [] then []
    else
      var init := RatingsOf(reviews[..|reviews| - 1], ngoId);
      var last := reviews[|reviews| - 1];
      if last.ngoId == ngoId then init + [last.rating] else init
  }

  /** The review table and the NGOs' ratings. */
  class ReviewBoard {
    var reviews: seq<Review>
    var rating: map<int, real>

    constructor ()
      ensures reviews == [] && rating == map[]
    {
      reviews := [];
      rating := map[];
    }

    /** `ReviewSerializer.create`: a second review of the same NGO by the
        same user violates `unique_together` and changes nothing; otherwise
        the review is stored and the NGO's rating becomes the mean of all
        its reviews. */
    method CreateReview(ngoId: int, userId: int, stars: int) returns (created: bool)
      modifies this
      ensures created <==> forall i :: 0 <= i < |old(reviews)| ==>
        (old(reviews)[i].ngoId, old(reviews)[i].userId) != (ngoId, userId)
      ensures !created ==> reviews == old(reviews) && rating == old(rating)
      ensures created ==>
        (reviews == old(reviews) + [Review(ngoId, userId, stars)]
         && RatingsOf(reviews, ngoId) != []
         && rating == old(rating)[ngoId := Sum(RatingsOf(reviews, ngoId)) as real / |RatingsOf(reviews, ngoId)| as real])
    {
      if exists i :: 0 <= i < |reviews| && (reviews[i].ngoId, reviews[i].userId) == (ngoId, userId) {
        return false;
      }
      reviews := reviews + [Review(ngoId, userId, stars)];
      assert reviews[..|reviews| - 1] == old(reviews);
      var ratings := RatingsOf(reviews, ngoId);
      var mean := MeanRating(ratings);
      rating := rating[ngoId := mean];
      created := true;
    }
  }

  /** A stored NGO rating stays within the 1 to 5 stars of the reviews. */
  lemma {:induction false} RatingsOfInRange(reviews: seq<Review>, ngoId: int)
    requires forall i :: 0 <= i < |reviews| ==> 1 <= reviews[i].rating <= 5
    ensures forall i :: 0 <= i < |RatingsOf(reviews, ngoId)| ==> 1 <= RatingsOf(reviews, ngoId)[i] <= 5
    decreases |reviews|
  {
    if reviews != [] {
      RatingsOfInRange(reviews[..|reviews| - 1], ngoId);
    }
  }

  /** Reviews carry 1 to 5 stars, so the rating `create` stores for an NGO
      stays within 1 to 5. */
  lemma StoredRatingInRange(reviews: seq<Review>, ngoId: int)
    requires forall i :: 0 <= i < |reviews| ==> 1 <= reviews[i].rating <= 5
    requires RatingsOf(reviews, ngoId) != []
    ensures 1.0 <= Sum(RatingsOf(reviews, ngoId)) as real / |RatingsOf(reviews, ngoId)| as real <= 5.0
  {
    RatingsOfInRange(reviews, ngoId);
    MeanInRange(RatingsOf(reviews, ngoId));
  }

  // ------------------------------------------------------------ flags

  /** The request of the serializer context, if any. */
  datatype Request = Request(authenticated: bool, userId: int)

  /** The shape of `get_is_favorite`, `get_is_registered` and
      `get_is_saved`: a row lookup for an authenticated request, false
      otherwise. */
  function IsLinked(request: Option<Request>, table: set<(int, int)>, objectId: int): (r: bool)
    ensures r <==> request.Some? && request.value.authenticated && (request.value.userId, objectId) in table
  {
    if request.Some? && request.value.authenticated then (request.value.userId, objectId) in table else false
  }

  /** Without a request, or for an anonymous one, every flag is false
      whatever the tables hold. */
  lemma AnonymousFlagsFalse(request: Option<Request>, favorites: set<(int, int)>,
                            registrations: set<(int, int)>, library: set<(int, int)>, id: int)
    requires request.None? || !request.value.authenticated
    ensures !IsLinked(request, favorites, id) && !IsLinked(request, registrations, id) && !IsLinked(request, library, id)
  {
  }

  datatype Author = Author(username: string)

  /** `get_author_name`. */
  function AuthorName(author: Option<Author>): (r: string)
    ensures author.Some? ==> r == author.value.username
    ensures author.None? ==> r == "Неизвестно"
  {
    if author.Some? then author.value.username else "Неизвестно"
  }
}
