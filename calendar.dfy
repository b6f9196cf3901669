/** The event calendar page (frontend_new/src/pages/CalendarPage.jsx): the
    city, format and category filters over the loaded events, their
    rendering as calendar entries (planned events highlighted), the day
    selection on a date click, the filter option lists and the planned-event
    toggle. JavaScript's `a || b`, `!x` and `filter(Boolean)` are written
    out over `Option<string>`: a missing value and the empty string are the
    falsy strings. */
module Calendar {
  import opened Seqs
  import opened Text

  /** The "all" choice of every filter. */
  const All: string := "Все"
  const Offline: string := "Офлайн"
  const Online: string := "Онлайн"
  /** The category of an event that has none. */
  const OtherCategory: string := "Другое"
  /** The border of a planned event. */
  const Gold: string := "#FFD700"

  datatype NgoRef = NgoRef(city: Option<string>, category: Option<string>)

  /** An event as the events endpoint returns it. */
  datatype CalEvent = CalEvent(
    id: int, title: string,
    city: Option<string>, category: Option<string>, subcategory: Option<string>,
    online: bool,
    eventDate: Option<string>, date: Option<string>,
    ngo: Option<NgoRef>)

  /** JavaScript truthiness of a string that may be missing. */
  predicate Truthy(s: Option<string>) {
    s.Some? && s.value != ""
  }

  /** `a || b` on strings that may be missing. */
  function Or(a: Option<string>, b: Option<string>): Option<string> {
    if Truthy(a) then a else b
  }

  function NgoCity(e: CalEvent): Option<string> {
    if e.ngo.Some? then e.ngo.value.city else None
  }

  function NgoCategory(e: CalEvent): Option<string> {
    if e.ngo.Some? then e.ngo.value.category else None
  }

  /** `e.ngo?.city || e.city`: the organiser's city first. */
  function EventCity(e: CalEvent): Option<string> {
    Or(NgoCity(e), e.city)
  }

  /** `e.category || e.ngo?.category`: the event's own category first. */
  function EventCategory(e: CalEvent): Option<string> {
    Or(e.category, NgoCategory(e))
  }

  /** The three selections of the page. */
  datatype Filters = Filters(city: string, eventType: string, category: string)

  predicate CityMatch(f: Filters, e: CalEvent) {
    f.city == All || EventCity(e) == Some(f.city) || !Truthy(EventCity(e))
  }

  predicate TypeMatch(f: Filters, e: CalEvent) {
    f.eventType == All || (f.eventType == Offline && !e.online) || (f.eventType == Online && e.online)
  }

  predicate CategoryMatch(f: Filters, e: CalEvent) {
    f.category == All || EventCategory(e) == Some(f.category)
  }

  /** The predicate of the `eventsForCity` filter. */
  predicate Matches(f: Filters, e: CalEvent) {
    CityMatch(f, e) && TypeMatch(f, e) && CategoryMatch(f, e)
  }

  function MatchesFn(f: Filters): CalEvent -> bool {
    e => Matches(f, e)
  }

  /** The events the calendar shows, in their loaded order. */
  function Visible(events: seq<CalEvent>, f: Filters): (r: seq<CalEvent>)
    ensures forall i :: 0 <= i < |r| ==> r[i] in events && Matches(f, r[i])
    ensures forall i :: 0 <= i < |events| && Matches(f, events[i]) ==> events[i] in r
  {
    Filter(events, MatchesFn(f))
  }

  /** The filter keeps the loaded order and drops events, never adds or
      reorders them. */
  lemma VisibleInOrder(events: seq<CalEvent>, f: Filters)
    ensures IsSubsequence(Visible(events, f), events)
  {
    FilterIsSubsequence(events, MatchesFn(f));
  }

  /** With every filter on "Все" all loaded events are shown. */
  lemma AllFiltersShowEverything(events: seq<CalEvent>)
    ensures Visible(events, Filters(All, All, All)) == events
  {
    FilterAll(events, MatchesFn(Filters(All, All, All)));
  }

  /** An event without a city (neither its organiser's nor its own) passes
      the city filter whatever city is selected. */
  lemma CitylessEventsAlwaysPass(f: Filters, e: CalEvent)
    requires !Truthy(NgoCity(e)) && !Truthy(e.city)
    ensures CityMatch(f, e)
  {
  }

  // ------------------------------------------------------------ styling

  datatype Colors = Colors(bg: string, border: string, text: string)

  const DefaultColors: Colors := Colors("#00D4AA", "#00b894", "#ffffff")

  /** `eventCategoryColors`. */
  const CategoryColors: map<string, Colors> := map[
    "Экология" := Colors("#00D4AA", "#00b894", "#ffffff"),
    "Социальная поддержка" := Colors("#FF6B6B", "#ee5a6f", "#ffffff"),
    "Образование" := Colors("#4ECDC4", "#45b7aa", "#ffffff"),
    "Культура" := Colors("#FFE66D", "#f4d03f", "#333333"),
    "Спорт" := Colors("#95E1D3", "#7dd3c1", "#ffffff"),
    OtherCategory := Colors("#A8E6CF", "#8dd4b8", "#ffffff")
  ]

  /** `e.category || e.ngo?.category || 'Другое'`. */
  function StyleCategory(e: CalEvent): string {
    var c := EventCategory(e);
    if Truthy(c) then c.value else OtherCategory
  }

  /** `eventCategoryColors[category] || {...}`. */
  function ColorsOf(category: string): Colors {
    if category in CategoryColors then CategoryColors[category] else DefaultColors
  }

  /** A calendar entry. */
  datatype Entry = Entry(
    id: int, title: string, start: Option<string>,
    backgroundColor: string, borderColor: string, borderWidth: int, textColor: string,
    classNames: seq<string>,
    category: Option<string>, subcategory: Option<string>, isPlanned: bool)

  /** The `map` callback of `eventsForCity`. */
  function ToEntry(planned: set<int>, e: CalEvent): Entry {
    var isPlanned := e.id in planned;
    var colors := ColorsOf(StyleCategory(e));
    Entry(e.id,
          if isPlanned then "⭐ " + e.title else e.title,
          Or(e.eventDate, e.date),
          colors.bg,
          if isPlanned then Gold else colors.border,
          if isPlanned then 3 else 1,
          colors.text,
          ["event-card", if isPlanned then "event-planned" else ""],
          EventCategory(e), e.subcategory, isPlanned)
  }

  /** `eventsForCity`: the visible events as calendar entries, in order. */
  function EventsForCity(events: seq<CalEvent>, f: Filters, planned: set<int>): (r: seq<Entry>)
    ensures |r| == |Visible(events, f)|
    ensures forall i :: 0 <= i < |r| ==> r[i].id == Visible(events, f)[i].id
  {
    var v := Visible(events, f);
    seq(|v|, i requires 0 <= i < |v| => ToEntry(planned, v[i]))
  }

  /** A planned event, and only a planned one, gets the star, the gold
      border and the wide border: no category colour is gold. */
  lemma PlannedHighlight(planned: set<int>, e: CalEvent)
    ensures var x := ToEntry(planned, e);
      (x.borderColor == Gold <==> e.id in planned)
      && (x.borderWidth == 3 <==> e.id in planned)
      && (e.id in planned ==> x.title == "⭐ " + e.title)
      && (e.id !in planned ==> x.title == e.title && x.borderColor == ColorsOf(StyleCategory(e)).border)
  {
    var c := StyleCategory(e);
    if c in CategoryColors {
      assert CategoryColors[c] in CategoryColors.Values;
      assert forall k | k in CategoryColors :: CategoryColors[k].border != Gold;
    }
  }

  /** An event with no category is styled as "Другое"; a category the table
      does not know gets the default colours. */
  lemma CategoryFallback(e: CalEvent)
    ensures !Truthy(EventCategory(e)) ==> ColorsOf(StyleCategory(e)) == Colors("#A8E6CF", "#8dd4b8", "#ffffff")
    ensures StyleCategory(e) !in CategoryColors ==> ColorsOf(StyleCategory(e)) == DefaultColors
  {
  }

  // --------------------------------------------------------- date click

  /** The day part of an ISO date-time: `s.split('T')[0]`. */
  function DayOf(s: string): string {
    Before(s, 'T')
  }

  /** The `selectedDate` state a date click leaves; `Throws` is the
      `TypeError` of `.split` on an event with no date at all. */
  datatype Selection = Cleared | Selected(date: string, events: seq<CalEvent>) | Throws

  /** The date of the filter callback; an undated event has none. */
  function EventDay(e: CalEvent): Option<string> {
    var d := Or(e.eventDate, e.date);
    if d.Some? then Some(DayOf(d.value)) else None
  }

  predicate OnDay(f: Filters, day: string, e: CalEvent) {
    EventDay(e) == Some(day) && Matches(f, e)
  }

  function OnDayFn(f: Filters, day: string): CalEvent -> bool {
    e => OnDay(f, day, e)
  }

  /** `handleDateClick`. */
  function DateClick(events: seq<CalEvent>, f: Filters, day: string): Selection {
    if exists i :: 0 <= i < |events| && Or(events[i].eventDate, events[i].date).None? then Throws
    else
      var dayEvents := Filter(events, OnDayFn(f, day));
      if |dayEvents| > 0 then Selected(day, dayEvents) else Cleared
  }

  /** A click selects exactly the shown events of that day, in order, and
      clears the selection when there are none. */
  lemma DateClickSelectsVisibleDay(events: seq<CalEvent>, f: Filters, day: string)
    requires forall i :: 0 <= i < |events| ==> Or(events[i].eventDate, events[i].date).Some?
    ensures var r := DateClick(events, f, day);
      (r.Cleared? <==> forall i :: 0 <= i < |events| ==> !OnDay(f, day, events[i]))
      && (r.Selected? ==>
            (r.date == day && r.events != []
             && (forall i :: 0 <= i < |r.events| ==> r.events[i] in Visible(events, f) && EventDay(r.events[i]) == Some(day))
             && (forall i :: 0 <= i < |events| && OnDay(f, day, events[i]) ==> events[i] in r.events)
             && IsSubsequence(r.events, events)))
  {
    var dayEvents := Filter(events, OnDayFn(f, day));
    FilterIsSubsequence(events, OnDayFn(f, day));
    if |dayEvents| > 0 {
      assert OnDay(f, day, dayEvents[0]);
      forall i | 0 <= i < |dayEvents| ensures dayEvents[i] in Visible(events, f) {
        assert dayEvents[i] in events && Matches(f, dayEvents[i]);
      }
    }
  }

  // ----------------------------------------------------- option lists

  /** The truthy strings, in order: `.filter(Boolean)`. */
  function Present(xs: seq<Option<string>>): (r: seq<string>)
    ensures forall x :: x in r <==> Some(x) in xs && x != ""
    decreases |xs|
  {
    if xs == [] then []
    else if Truthy(xs[0]) then [xs[0].value] + Present(xs[1..])
    else
      assert forall x :: Some(x) in xs && x != "" ==> Some(x) in xs[1..];
      Present(xs[1..])
  }

  /** `Array.from(new Set(s))` with `seen` already taken: each value once,
      at its first occurrence. */
  function FirstOccurrences(s: seq<string>, seen: set<string>): (r: seq<string>)
    ensures Distinct(r)
    ensures forall x :: x in r <==> x in s && x !in seen
    decreases |s|
  {
    if s == [] then []
    else if s[0] in seen then FirstOccurrences(s[1..], seen)
    else [s[0]] + FirstOccurrences(s[1..], seen + {s[0]})
  }

  /** The position of the first occurrence of `x` in `s`. */
  function IndexOf(s: seq<string>, x: string): (k: nat)
    requires x in s
    ensures k < |s| && s[k] == x
    ensures forall m :: 0 <= m < k ==> s[m] != x
  {
    if s[0] == x then 0 else 1 + IndexOf(s[1..], x)
  }

  lemma IndexOfTail(s: seq<string>, x: string)
    requires s != [] && x in s[1..] && x != s[0]
    ensures IndexOf(s, x) == 1 + IndexOf(s[1..], x)
  {
  }

  /** A head already seen is skipped: positions shift by one. */
  lemma FirstOccurrencesSkip(s: seq<string>, seen: set<string>, i: nat, j: nat)
    requires s != [] && s[0] in seen
    requires i < j < |FirstOccurrences(s[1..], seen)|
    requires IndexOf(s[1..], FirstOccurrences(s[1..], seen)[i]) < IndexOf(s[1..], FirstOccurrences(s[1..], seen)[j])
    ensures IndexOf(s, FirstOccurrences(s, seen)[i]) < IndexOf(s, FirstOccurrences(s, seen)[j])
  {
    var rest := FirstOccurrences(s[1..], seen);
    assert FirstOccurrences(s, seen) == rest;
    IndexOfTail(s, rest[i]);
    IndexOfTail(s, rest[j]);
  }

  /** A new head comes first, at position 0 of `s`; the others shift by
      one. */
  lemma FirstOccurrencesKeep(s: seq<string>, seen: set<string>, i: nat, j: nat)
    requires s != [] && s[0] !in seen
    requires 0 < j < |FirstOccurrences(s, seen)| && i < j
    requires i > 0 ==>
      IndexOf(s[1..], FirstOccurrences(s[1..], seen + {s[0]})[i - 1])
      < IndexOf(s[1..], FirstOccurrences(s[1..], seen + {s[0]})[j - 1])
    ensures IndexOf(s, FirstOccurrences(s, seen)[i]) < IndexOf(s, FirstOccurrences(s, seen)[j])
  {
    var rest := FirstOccurrences(s[1..], seen + {s[0]});
    var r := FirstOccurrences(s, seen);
    assert r == [s[0]] + rest;
    assert r[j] == rest[j - 1] && rest[j - 1] in rest;
    IndexOfTail(s, rest[j - 1]);
    if i > 0 {
      assert r[i] == rest[i - 1] && rest[i - 1] in rest;
      IndexOfTail(s, rest[i - 1]);
    }
  }

  /** Two values of `FirstOccurrences` keep the order of their first
      occurrences. */
  lemma {:induction false} FirstOccurrencesPair(s: seq<string>, seen: set<string>, i: nat, j: nat)
    requires i < j < |FirstOccurrences(s, seen)|
    ensures IndexOf(s, FirstOccurrences(s, seen)[i]) < IndexOf(s, FirstOccurrences(s, seen)[j])
    decreases |s|
  {
    if s[0] in seen {
      assert FirstOccurrences(s, seen) == FirstOccurrences(s[1..], seen);
      FirstOccurrencesPair(s[1..], seen, i, j);
      FirstOccurrencesSkip(s, seen, i, j);
    } else {
      assert FirstOccurrences(s, seen) == [s[0]] + FirstOccurrences(s[1..], seen + {s[0]});
      if i > 0 {
        FirstOccurrencesPair(s[1..], seen + {s[0]}, i - 1, j - 1);
      }
      FirstOccurrencesKeep(s, seen, i, j);
    }
  }

  /** The values come in the order of their first occurrence. */
  lemma FirstOccurrencesOrdered(s: seq<string>, seen: set<string>)
    ensures forall i, j :: 0 <= i < j < |FirstOccurrences(s, seen)| ==>
      IndexOf(s, FirstOccurrences(s, seen)[i]) < IndexOf(s, FirstOccurrences(s, seen)[j])
  {
    forall i, j | 0 <= i < j < |FirstOccurrences(s, seen)|
      ensures IndexOf(s, FirstOccurrences(s, seen)[i]) < IndexOf(s, FirstOccurrences(s, seen)[j])
    {
      FirstOccurrencesPair(s, seen, i, j);
    }
  }

  function CityOptions(events: seq<CalEvent>): seq<string> {
    [All] + FirstOccurrences(Present(seq(|events|, i requires 0 <= i < |events| => EventCity(events[i]))), {})
  }

  function CategoryOptions(events: seq<CalEvent>): seq<string> {
    [All] + FirstOccurrences(Present(seq(|events|, i requires 0 <= i < |events| => EventCategory(events[i]))), {})
  }

  /** The city list is "Все" followed by every city some event has, once
      each, in first-occurrence order. */
  lemma CityOptionsFacts(events: seq<CalEvent>)
    ensures var r := CityOptions(events);
      r[0] == All
      && Distinct(r[1..])
      && (forall c :: c in r[1..] <==> exists i :: 0 <= i < |events| && EventCity(events[i]) == Some(c) && c != "")
  {
    var cities := seq(|events|, i requires 0 <= i < |events| => EventCity(events[i]));
    var r := CityOptions(events);
    assert r[1..] == FirstOccurrences(Present(cities), {});
    forall c ensures c in r[1..] <==> exists i :: 0 <= i < |events| && EventCity(events[i]) == Some(c) && c != "" {
      if c in r[1..] {
        assert Some(c) in cities;
        var i :| 0 <= i < |cities| && cities[i] == Some(c);
        assert EventCity(events[i]) == Some(c);
      }
      if exists i :: 0 <= i < |events| && EventCity(events[i]) == Some(c) && c != "" {
        var i :| 0 <= i < |events| && EventCity(events[i]) == Some(c) && c != "";
        assert cities[i] == Some(c);
      }
    }
  }

  /** The category list is "Все" followed by every category some event
      has, once each, in first-occurrence order. */
  lemma CategoryOptionsFacts(events: seq<CalEvent>)
    ensures var r := CategoryOptions(events);
      r[0] == All
      && Distinct(r[1..])
      && (forall c :: c in r[1..] <==> exists i :: 0 <= i < |events| && EventCategory(events[i]) == Some(c) && c != "")
  {
    var cats := seq(|events|, i requires 0 <= i < |events| => EventCategory(events[i]));
    var r := CategoryOptions(events);
    assert r[1..] == FirstOccurrences(Present(cats), {});
    forall c ensures c in r[1..] <==> exists i :: 0 <= i < |events| && EventCategory(events[i]) == Some(c) && c != "" {
      if c in r[1..] {
        assert Some(c) in cats;
        var i :| 0 <= i < |cats| && cats[i] == Some(c);
        assert EventCategory(events[i]) == Some(c);
      }
      if exists i :: 0 <= i < |events| && EventCategory(events[i]) == Some(c) && c != "" {
        var i :| 0 <= i < |events| && EventCategory(events[i]) == Some(c) && c != "";
        assert cats[i] == Some(c);
      }
    }
  }

  // ------------------------------------------------------ planned events

  datatype Toast = Toast(message: string, kind: string)

  /** The planned set after a click on the plan button of `eventId`. */
  function Toggle(planned: set<int>, eventId: int): set<int> {
    if eventId in planned then planned - {eventId} else planned + {eventId}
  }

  /** Only `eventId` changes membership. */
  lemma ToggleFlipsOnlyTheEvent(planned: set<int>, eventId: int, other: int)
    ensures eventId in Toggle(planned, eventId) <==> eventId !in planned
    ensures other != eventId ==> (other in Toggle(planned, eventId) <==> other in planned)
  {
  }

  /** Two clicks on the same event restore the set. */
  lemma ToggleTwice(planned: set<int>, eventId: int)
    ensures Toggle(Toggle(planned, eventId), eventId) == planned
  {
  }

  /** The `plannedEvents` state and the toasts shown. */
  class Planner {
    var planned: set<int>
    var toasts: seq<Toast>

    constructor (initial: set<int>)
      ensures planned == initial && toasts == []
    {
      planned := initial;
      toasts := [];
    }

    /** `handleAddToPlans`: a warning and nothing else without a user;
        otherwise a copy of the set with `eventId` added or removed. */
    method AddToPlans(loggedIn: bool, eventId: int)
      modifies this
      ensures !loggedIn ==>
        (planned == old(planned) && toasts == old(toasts) + [Toast("Войдите, чтобы добавить событие в планы", "warning")])
      ensures loggedIn ==> planned == Toggle(old(planned), eventId)
      ensures loggedIn && eventId in old(planned) ==>
        toasts == old(toasts) + [Toast("Событие удалено из планов", "success")]
      ensures loggedIn && eventId !in old(planned) ==>
        toasts == old(toasts) + [Toast("Событие добавлено в ваши планы", "success")]
    {
      if !loggedIn {
        toasts := toasts + [Toast("Войдите, чтобы добавить событие в планы", "warning")];
        return;
      }
      var newPlanned := planned;
      if eventId in newPlanned {
        newPlanned := newPlanned - {eventId};
        toasts := toasts + [Toast("Событие удалено из планов", "success")];
      } else {
        newPlanned := newPlanned + {eventId};
        toasts := toasts + [Toast("Событие добавлено в ваши планы", "success")];
      }
      planned := newPlanned;
    }
  }
}
