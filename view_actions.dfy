/** The state-changing actions of the API views (front4/backend/api/views.py):
    NGO creation, favourites, event unregistration, moderation, and the
    material library. The tables these actions touch are fields of one
    `Portal` object; row ids are chosen by the database and are parameters,
    and so is the clock reading `now`. */
module ViewActions {
  import opened Seqs

  /** The moderation state of an NGO or of a moderation request. */
  datatype Status = Pending | Approved | Rejected

  /** An `NGO` row: the fields the actions read or write. */
  datatype Ngo = Ngo(name: string, status: Status, createdBy: int)

  /** A `ModerationRequest` row. */
  datatype ModerationRequest = ModerationRequest(ngoId: int, status: Status, moderator: Option<int>,
                                                 comment: string, reason: string, reviewedAt: Option<int>)

  datatype ActivityKind = View | FavoriteActivity

  /** An `ActivityHistory` row. */
  datatype Activity = Activity(userId: int, kind: ActivityKind, ngoId: int)

  /** The requesting user. */
  datatype User = User(id: int, staff: bool, superuser: bool)

  const Created: int := 201
  const Ok: int := 200
  const NotFound: int := 404

  /** A request that is still pending: the rows moderators may address. */
  function PendingRequests(moderation: map<int, ModerationRequest>): (r: set<int>)
    ensures forall id :: id in r <==> id in moderation && moderation[id].status == Pending
  {
    set id | id in moderation && moderation[id].status == Pending
  }

  class Portal {
    var ngos: map<int, Ngo>
    var moderation: map<int, ModerationRequest>
    var activities: seq<Activity>
    var favorites: set<(int, int)>          // (user, ngo)
    var registrations: set<(int, int)>      // (user, event)
    var events: set<int>
    var materials: map<int, int>            // material id -> views_count
    var library: map<(int, int), string>    // (user, material) -> notes

    /** Every moderation request names an existing NGO. */
    ghost predicate Valid()
      reads this
    {
      forall id :: id in moderation ==> moderation[id].ngoId in ngos
    }

    constructor ()
      ensures Valid()
      ensures ngos == map[] && moderation == map[] && activities == [] && favorites == {}
      ensures registrations == {} && events == {} && materials == map[] && library == map[]
    {
      ngos := map[];
      moderation := map[];
      activities := [];
      favorites := {};
      registrations := {};
      events := {};
      materials := map[];
      library := map[];
    }

    /** `NGOViewSet.create`: the new NGO is pending whatever was submitted,
        and exactly one moderation request and one 'view' activity are
        recorded for it. */
    method CreateNgo(user: User, name: string, ngoId: int, requestId: int) returns (code: int)
      requires Valid()
      requires ngoId !in ngos && requestId !in moderation
      modifies this
      ensures events == old(events)
      ensures Valid() && code == Created
      ensures ngos == old(ngos)[ngoId := Ngo(name, Pending, user.id)]
      ensures moderation == old(moderation)[requestId := ModerationRequest(ngoId, Pending, None, "", "", None)]
      ensures activities == old(activities) + [Activity(user.id, View, ngoId)]
      ensures favorites == old(favorites) && registrations == old(registrations)
      ensures materials == old(materials) && library == old(library)
    {
      ngos := ngos[ngoId := Ngo(name, Pending, user.id)];
      moderation := moderation[requestId := ModerationRequest(ngoId, Pending, None, "", "", None)];
      activities := activities + [Activity(user.id, View, ngoId)];
      code := Created;
    }

    /** `NGOViewSet.favorite`. Only approved NGOs are addressable. A POST
        adds the pair and one 'favorite' activity when it is absent (201)
        and changes nothing when it is present (200); a DELETE removes the
        pair, present or not (200). */
    method Favorite(user: User, ngoId: int, post: bool) returns (code: int)
      modifies this
      ensures events == old(events)
      ensures ngos == old(ngos) && moderation == old(moderation)
      ensures registrations == old(registrations) && materials == old(materials) && library == old(library)
      ensures !(ngoId in ngos && ngos[ngoId].status == Approved) ==>
        code == NotFound && favorites == old(favorites) && activities == old(activities)
      ensures ngoId in ngos && ngos[ngoId].status == Approved && post ==>
        if (user.id, ngoId) in old(favorites) then
          code == Ok && favorites == old(favorites) && activities == old(activities)
        else
          code == Created && favorites == old(favorites) + {(user.id, ngoId)}
          && activities == old(activities) + [Activity(user.id, FavoriteActivity, ngoId)]
      ensures ngoId in ngos && ngos[ngoId].status == Approved && !post ==>
        code == Ok && favorites == old(favorites) - {(user.id, ngoId)} && activities == old(activities)
    {
      if !(ngoId in ngos && ngos[ngoId].status == Approved) {
        return NotFound;
      }
      if post {
        if (user.id, ngoId) !in favorites {
          favorites := favorites + {(user.id, ngoId)};
          activities := activities + [Activity(user.id, FavoriteActivity, ngoId)];
          return Created;
        }
        return Ok;
      } else {
        favorites := favorites - {(user.id, ngoId)};
        return Ok;
      }
    }

    /** `EventViewSet.unregister`: removes the user's registration for an
        existing event, whether or not there was one. */
    method Unregister(user: User, eventId: int) returns (code: int)
      modifies this
      ensures events == old(events)
      ensures code == (if eventId in events then Ok else NotFound)
      ensures registrations == if eventId in events then old(registrations) - {(user.id, eventId)} else old(registrations)
      ensures ngos == old(ngos) && moderation == old(moderation) && activities == old(activities)
      ensures favorites == old(favorites) && materials == old(materials) && library == old(library)
    {
      if eventId !in events {
        return NotFound;
      }
      registrations := registrations - {(user.id, eventId)};
      code := Ok;
    }

    /** `ModerationViewSet.get_queryset`: staff and superusers see the
        pending requests, everybody else none. */
    function Queue(user: User): (r: set<int>)
      reads this
      ensures !(user.staff || user.superuser) ==> r == {}
      ensures user.staff || user.superuser ==>
        forall id :: id in r <==> id in moderation && moderation[id].status == Pending
    {
      if user.staff || user.superuser then PendingRequests(moderation) else {}
    }

    /** `approve` (`approve` true) and `reject`: a request outside the
        user's queue is not found; otherwise the request and its NGO both
        take the decision, and the request records the moderator, the time
        and the comment (approve) or the reason (reject), '' when absent. */
    method Decide(user: User, requestId: int, approve: bool, text: Option<string>, now: int) returns (code: int)
      requires Valid()
      modifies this
      ensures events == old(events)
      ensures Valid()
      ensures activities == old(activities) && favorites == old(favorites)
      ensures registrations == old(registrations) && materials == old(materials) && library == old(library)
      ensures requestId !in old(Queue(user)) ==>
        code == NotFound && ngos == old(ngos) && moderation == old(moderation)
      ensures requestId in old(Queue(user)) ==>
        var m := old(moderation)[requestId];
        var s := if approve then Approved else Rejected;
        var t := if text.Some? then text.value else "";
        code == Ok
        && moderation == old(moderation)[requestId :=
             m.(status := s, moderator := Some(user.id), reviewedAt := Some(now),
                comment := if approve then t else m.comment,
                reason := if approve then m.reason else t)]
        && ngos == old(ngos)[m.ngoId := old(ngos)[m.ngoId].(status := s)]
    {
      if requestId !in Queue(user) {
        return NotFound;
      }
      var m := moderation[requestId];
      var s := if approve then Approved else Rejected;
      var t := if text.Some? then text.value else "";
      m := m.(status := s, moderator := Some(user.id), reviewedAt := Some(now));
      if approve {
        m := m.(comment := t);
      } else {
        m := m.(reason := t);
      }
      moderation := moderation[requestId := m];
      ngos := ngos[m.ngoId := ngos[m.ngoId].(status := s)];
      code := Ok;
    }

    /** `MaterialViewSet.save`: a new (user, material) pair is stored with
        the given notes or '' (201); an existing one keeps its notes unless
        notes are given (200). */
    method SaveMaterial(user: User, materialId: int, notes: Option<string>) returns (code: int)
      modifies this
      ensures events == old(events)
      ensures ngos == old(ngos) && moderation == old(moderation) && activities == old(activities)
      ensures favorites == old(favorites) && registrations == old(registrations) && materials == old(materials)
      ensures materialId !in materials ==> code == NotFound && library == old(library)
      ensures materialId in materials && (user.id, materialId) !in old(library) ==>
        code == Created && library == old(library)[(user.id, materialId) := if notes.Some? then notes.value else ""]
      ensures materialId in materials && (user.id, materialId) in old(library) ==>
        code == Ok
        && library == if notes.Some? then old(library)[(user.id, materialId) := notes.value] else old(library)
    {
      if materialId !in materials {
        return NotFound;
      }
      var key := (user.id, materialId);
      if key !in library {
        library := library[key := if notes.Some? then notes.value else ""];
        return Created;
      }
      if notes.Some? {
        library := library[key := notes.value];
      }
      code := Ok;
    }

    /** `MaterialViewSet.unsave`: removes the pair, present or not. */
    method UnsaveMaterial(user: User, materialId: int) returns (code: int)
      modifies this
      ensures events == old(events)
      ensures code == (if materialId in materials then Ok else NotFound)
      ensures library == if materialId in materials then old(library) - {(user.id, materialId)} else old(library)
      ensures ngos == old(ngos) && moderation == old(moderation) && activities == old(activities)
      ensures favorites == old(favorites) && registrations == old(registrations) && materials == old(materials)
    {
      if materialId !in materials {
        return NotFound;
      }
      library := library - {(user.id, materialId)};
      code := Ok;
    }

    /** `MaterialViewSet.view`: one more view for the material, nothing
        else changes; the reply carries the new count. */
    method ViewMaterial(materialId: int) returns (code: int, viewsCount: int)
      modifies this
      ensures events == old(events)
      ensures materialId !in old(materials) ==> code == NotFound && materials == old(materials)
      ensures materialId in old(materials) ==>
        code == Ok && viewsCount == old(materials)[materialId] + 1
        && materials == old(materials)[materialId := viewsCount]
      ensures ngos == old(ngos) && moderation == old(moderation) && activities == old(activities)
      ensures favorites == old(favorites) && registrations == old(registrations) && library == old(library)
    {
      if materialId !in materials {
        return NotFound, 0;
      }
      viewsCount := materials[materialId] + 1;
      materials := materials[materialId := viewsCount];
      code := Ok;
    }
  }

  /** Saving twice stores the pair once: the second request finds it and
      changes nothing unless it brings notes. */
  method SaveTwice(p: Portal, user: User, materialId: int, notes: Option<string>)
    returns (first: int, second: int)
    requires materialId in p.materials
    modifies p
    ensures (user.id, materialId) in p.library
    ensures second == Ok
    ensures first == Created <==> (user.id, materialId) !in old(p.library)
    ensures p.library ==
      if notes.Some? then old(p.library)[(user.id, materialId) := notes.value]
      else if (user.id, materialId) in old(p.library) then old(p.library)
      else old(p.library)[(user.id, materialId) := ""]
  {
    first := p.SaveMaterial(user, materialId, notes);
    second := p.SaveMaterial(user, materialId, notes);
  }

  /** Favouriting twice adds the pair and its activity once: the second
      request finds the pair and records nothing. */
  method FavoriteTwice(p: Portal, user: User, ngoId: int) returns (first: int, second: int)
    requires ngoId in p.ngos && p.ngos[ngoId].status == Approved
    modifies p
    ensures second == Ok
    ensures p.favorites == old(p.favorites) + {(user.id, ngoId)}
    ensures first == Created <==> (user.id, ngoId) !in old(p.favorites)
    ensures p.activities == old(p.activities)
      + (if (user.id, ngoId) in old(p.favorites) then [] else [Activity(user.id, FavoriteActivity, ngoId)])
  {
    first := p.Favorite(user, ngoId, true);
    second := p.Favorite(user, ngoId, true);
  }
}
