/** frontend/src/store/useStore.js: the client's cache of profiles and events.
    Each is kept twice, as the list the server sent and as a map by `_id`;
    writes to the server are optimistic, applied to the cache first and then
    confirmed or rolled back once the server has answered. */
module ClientStore {
  import opened Js
  import opened Seqs

  /** A profile as the client holds it. */
  datatype ClientProfile = ClientProfile(id: Id, name: string, timezone: string)

  /** An entry of an event's `profiles` array: an id (as the server stores it)
      or a whole profile object (as the client fills it in). */
  datatype ProfileRef = RefId(ref: Id) | RefProfile(profile: ClientProfile)
  {
    /** `typeof p === "string" ? p : p._id` */
    function IdOf(): Id {
      match this
      case RefId(i) => i
      case RefProfile(p) => p.id
    }
  }

  /** A cached event. The bounds and time stamps are absent (undefined) on the
      record the server returns from a creation, which carries UTC instants
      under other names instead. */
  datatype CachedEvent = CachedEvent(
    id: Id,
    title: string,
    profiles: seq<ProfileRef>,
    eventTimezone: string,
    start: Option<string>,
    end: Option<string>,
    createdAt: Option<string>,
    updatedAt: Option<string>)

  /** The body sent to create or update an event; None is undefined. */
  datatype EventPayload = EventPayload(
    title: Option<string>,
    eventTimezone: Option<string>,
    startLocal: Option<string>,
    endLocal: Option<string>,
    profiles: Option<seq<Id>>)

  /** What the server call came back with: the response record, or a
      rejection (which the store rethrows after any rollback). */
  datatype ApiOutcome<T> = Success(record: T) | Failure

  const DefaultTitle := "Event"
  const DefaultTimezone := "UTC"

  function ProfileKey(p: ClientProfile): Id { p.id }

  function EventKey(e: CachedEvent): Id { e.id }

  /** `(profiles || []).map(p => typeof p === "string" ? p : p._id)` */
  function NormalizeIds(refs: seq<ProfileRef>): (ids: seq<Id>)
    ensures |ids| == |refs|
    ensures forall i :: 0 <= i < |refs| ==> ids[i] == refs[i].IdOf()
  {
    seq(|refs|, i requires 0 <= i < |refs| => refs[i].IdOf())
  }

  /** The profile object standing for `id`: the cached one, or a placeholder
      named after the id in "UTC". */
  function ProfileObject(id: Id, byId: map<Id, ClientProfile>): ProfileRef {
    RefProfile(if id in byId then byId[id] else ClientProfile(id, id, DefaultTimezone))
  }

  function ProfileObjects(ids: seq<Id>, byId: map<Id, ClientProfile>): (refs: seq<ProfileRef>)
    ensures |refs| == |ids|
  {
    seq(|ids|, i requires 0 <= i < |ids| => ProfileObject(ids[i], byId))
  }

  /** Resolving ids to objects through a map keyed by `_id` and normalising
      back yields the ids: the objects stand for exactly the requested
      participants, in order. */
  lemma ProfileObjectsRoundTrip(ids: seq<Id>, byId: map<Id, ClientProfile>)
    requires forall k :: k in byId ==> byId[k].id == k
    ensures NormalizeIds(ProfileObjects(ids, byId)) == ids
  {
    var refs := ProfileObjects(ids, byId);
    forall i | 0 <= i < |ids| ensures refs[i].IdOf() == ids[i] {
      assert refs[i] == ProfileObject(ids[i], byId);
    }
  }

  /** `selectedProfile?._id || null` */
  function SelectedId(selected: Option<ClientProfile>): (r: Option<Id>)
    ensures r.Some? <==> selected.Some? && selected.value.id != ""
    ensures r.Some? ==> r.value == selected.value.id
  {
    if selected.Some? && selected.value.id != "" then Some(selected.value.id) else None
  }

  /** The temporary event shown until the server answers. */
  function TempEvent(payload: EventPayload, tempId: Id, byId: map<Id, ClientProfile>,
                     createdAt: string, updatedAt: string): (t: CachedEvent)
    ensures t.id == tempId
    ensures t.title == (if Truthy(payload.title) then payload.title.value else DefaultTitle)
    ensures t.eventTimezone == (if Truthy(payload.eventTimezone) then payload.eventTimezone.value else DefaultTimezone)
    ensures |t.profiles| == |payload.profiles.GetOr([])|
  {
    CachedEvent(tempId, Or(payload.title, DefaultTitle),
                ProfileObjects(payload.profiles.GetOr([]), byId),
                Or(payload.eventTimezone, DefaultTimezone),
                Some(Or(payload.startLocal, "")), Some(Or(payload.endLocal, "")),
                Some(createdAt), Some(updatedAt))
  }

  /** Whether the new event belongs in the list on screen: no profile is
      selected, or the selected one takes part in it. */
  predicate ShouldInsert(selected: Option<ClientProfile>, payload: EventPayload) {
    SelectedId(selected).None? || SelectedId(selected).value in payload.profiles.GetOr([])
  }

  /** `events.find(e => e._id === id)` finds something. */
  predicate HasEvent(events: seq<CachedEvent>, id: Id) {
    exists e | e in events :: e.id == id
  }

  /** The optimistic version of an event: each field the payload defines
      overrides the cached one, participants resolved through `byId`. */
  function Patched(prev: CachedEvent, payload: EventPayload, byId: map<Id, ClientProfile>,
                   now: string): (u: CachedEvent)
    ensures u.id == prev.id && u.createdAt == prev.createdAt && u.updatedAt == Some(now)
    ensures u.title == payload.title.GetOr(prev.title)
    ensures u.eventTimezone == payload.eventTimezone.GetOr(prev.eventTimezone)
    ensures u.start == (if payload.startLocal.Some? then payload.startLocal else prev.start)
    ensures u.end == (if payload.endLocal.Some? then payload.endLocal else prev.end)
    ensures payload.profiles.None? ==> u.profiles == prev.profiles
    ensures payload.profiles.Some? ==> |u.profiles| == |payload.profiles.value|
  {
    var profiles := if payload.profiles.Some? then ProfileObjects(payload.profiles.value, byId) else prev.profiles;
    CachedEvent(prev.id, payload.title.GetOr(prev.title), profiles,
                payload.eventTimezone.GetOr(prev.eventTimezone),
                if payload.startLocal.Some? then payload.startLocal else prev.start,
                if payload.endLocal.Some? then payload.endLocal else prev.end,
                prev.createdAt, Some(now))
  }

  /** The patched participants are exactly the payload's ids, in order, when
      the profile map is keyed by `_id`. */
  lemma PatchedParticipants(prev: CachedEvent, payload: EventPayload, byId: map<Id, ClientProfile>,
                            now: string)
    requires payload.profiles.Some?
    requires forall k :: k in byId ==> byId[k].id == k
    ensures NormalizeIds(Patched(prev, payload, byId, now).profiles) == payload.profiles.value
  {
    ProfileObjectsRoundTrip(payload.profiles.value, byId);
  }

  /** Applying the same payload twice at the same moment is applying it once. */
  lemma PatchedIdempotent(prev: CachedEvent, payload: EventPayload, byId: map<Id, ClientProfile>,
                          now: string)
    ensures Patched(Patched(prev, payload, byId, now), payload, byId, now)
         == Patched(prev, payload, byId, now)
  {
  }

  /** An empty payload only refreshes the update time. */
  lemma PatchedEmpty(prev: CachedEvent, byId: map<Id, ClientProfile>, now: string)
    ensures Patched(prev, EventPayload(None, None, None, None, None), byId, now)
         == prev.(updatedAt := Some(now))
  {
  }

  /** Putting `u` in place of the entries with `u`'s own id keeps a list and
      its map in agreement. */
  lemma IndexedUpdate<T, K>(s: seq<T>, m: map<K, T>, u: T, key: T -> K)
    requires Indexed(s, m, key) && key(u) in m
    ensures Indexed(ReplaceWhere(s, key, key(u), u), m[key(u) := u], key)
  {
    IndexedReplace(s, m, key(u), u, key);
    assert (m - {key(u)})[key(u) := u] == m[key(u) := u];
  }

  class Store {
    var profiles: seq<ClientProfile>
    var profilesById: map<Id, ClientProfile>
    var selectedProfile: Option<ClientProfile>
    var events: seq<CachedEvent>
    var eventsById: map<Id, CachedEvent>

    /** Each map holds exactly the ids of its list, each mapped to a list
        entry with that id. */
    ghost predicate Valid()
      reads this
    {
      && Indexed(profiles, profilesById, ProfileKey)
      && Indexed(events, eventsById, EventKey)
    }

    /** The initial state: empty lists and maps, nothing selected. */
    constructor ()
      ensures Valid()
      ensures profiles == [] && profilesById == map[] && selectedProfile.None?
      ensures events == [] && eventsById == map[]
    {
      profiles, profilesById, selectedProfile := [], map[], None;
      events, eventsById := [], map[];
    }

    /** `_setEventsAndMap`: replaces the event list and rebuilds its map. */
    method SetEventsAndMap(evs: seq<CachedEvent>)
      modifies this
      ensures events == evs && eventsById == ById(evs, EventKey)
      ensures profiles == old(profiles) && profilesById == old(profilesById)
      ensures selectedProfile == old(selectedProfile)
      ensures Indexed(events, eventsById, EventKey)
      ensures old(Valid()) ==> Valid()
    {
      var byId := ById(evs, EventKey);
      events, eventsById := evs, byId;
    }

    /** `createProfile`: on success the server's record goes at the end of
        the list and into the map; a failure is rethrown with nothing changed
        (r is None). */
    method CreateProfile(api: ApiOutcome<ClientProfile>) returns (r: Option<ClientProfile>)
      modifies this
      ensures events == old(events) && eventsById == old(eventsById)
      ensures selectedProfile == old(selectedProfile)
      ensures api.Failure? ==> r.None? && profiles == old(profiles) && profilesById == old(profilesById)
      ensures api.Success? ==>
        && r == Some(api.record)
        && profiles == old(profiles) + [api.record]
        && profilesById == old(profilesById)[api.record.id := api.record]
      ensures old(Valid()) ==> Valid()
    {
      if api.Failure? {
        return None;
      }
      var newProfile := api.record;
      var newMap := profilesById;
      newMap := newMap[newProfile.id := newProfile];
      if Indexed(profiles, profilesById, ProfileKey) {
        IndexedAppend(profiles, profilesById, newProfile, ProfileKey);
      }
      profiles, profilesById := profiles + [newProfile], newMap;
      r := Some(newProfile);
    }

    /** `updateProfile(id, …)`: on success every list entry with the id and
        the map entry become the server's record, which is also made the
        selected profile; the events of that record's id are fetched again
        (refetch) when it has one. A failure is rethrown with nothing
        changed. */
    method UpdateProfile(id: Id, api: ApiOutcome<ClientProfile>)
      returns (r: Option<ClientProfile>, refetch: Option<Id>)
      modifies this
      ensures events == old(events) && eventsById == old(eventsById)
      ensures api.Failure? ==>
        && r.None? && refetch.None?
        && profiles == old(profiles) && profilesById == old(profilesById)
        && selectedProfile == old(selectedProfile)
      ensures api.Success? ==>
        var u := api.record;
        && r == Some(u)
        && profiles == ReplaceWhere(old(profiles), ProfileKey, id, u)
        && profilesById == old(profilesById)[id := u]
        && selectedProfile == Some(u)
        && refetch == (if u.id != "" then Some(u.id) else None)
      ensures old(Valid()) && api.Success? && api.record.id == id && id in old(profilesById) ==> Valid()
    {
      if api.Failure? {
        return None, None;
      }
      var updated := api.record;
      if Indexed(profiles, profilesById, ProfileKey) && updated.id == id && id in profilesById {
        IndexedUpdate(profiles, profilesById, updated, ProfileKey);
      }
      var arr := ReplaceWhere(profiles, ProfileKey, id, updated);
      var newMap := profilesById[id := updated];
      profiles, profilesById, selectedProfile := arr, newMap, Some(updated);
      refetch := if updated.id != "" then Some(updated.id) else None;
      r := Some(updated);
    }

    /** The first `set` of `createEvent`: the temporary event goes in front
        of the list and into the map. */
    method InsertTemp(temp: CachedEvent)
      modifies this
      ensures events == [temp] + old(events) && eventsById == old(eventsById)[temp.id := temp]
      ensures profiles == old(profiles) && profilesById == old(profilesById)
      ensures selectedProfile == old(selectedProfile)
      ensures old(Valid()) ==> Valid()
    {
      if Valid() {
        IndexedPrepend(temp, events, eventsById, EventKey);
      }
      var newById := eventsById[temp.id := temp];
      events, eventsById := [temp] + events, newById;
    }

    /** The `set` after a successful creation: the map entry of the temporary
        id gives way to the created record, which also takes the temporary
        event's place in the list (or goes in front when nothing had that
        place). */
    method ConfirmTemp(tempId: Id, created: CachedEvent)
      modifies this
      ensures var replaced := ReplaceWhere(old(events), EventKey, tempId, created);
              events == if HasEvent(replaced, created.id) then replaced else [created] + replaced
      ensures eventsById == (old(eventsById) - {tempId})[created.id := created]
      ensures profiles == old(profiles) && profilesById == old(profilesById)
      ensures selectedProfile == old(selectedProfile)
      ensures old(Valid()) && tempId in old(eventsById) ==> Valid()
    {
      if Valid() && tempId in eventsById {
        IndexedReplace(events, eventsById, tempId, created, EventKey);
      }
      var newById := eventsById - {tempId};
      newById := newById[created.id := created];
      var newEvents := ReplaceWhere(events, EventKey, tempId, created);
      var found := HasEvent(newEvents, created.id);
      var finalEvents := if found then newEvents else [created] + newEvents;
      events, eventsById := finalEvents, newById;
    }

    /** The `set` after a failed creation: the temporary id leaves list and
        map. */
    method DropTemp(tempId: Id)
      modifies this
      ensures events == RemoveWhere(old(events), EventKey, tempId)
      ensures eventsById == old(eventsById) - {tempId}
      ensures profiles == old(profiles) && profilesById == old(profilesById)
      ensures selectedProfile == old(selectedProfile)
      ensures old(Valid()) ==> Valid()
    {
      if Valid() {
        IndexedRemove(events, eventsById, tempId, EventKey);
      }
      var evs := RemoveWhere(events, EventKey, tempId);
      var newById := eventsById - {tempId};
      events, eventsById := evs, newById;
    }

    /** `createEvent(payload)`. When the event belongs on screen
        (ShouldInsert), a temporary event under `tempId` is put at the front
        of the list and into the map; on success it is replaced by the
        server's record, on failure removed again. When it does not belong
        there, the cache is left alone and the events are fetched again
        (refetch) only if the created event includes the selected profile.
        `r` is the created record, or None when the failure is rethrown. */
    method CreateEvent(payload: EventPayload, tempId: Id, createdAt: string, updatedAt: string,
                       api: ApiOutcome<CachedEvent>)
      returns (r: Option<CachedEvent>, refetch: Option<Id>)
      modifies this
      ensures profiles == old(profiles) && profilesById == old(profilesById)
      ensures selectedProfile == old(selectedProfile)
      ensures r == (if api.Success? then Some(api.record) else None)
      ensures !ShouldInsert(old(selectedProfile), payload) ==>
        && events == old(events) && eventsById == old(eventsById)
        && var sel := SelectedId(old(selectedProfile)).value;
           refetch == (if api.Success? && sel in NormalizeIds(api.record.profiles) then Some(sel) else None)
      ensures ShouldInsert(old(selectedProfile), payload) ==> refetch.None?
      ensures ShouldInsert(old(selectedProfile), payload) && api.Success? ==>
        var created := api.record;
        && events == [created] + ReplaceWhere(old(events), EventKey, tempId, created)
        && eventsById == (old(eventsById) - {tempId})[created.id := created]
      ensures ShouldInsert(old(selectedProfile), payload) && api.Failure? ==>
        && events == RemoveWhere(old(events), EventKey, tempId)
        && eventsById == old(eventsById) - {tempId}
      ensures old(Valid()) ==> Valid()
    {
      var profileIds := payload.profiles.GetOr([]);
      var tempEvent := TempEvent(payload, tempId, profilesById, createdAt, updatedAt);
      var currentSelectedId := SelectedId(selectedProfile);
      var shouldInsert := currentSelectedId.None? || currentSelectedId.value in profileIds;
      ghost var events0, byId0 := events, eventsById;

      if shouldInsert {
        InsertTemp(tempEvent);
      }

      refetch := None;
      match api {
        case Success(created) =>
          var createdIds := NormalizeIds(created.profiles);
          if shouldInsert {
            ReplaceWhereCons(tempEvent, events0, EventKey, tempId, created);
            ConfirmTemp(tempId, created);
            assert (byId0[tempId := tempEvent] - {tempId}) == byId0 - {tempId};
          } else {
            var profile := selectedProfile;
            if profile.Some? && profile.value.id in createdIds {
              refetch := Some(profile.value.id);
            }
          }
          r := Some(created);
        case Failure =>
          if shouldInsert {
            RemoveWhereCons(tempEvent, events0, EventKey, tempId);
            DropTemp(tempId);
          }
          r := None;
      }
    }

    /** The `set` of `updateEvent` and of its rollback: `rec` goes into the
        map under `eventId` and replaces the list entries with that id. */
    method PutEvent(eventId: Id, rec: CachedEvent)
      modifies this
      ensures events == ReplaceWhere(old(events), EventKey, eventId, rec)
      ensures eventsById == old(eventsById)[eventId := rec]
      ensures profiles == old(profiles) && profilesById == old(profilesById)
      ensures selectedProfile == old(selectedProfile)
      ensures old(Valid()) && eventId in old(eventsById) && rec.id == eventId ==> Valid()
    {
      if Valid() && eventId in eventsById && rec.id == eventId {
        IndexedUpdate(events, eventsById, rec, EventKey);
      }
      var newById := eventsById[eventId := rec];
      var newEvents := ReplaceWhere(events, EventKey, eventId, rec);
      events, eventsById := newEvents, newById;
    }

    /** `updateEvent(eventId, payload)`. An event the cache does not hold is
        only sent to the server. Otherwise the cached record is replaced at
        once by its Patched version, in list and map, and put back if the
        server rejects the change. After a success the selected profile's
        events are fetched again (refetch); `ok` is false when the failure is
        rethrown. */
    method UpdateEvent(eventId: Id, payload: EventPayload, now: string, api: ApiOutcome<()>)
      returns (ok: bool, refetch: Option<Id>)
      modifies this
      ensures profiles == old(profiles) && profilesById == old(profilesById)
      ensures selectedProfile == old(selectedProfile)
      ensures ok == api.Success?
      ensures refetch == (if api.Success? && old(selectedProfile).Some? then Some(old(selectedProfile).value.id) else None)
      ensures eventId !in old(eventsById) ==> events == old(events) && eventsById == old(eventsById)
      ensures eventId in old(eventsById) && api.Success? ==>
        var u := Patched(old(eventsById)[eventId], payload, old(profilesById), now);
        && events == ReplaceWhere(old(events), EventKey, eventId, u)
        && eventsById == old(eventsById)[eventId := u]
      ensures old(Valid()) && eventId in old(eventsById) && api.Failure? ==>
        && events == ReplaceWhere(old(events), EventKey, eventId, old(eventsById)[eventId])
        && eventsById == old(eventsById)
      ensures old(Valid()) ==> Valid()
    {
      ghost var valid := Valid();
      if eventId !in eventsById {
        ok := api.Success?;
        refetch := if ok && selectedProfile.Some? then Some(selectedProfile.value.id) else None;
        return;
      }
      var prev := eventsById[eventId];
      var updated := Patch(prev, payload, profilesById, now);
      ghost var events0, byId0 := events, eventsById;
      PutEvent(eventId, updated);

      if api.Success? {
        ok := true;
        refetch := if selectedProfile.Some? then Some(selectedProfile.value.id) else None;
      } else {
        if valid {
          ReplaceWhereTwice(events0, EventKey, eventId, updated, prev);
        }
        PutEvent(eventId, prev);
        assert eventsById == byId0;
        ok, refetch := false, None;
      }
    }
  }

  /** The merge `updateEvent` performs on a copy of the cached record, field
      by field: each field the payload defines is overwritten, then the update
      time is set. */
  method Patch(prev: CachedEvent, payload: EventPayload, byId: map<Id, ClientProfile>, now: string)
    returns (updated: CachedEvent)
    ensures updated == Patched(prev, payload, byId, now)
  {
    updated := prev;
    if payload.title.Some? {
      updated := updated.(title := payload.title.value);
    }
    if payload.eventTimezone.Some? {
      updated := updated.(eventTimezone := payload.eventTimezone.value);
    }
    if payload.startLocal.Some? {
      updated := updated.(start := payload.startLocal);
    }
    if payload.endLocal.Some? {
      updated := updated.(end := payload.endLocal);
    }
    if payload.profiles.Some? {
      updated := updated.(profiles := ProfileObjects(payload.profiles.value, byId));
    }
    updated := updated.(updatedAt := Some(now));
  }

  /** A rollback is exact when the cache held the event once (or only in
      copies equal to the map's): the list and map are as before the call. */
  lemma RollbackRestores(events: seq<CachedEvent>, eventsById: map<Id, CachedEvent>, eventId: Id)
    requires eventId in eventsById
    requires forall e :: e in events && e.id == eventId ==> e == eventsById[eventId]
    ensures ReplaceWhere(events, EventKey, eventId, eventsById[eventId]) == events
  {
    ReplaceWhereSame(events, EventKey, eventId, eventsById[eventId]);
  }

  /** A failed creation under a fresh temporary id leaves the cache exactly as
      it was: removing the temporary entry removes nothing else. */
  lemma FailedCreateRestores(events: seq<CachedEvent>, eventsById: map<Id, CachedEvent>, tempId: Id)
    requires Indexed(events, eventsById, EventKey)
    requires tempId !in eventsById
    ensures RemoveWhere(events, EventKey, tempId) == events
    ensures eventsById - {tempId} == eventsById
  {
    RemoveAbsent(events, EventKey, tempId);
  }

  /** A successful creation under a fresh temporary id puts the server's
      record in front of the untouched earlier entries and into the map, and
      leaves no trace of the temporary id. */
  lemma CreatedReplacesTemp(events: seq<CachedEvent>, eventsById: map<Id, CachedEvent>, tempId: Id,
                            created: CachedEvent)
    requires Indexed(events, eventsById, EventKey)
    requires tempId !in eventsById && created.id != tempId
    ensures [created] + ReplaceWhere(events, EventKey, tempId, created) == [created] + events
    ensures forall e :: e in [created] + events ==> e.id != tempId
    ensures created.id in eventsById[created.id := created] - {tempId}
  {
    ReplaceWhereSame(events, EventKey, tempId, created);
  }
}
