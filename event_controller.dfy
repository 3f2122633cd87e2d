/** backend/src/controllers/eventController.js: creating and updating events
    with their change log, listing a profile's events in a viewing time zone,
    and rendering an event's change log. */
module EventController {
  import opened Js
  import opened Seqs
  import opened Time
  import opened Http
  import opened Storage

  const ProfilesRequired := "Profiles required"
  const TimezoneRequired := "eventTimezone required"
  const LocalTimesRequired := "startLocal and endLocal required"
  const RangeRejected := "Can't pick a date that has passed"
  const EventNotFound := "Event not found"
  const ProfileNotFound := "Profile not found"
  const DefaultTitle := "Event"
  const DefaultLogTimezone := "UTC"

  // ---------------------------------------------------------------- create

  /** The JSON body of a create request; None is an absent field. */
  datatype CreateEventBody = CreateEventBody(
    profiles: Option<seq<Id>>,
    eventTimezone: Option<string>,
    startLocal: Option<string>,
    endLocal: Option<string>,
    title: Option<string>)

  datatype Bounds = Bounds(startUTC: Instant, endUTC: Instant)

  predicate HasProfiles(body: CreateEventBody) {
    body.profiles.Some? && |body.profiles.value| > 0
  }

  predicate HasLocalTimes(body: CreateEventBody) {
    Truthy(body.startLocal) && Truthy(body.endLocal)
  }

  /** The validation of a create request: the first rejection, checked in the
      order profiles, time zone, local times, range; or the converted bounds. */
  function CheckCreate(body: CreateEventBody, conv: Converter): (r: Reply<Bounds>)
    ensures r == BadRequest(ProfilesRequired) <==> !HasProfiles(body)
    ensures r == BadRequest(TimezoneRequired) <==> HasProfiles(body) && !Truthy(body.eventTimezone)
    ensures r == BadRequest(LocalTimesRequired)
        <==> HasProfiles(body) && Truthy(body.eventTimezone) && !HasLocalTimes(body)
    ensures r.Ok? || r.BadRequest?
    ensures r.Ok? ==>
      && HasProfiles(body) && Truthy(body.eventTimezone) && HasLocalTimes(body)
      && r.body.startUTC == conv.localToUTC(body.startLocal.value, body.eventTimezone.value)
      && r.body.endUTC == conv.localToUTC(body.endLocal.value, body.eventTimezone.value)
      && r.body.startUTC < r.body.endUTC
    ensures && HasProfiles(body) && Truthy(body.eventTimezone) && HasLocalTimes(body)
            && conv.localToUTC(body.startLocal.value, body.eventTimezone.value)
               < conv.localToUTC(body.endLocal.value, body.eventTimezone.value)
            ==> r == Ok(Bounds(conv.localToUTC(body.startLocal.value, body.eventTimezone.value),
                               conv.localToUTC(body.endLocal.value, body.eventTimezone.value)))
    ensures r == BadRequest(RangeRejected)
        <==> && HasProfiles(body) && Truthy(body.eventTimezone) && HasLocalTimes(body)
             && conv.localToUTC(body.endLocal.value, body.eventTimezone.value)
                <= conv.localToUTC(body.startLocal.value, body.eventTimezone.value)
  {
    if !HasProfiles(body) then BadRequest(ProfilesRequired)
    else if !Truthy(body.eventTimezone) then BadRequest(TimezoneRequired)
    else if !HasLocalTimes(body) then BadRequest(LocalTimesRequired)
    else
      var tz := body.eventTimezone.value;
      var startUTC := conv.localToUTC(body.startLocal.value, tz);
      var endUTC := conv.localToUTC(body.endLocal.value, tz);
      if endUTC <= startUTC then BadRequest(RangeRejected) else Ok(Bounds(startUTC, endUTC))
  }

  /** The event a successful create stores. */
  function NewEvent(body: CreateEventBody, b: Bounds, id: Id, createdAt: Instant, updatedAt: Instant): Event
    requires HasProfiles(body) && Truthy(body.eventTimezone)
  {
    Event(id, Or(body.title, DefaultTitle), body.profiles.value, body.eventTimezone.value,
          b.startUTC, b.endUTC, createdAt, updatedAt)
  }

  /** The creation entry: no previous side, no author, and the title as the
      request supplied it (not defaulted). */
  function CreationEntry(body: CreateEventBody, b: Bounds, logId: Id, eventId: Id, loggedAt: Instant): (l: LogEntry)
    requires HasProfiles(body) && Truthy(body.eventTimezone)
    ensures l.previous.None? && l.changedByProfile.None? && l.eventId == eventId
    ensures l.current.title == body.title
  {
    LogEntry(logId, eventId, None, loggedAt, None,
             Snapshot(Some(b.startUTC), Some(b.endUTC), body.eventTimezone, body.profiles, body.title))
  }

  /** POST /events. `eventId` and `logId` are the two generated ids, and
      `createdAt`, `updatedAt`, `loggedAt` the three clock readings. */
  method CreateEvent(db: Db, conv: Converter, body: CreateEventBody, eventId: Id, logId: Id,
                     createdAt: Instant, updatedAt: Instant, loggedAt: Instant)
    returns (r: Reply<Event>)
    modifies db
    ensures db.profiles == old(db.profiles)
    ensures CheckCreate(body, conv).BadRequest? ==>
      && r == BadRequest(CheckCreate(body, conv).message)
      && db.events == old(db.events) && db.logs == old(db.logs)
    ensures CheckCreate(body, conv).Ok? ==>
      var b := CheckCreate(body, conv).body;
      var ev := NewEvent(body, b, eventId, createdAt, updatedAt);
      && r == Created(ev)
      && db.events == old(db.events) + [ev]
      && db.logs == old(db.logs) + [CreationEntry(body, b, logId, eventId, loggedAt)]
    ensures old(db.Valid()) ==> db.Valid()
  {
    if body.profiles.None? || |body.profiles.value| == 0 {
      return BadRequest(ProfilesRequired);
    }
    if !Truthy(body.eventTimezone) {
      return BadRequest(TimezoneRequired);
    }
    if !Truthy(body.startLocal) || !Truthy(body.endLocal) {
      return BadRequest(LocalTimesRequired);
    }
    var tz := body.eventTimezone.value;
    var startUTC := conv.localToUTC(body.startLocal.value, tz);
    var endUTC := conv.localToUTC(body.endLocal.value, tz);
    if endUTC <= startUTC {
      return BadRequest(RangeRejected);
    }

    var events := db.events;
    var newEvent := Event(eventId, Or(body.title, DefaultTitle), body.profiles.value, tz,
                          startUTC, endUTC, createdAt, updatedAt);
    events := events + [newEvent];
    db.events := events;

    var logs := db.logs;
    logs := logs + [LogEntry(logId, newEvent.id, None, loggedAt, None,
                             Snapshot(Some(startUTC), Some(endUTC), body.eventTimezone, body.profiles, body.title))];
    db.logs := logs;

    r := Created(newEvent);
  }

  // ---------------------------------------------------------------- update

  /** The JSON body of an update request; None is an absent field. */
  datatype UpdateEventBody = UpdateEventBody(
    startLocal: Option<string>,
    endLocal: Option<string>,
    eventTimezone: Option<string>,
    profiles: Option<seq<Id>>,
    title: Option<string>,
    changedBy: Option<Id>)

  /** The record after the field merge: the time zone first, then each
      supplied local time converted in the resulting zone, then the
      participants, then the title. A falsy field keeps the stored value; a
      supplied participant array, even an empty one, replaces it. */
  function Merge(ev: Event, body: UpdateEventBody, conv: Converter): (m: Event)
    ensures m.id == ev.id && m.createdAtUTC == ev.createdAtUTC && m.updatedAtUTC == ev.updatedAtUTC
    ensures m.eventTimezone == Or(body.eventTimezone, ev.eventTimezone)
    ensures m.startUTC == if Truthy(body.startLocal)
                          then conv.localToUTC(body.startLocal.value, m.eventTimezone)
                          else ev.startUTC
    ensures m.endUTC == if Truthy(body.endLocal)
                        then conv.localToUTC(body.endLocal.value, m.eventTimezone)
                        else ev.endUTC
    ensures m.profiles == body.profiles.GetOr(ev.profiles)
    ensures m.title == Or(body.title, ev.title)
  {
    var e1 := if Truthy(body.eventTimezone) then ev.(eventTimezone := body.eventTimezone.value) else ev;
    var e2 := if Truthy(body.startLocal)
              then e1.(startUTC := conv.localToUTC(body.startLocal.value, e1.eventTimezone)) else e1;
    var e3 := if Truthy(body.endLocal)
              then e2.(endUTC := conv.localToUTC(body.endLocal.value, e2.eventTimezone)) else e2;
    var e4 := if body.profiles.Some? then e3.(profiles := body.profiles.value) else e3;
    if Truthy(body.title) then e4.(title := body.title.value) else e4
  }

  /** PUT /events/:eventId. `logId` is the generated log id, `updatedAt` and
      `loggedAt` the two clock readings. */
  method UpdateEvent(db: Db, conv: Converter, eventId: Id, body: UpdateEventBody, logId: Id,
                     updatedAt: Instant, loggedAt: Instant)
    returns (r: Reply<Event>)
    modifies db
    ensures db.profiles == old(db.profiles)
    ensures IndexOfEvent(old(db.events), eventId).None? ==>
      r == NotFound(EventNotFound) && db.events == old(db.events) && db.logs == old(db.logs)
    ensures IndexOfEvent(old(db.events), eventId).Some? ==>
      var i := IndexOfEvent(old(db.events), eventId).value;
      var before := old(db.events)[i];
      var merged := Merge(before, body, conv);
      if merged.endUTC <= merged.startUTC then
        r == BadRequest(RangeRejected) && db.events == old(db.events) && db.logs == old(db.logs)
      else
        var saved := merged.(updatedAtUTC := updatedAt);
        && r == Ok(saved)
        && db.events == old(db.events)[i := saved]
        && db.logs == old(db.logs) + [LogEntry(logId, eventId, OrNull(body.changedBy), loggedAt,
                                               Some(SnapshotOf(before)), SnapshotOf(saved))]
    ensures old(db.Valid()) ==> db.Valid()
  {
    var allEvents := db.events;
    var found := IndexOfEvent(allEvents, eventId);
    if found.None? {
      return NotFound(EventNotFound);
    }
    var i := found.value;
    var ev := allEvents[i];
    var prev := SnapshotOf(ev);

    if Truthy(body.eventTimezone) {
      ev := ev.(eventTimezone := body.eventTimezone.value);
    }
    if Truthy(body.startLocal) {
      ev := ev.(startUTC := conv.localToUTC(body.startLocal.value, ev.eventTimezone));
    }
    if Truthy(body.endLocal) {
      ev := ev.(endUTC := conv.localToUTC(body.endLocal.value, ev.eventTimezone));
    }
    if body.profiles.Some? {
      ev := ev.(profiles := body.profiles.value);
    }
    if Truthy(body.title) {
      ev := ev.(title := body.title.value);
    }

    if ev.endUTC <= ev.startUTC {
      return BadRequest(RangeRejected);
    }

    ev := ev.(updatedAtUTC := updatedAt);
    allEvents := allEvents[i := ev];
    db.events := allEvents;
    assert db.EventIds() == old(db.EventIds()) by {
      assert forall e :: e in db.events ==> e.id in old(db.EventIds()) by {
        forall e | e in db.events ensures e.id in old(db.EventIds()) {
          var k :| 0 <= k < |db.events| && db.events[k] == e;
          assert old(db.events)[k] in old(db.events);
        }
      }
      forall e | e in old(db.events) ensures e.id in db.EventIds() {
        var k :| 0 <= k < |old(db.events)| && old(db.events)[k] == e;
        assert db.events[k] in db.events;
      }
    }

    var logs := db.logs;
    logs := logs + [LogEntry(logId, ev.id, OrNull(body.changedBy), loggedAt, Some(prev), SnapshotOf(ev))];
    db.logs := logs;

    r := Ok(ev);
  }

  // ---------------------------------------------------------------- list

  datatype ProfileInfo = ProfileInfo(id: Id, name: string, timezone: string)

  /** An event as listed: its instants rendered in the viewing zone. */
  datatype EventView = EventView(
    id: Id,
    title: string,
    profiles: seq<Id>,
    eventTimezone: string,
    start: string,
    end: string,
    createdAt: string,
    updatedAt: string)

  datatype ProfileEvents = ProfileEvents(profile: ProfileInfo, events: seq<EventView>)

  /** `allEvents.filter(e => e.profiles.includes(profileId))`. */
  function EventsOf(events: seq<Event>, profileId: Id): seq<Event> {
    Filter(events, (e: Event) => profileId in e.profiles)
  }

  function ViewOf(e: Event, conv: Converter, tz: string): EventView {
    EventView(e.id, e.title, e.profiles, e.eventTimezone,
              conv.utcToTz(e.startUTC, tz), conv.utcToTz(e.endUTC, tz),
              conv.utcToTz(e.createdAtUTC, tz), conv.utcToTz(e.updatedAtUTC, tz))
  }

  function Views(events: seq<Event>, conv: Converter, tz: string): (r: seq<EventView>)
    ensures |r| == |events|
  {
    seq(|events|, i requires 0 <= i < |events| => ViewOf(events[i], conv, tz))
  }

  /** GET /events/profile/:profileId?tz= . */
  function ListEventsForProfile(profiles: seq<Profile>, events: seq<Event>, conv: Converter,
                                profileId: Id, tz: Option<string>): (r: Reply<ProfileEvents>)
    ensures r.Ok? || r.NotFound?
    ensures r.NotFound? <==> IndexOfProfile(profiles, profileId).None?
    ensures r.NotFound? ==> r.message == ProfileNotFound
    ensures r.Ok? ==> r.body.profile.id == profileId
    ensures r.Ok? ==> |r.body.events| == |EventsOf(events, profileId)|
  {
    match IndexOfProfile(profiles, profileId)
    case None => NotFound(ProfileNotFound)
    case Some(i) =>
      var p := profiles[i];
      var viewTz := Or(tz, p.timezone);
      Ok(ProfileEvents(ProfileInfo(p.id, p.name, p.timezone), Views(EventsOf(events, profileId), conv, viewTz)))
  }

  /** Exactly the profile's events are listed, each rendered in the viewing
      zone, which defaults to the profile's own. */
  lemma ListEventsExactly(profiles: seq<Profile>, events: seq<Event>, conv: Converter,
                          profileId: Id, tz: Option<string>)
    requires IndexOfProfile(profiles, profileId).Some?
    ensures var r := ListEventsForProfile(profiles, events, conv, profileId, tz);
            var viewTz := Or(tz, profiles[IndexOfProfile(profiles, profileId).value].timezone);
            && r.Ok?
            && (forall e :: e in events && profileId in e.profiles ==> ViewOf(e, conv, viewTz) in r.body.events)
            && (forall v :: v in r.body.events ==>
                  exists e :: e in events && profileId in e.profiles && v == ViewOf(e, conv, viewTz))
  {
    var viewTz := Or(tz, profiles[IndexOfProfile(profiles, profileId).value].timezone);
    var es := EventsOf(events, profileId);
    var vs := Views(es, conv, viewTz);
    forall e | e in events && profileId in e.profiles
      ensures ViewOf(e, conv, viewTz) in vs
    {
      var k :| 0 <= k < |es| && es[k] == e;
      assert vs[k] == ViewOf(e, conv, viewTz);
    }
    forall v | v in vs
      ensures exists e :: e in events && profileId in e.profiles && v == ViewOf(e, conv, viewTz)
    {
      var k :| 0 <= k < |vs| && vs[k] == v;
      assert es[k] in es;
    }
  }

  /** The listing keeps the stored order: listing a concatenation of tables
      lists the first part's events before the second's. */
  lemma ListEventsInStoredOrder(profiles: seq<Profile>, events1: seq<Event>, events2: seq<Event>,
                                conv: Converter, profileId: Id, tz: Option<string>)
    requires IndexOfProfile(profiles, profileId).Some?
    ensures ListEventsForProfile(profiles, events1 + events2, conv, profileId, tz).body.events
         == ListEventsForProfile(profiles, events1, conv, profileId, tz).body.events
          + ListEventsForProfile(profiles, events2, conv, profileId, tz).body.events
  {
    FilterAppend(events1, events2, (e: Event) => profileId in e.profiles);
  }

  /** A known profile that takes part in no event gets an empty list, not an
      error. */
  lemma ListEventsNoneIsEmpty(profiles: seq<Profile>, events: seq<Event>, conv: Converter,
                              profileId: Id, tz: Option<string>)
    requires IndexOfProfile(profiles, profileId).Some?
    requires forall e :: e in events ==> profileId !in e.profiles
    ensures ListEventsForProfile(profiles, events, conv, profileId, tz).Ok?
    ensures ListEventsForProfile(profiles, events, conv, profileId, tz).body.events == []
  {
    FilterKeepsNone(events, (e: Event) => profileId in e.profiles);
  }

  // ---------------------------------------------------------------- logs

  datatype Author = Author(id: Id, name: string)

  /** One side of a rendered diff. */
  datatype SnapshotView = SnapshotView(
    start: Option<string>,
    end: Option<string>,
    title: Option<string>,
    eventTimezone: Option<string>,
    profiles: Option<seq<Id>>)

  datatype LogView = LogView(
    id: Id,
    changedBy: Option<Author>,
    timestamp: string,
    previous: SnapshotView,
    current: SnapshotView)

  /** `allLogs.filter(l => l.event === eventId)`. */
  function LogsOf(logs: seq<LogEntry>, eventId: Id): seq<LogEntry> {
    Filter(logs, (l: LogEntry) => l.eventId == eventId)
  }

  /** The author reference: `{_id, name}` of the first profile whose id is the
      recorded one, or null when there is none (or no author was recorded). */
  function ResolveAuthor(profiles: seq<Profile>, who: Option<Id>): (a: Option<Author>)
    ensures a.Some? <==> who.Some? && IndexOfProfile(profiles, who.value).Some?
    ensures a.Some? ==>
      && a.value.id == who.value
      && a.value.name == profiles[IndexOfProfile(profiles, who.value).value].name
  {
    match who
    case None => None
    case Some(id) =>
      match IndexOfProfile(profiles, id)
      case None => None
      case Some(i) => Some(Author(profiles[i].id, profiles[i].name))
  }

  /** A stored diff side rendered in `tz`; a null side renders as `{}`. The
      bounds appear only when recorded; the other fields pass through. */
  function RenderSnapshot(s: Option<Snapshot>, conv: Converter, tz: string): (v: SnapshotView)
    ensures v.start.Some? <==> s.Some? && s.value.startUTC.Some?
    ensures v.start.Some? ==> v.start.value == conv.utcToTz(s.value.startUTC.value, tz)
    ensures v.end.Some? <==> s.Some? && s.value.endUTC.Some?
    ensures v.end.Some? ==> v.end.value == conv.utcToTz(s.value.endUTC.value, tz)
    ensures s.None? ==> v.title.None? && v.eventTimezone.None? && v.profiles.None?
    ensures s.Some? ==> && v.title == s.value.title
                        && v.eventTimezone == s.value.eventTimezone
                        && v.profiles == s.value.profiles
  {
    var p := s.GetOr(Snapshot(None, None, None, None, None));
    SnapshotView(
      if p.startUTC.Some? then Some(conv.utcToTz(p.startUTC.value, tz)) else None,
      if p.endUTC.Some? then Some(conv.utcToTz(p.endUTC.value, tz)) else None,
      p.title, p.eventTimezone, p.profiles)
  }

  function RenderLog(l: LogEntry, profiles: seq<Profile>, conv: Converter, tz: string): LogView {
    LogView(l.id, ResolveAuthor(profiles, l.changedByProfile), conv.utcToTz(l.timestampUTC, tz),
            RenderSnapshot(l.previous, conv, tz), RenderSnapshot(Some(l.current), conv, tz))
  }

  /** GET /events/:eventId/logs?tz= : the event's entries in stored order,
      rendered in `tz`, which defaults to "UTC". */
  function GetEventLogs(logs: seq<LogEntry>, profiles: seq<Profile>, conv: Converter,
                        eventId: Id, tz: Option<string>): (r: seq<LogView>)
    ensures |r| == |LogsOf(logs, eventId)|
    ensures forall i :: 0 <= i < |r| ==> r[i].id == LogsOf(logs, eventId)[i].id
  {
    var zone := Or(tz, DefaultLogTimezone);
    var ls := LogsOf(logs, eventId);
    seq(|ls|, i requires 0 <= i < |ls| => RenderLog(ls[i], profiles, conv, zone))
  }

  /** The audit trail grows at the end: appending an entry for this event adds
      exactly its rendering after the earlier ones; an entry for another event
      changes nothing. */
  lemma GetEventLogsAppend(logs: seq<LogEntry>, entry: LogEntry, profiles: seq<Profile>,
                           conv: Converter, eventId: Id, tz: Option<string>)
    ensures GetEventLogs(logs + [entry], profiles, conv, eventId, tz)
         == GetEventLogs(logs, profiles, conv, eventId, tz)
          + (if entry.eventId == eventId then [RenderLog(entry, profiles, conv, Or(tz, DefaultLogTimezone))] else [])
  {
    var p := (l: LogEntry) => l.eventId == eventId;
    FilterAppend(logs, [entry], p);
    assert Filter([entry], p) == if entry.eventId == eventId then [entry] else [];
  }

  /** The rendering zone only affects the rendered instants: the authors,
      titles, zones and participants of every entry are the same in any two
      zones. */
  lemma GetEventLogsZoneOnlyRendersTimes(logs: seq<LogEntry>, profiles: seq<Profile>, conv: Converter,
                                         eventId: Id, tz1: Option<string>, tz2: Option<string>)
    ensures var r1 := GetEventLogs(logs, profiles, conv, eventId, tz1);
            var r2 := GetEventLogs(logs, profiles, conv, eventId, tz2);
            && |r1| == |r2|
            && forall i :: 0 <= i < |r1| ==>
                 && r1[i].changedBy == r2[i].changedBy
                 && r1[i].previous.(start := None, end := None) == r2[i].previous.(start := None, end := None)
                 && r1[i].current.(start := None, end := None) == r2[i].current.(start := None, end := None)
  {
  }
}
