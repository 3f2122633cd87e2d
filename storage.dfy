/** The records the server stores and the three tables it keeps them in.
    backend/src/utils/jsonStorage.js keeps each table as a JSON file that every
    request reads whole and writes back whole; here the tables are fields of
    one `Db` object that the controllers read and reassign. */
module Storage {
  import opened Js
  import opened Seqs
  import opened Time

  datatype Profile = Profile(
    id: Id,
    name: string,
    timezone: string,
    createdAt: Instant,
    updatedAt: Instant)

  datatype Event = Event(
    id: Id,
    title: string,
    profiles: seq<Id>,
    eventTimezone: string,
    startUTC: Instant,
    endUTC: Instant,
    createdAtUTC: Instant,
    updatedAtUTC: Instant)

  /** One side of a change-log diff. A field is None when the stored JSON
      object lacks it (a creation request without a title, say). */
  datatype Snapshot = Snapshot(
    startUTC: Option<Instant>,
    endUTC: Option<Instant>,
    eventTimezone: Option<string>,
    profiles: Option<seq<Id>>,
    title: Option<string>)
  {
    /** Both bounds are recorded and the range is not empty. */
    predicate Ordered() {
      startUTC.Some? && endUTC.Some? && startUTC.value < endUTC.value
    }
  }

  /** A change-log entry; `previous` is None (null) for a creation. */
  datatype LogEntry = LogEntry(
    id: Id,
    eventId: Id,
    changedByProfile: Option<Id>,
    timestampUTC: Instant,
    previous: Option<Snapshot>,
    current: Snapshot)

  /** The five audited fields of an event. */
  function SnapshotOf(e: Event): (s: Snapshot)
    ensures s.Ordered() <==> e.startUTC < e.endUTC
  {
    Snapshot(Some(e.startUTC), Some(e.endUTC), Some(e.eventTimezone), Some(e.profiles), Some(e.title))
  }

  /** `events.findIndex(e => e._id === id)`. */
  function IndexOfEvent(events: seq<Event>, id: Id): Option<nat> {
    FindIndex(events, (e: Event) => e.id == id)
  }

  /** `profiles.findIndex(p => p._id === id)`; `find` returns the element at it. */
  function IndexOfProfile(profiles: seq<Profile>, id: Id): Option<nat> {
    FindIndex(profiles, (p: Profile) => p.id == id)
  }

  class Db {
    var profiles: seq<Profile>
    var events: seq<Event>
    var logs: seq<LogEntry>

    ghost function EventIds(): set<Id>
      reads this
    {
      set e | e in events :: e.id
    }

    /** What the controllers maintain: every profile is named, every event
        ends after it starts, and every log entry records an ordered range for
        an event that exists. */
    ghost predicate Valid()
      reads this
    {
      && (forall p :: p in profiles ==> p.name != "")
      && (forall e :: e in events ==> e.startUTC < e.endUTC)
      && (forall l :: l in logs ==> l.current.Ordered() && l.eventId in EventIds())
    }

    /** The three files as jsonStorage initialises them: empty arrays. */
    constructor ()
      ensures Valid()
      ensures profiles == [] && events == [] && logs == []
    {
      profiles, events, logs := [], [], [];
    }
  }
}
