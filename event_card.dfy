/** frontend/src/components/EventCard.jsx: the logic of an event card (the
    participant selection being edited, the participant count) and of its
    history dialog (LogsModal), which turns each change-log entry into names,
    added and removed participants, a one-line summary and the rows of
    changed fields. */
module EventCard {
  import opened Js
  import opened Seqs
  import opened Strings
  import opened ClientStore
  import Storage
  import Time
  import EventController

  /** The ids of the selection `Set`, in insertion order. */
  type Selection = seq<Id>

  /** `toggle(id)`: a selected id is removed, any other is added (at the end,
      where a `Set` puts a new element). */
  function Toggle(selected: Selection, id: Id): (r: Selection)
    ensures id in r <==> id !in selected
    ensures forall x :: x != id ==> (x in r <==> x in selected)
  {
    if id in selected then Filter(selected, x => x != id) else selected + [id]
  }

  /** The selection stays a set: toggling never duplicates an id. */
  lemma ToggleKeepsDistinct(selected: Selection, id: Id)
    requires Distinct(selected)
    ensures Distinct(Toggle(selected, id))
  {
    if id in selected {
      FilterDistinct(selected, x => x != id);
    }
  }

  /** Toggling twice restores the selected set; when the id was not selected
      the selection comes back exactly, order included. */
  lemma {:induction false} ToggleTwice(selected: Selection, id: Id)
    ensures forall x :: x in Toggle(Toggle(selected, id), id) <==> x in selected
    ensures id !in selected ==> Toggle(Toggle(selected, id), id) == selected
  {
    if id !in selected {
      assert id in selected + [id];
      FilterAppend(selected, [id], x => x != id);
      FilterKeepsAll(selected, x => x != id);
    }
  }

  /** `profileIds`: the event's participants as ids, a missing list being
      empty. */
  function ProfileIds(profiles: Option<seq<ProfileRef>>): seq<Id> {
    NormalizeIds(profiles.GetOr([]))
  }

  /** "<n> participant" with an "s" unless n is 1. */
  function ParticipantLabel(profiles: Option<seq<ProfileRef>>): (text: string)
    ensures NatToString(|ProfileIds(profiles)|) <= text
    ensures text[|text| - 1] == 's' <==> |ProfileIds(profiles)| != 1
  {
    var n := |ProfileIds(profiles)|;
    NatToString(n) + " participant" + (if n != 1 then "s" else "")
  }

  /** `String(p)` for a plain object. */
  const ObjectText := "[object Object]"

  /** `resolveName(p)`: "" for a falsy entry; for an id, the cached profile's
      name when it has one and otherwise the id; for a profile object, its
      name, else its id, else its string form. */
  function ResolveName(p: ProfileRef, byId: map<Id, ClientProfile>): (name: string)
    ensures p == RefId("") ==> name == ""
    ensures p != RefId("") ==> name != ""
    ensures p.RefId? && p.ref != "" && p.ref in byId && byId[p.ref].name != "" ==> name == byId[p.ref].name
    ensures p.RefId? && (p.ref !in byId || byId[p.ref].name == "") ==> name == p.ref
    ensures p.RefProfile? && p.profile.name != "" ==> name == p.profile.name
  {
    match p
    case RefId(id) =>
      if id == "" then ""
      else if id in byId && byId[id].name != "" then byId[id].name
      else id
    case RefProfile(pr) =>
      if pr.name != "" then pr.name else if pr.id != "" then pr.id else ObjectText
  }

  /** The names of one side's participants, a missing list being empty. */
  function Names(ids: Option<seq<Id>>, byId: map<Id, ClientProfile>): (names: seq<string>)
    ensures |names| == |ids.GetOr([])|
  {
    var ps := ids.GetOr([]);
    seq(|ps|, i requires 0 <= i < |ps| => ResolveName(RefId(ps[i]), byId))
  }

  /** The names of `ids` are the names of its members. */
  lemma NamesIn(ids: Option<seq<Id>>, byId: map<Id, ClientProfile>, x: string)
    ensures x in Names(ids, byId) <==> exists id :: id in ids.GetOr([]) && ResolveName(RefId(id), byId) == x
  {
    var ps := ids.GetOr([]);
    if x in Names(ids, byId) {
      var i :| 0 <= i < |ps| && Names(ids, byId)[i] == x;
      assert ps[i] in ps;
    }
    if exists id :: id in ps && ResolveName(RefId(id), byId) == x {
      var id :| id in ps && ResolveName(RefId(id), byId) == x;
      var i :| 0 <= i < |ps| && ps[i] == id;
      assert Names(ids, byId)[i] == x;
    }
  }

  /** The participants added by a change: current names the previous side
      lacks, in current order. */
  function Added(diff: EventController.LogView, byId: map<Id, ClientProfile>): (added: seq<string>)
    ensures forall x :: x in added <==>
              x in Names(diff.current.profiles, byId) && x !in Names(diff.previous.profiles, byId)
  {
    Without(Names(diff.current.profiles, byId), Names(diff.previous.profiles, byId))
  }

  /** The participants removed by a change: previous names the current side
      lacks, in previous order. */
  function Removed(diff: EventController.LogView, byId: map<Id, ClientProfile>): (removed: seq<string>)
    ensures forall x :: x in removed <==>
              x in Names(diff.previous.profiles, byId) && x !in Names(diff.current.profiles, byId)
  {
    Without(Names(diff.previous.profiles, byId), Names(diff.current.profiles, byId))
  }

  /** Both sides involve the same participants, in any order. */
  ghost predicate SameParticipants(diff: EventController.LogView) {
    forall id :: id in diff.previous.profiles.GetOr([]) <==> id in diff.current.profiles.GetOr([])
  }

  /** Names distribute over a split of the id list. */
  lemma NamesAppend(ids1: seq<Id>, ids2: seq<Id>, byId: map<Id, ClientProfile>)
    ensures Names(Some(ids1 + ids2), byId) == Names(Some(ids1), byId) + Names(Some(ids2), byId)
  {
    var l := Names(Some(ids1 + ids2), byId);
    var r := Names(Some(ids1), byId) + Names(Some(ids2), byId);
    forall i | 0 <= i < |l| ensures l[i] == r[i] {
      if i >= |ids1| {
        assert (ids1 + ids2)[i] == ids2[i - |ids1|];
      }
    }
  }

  /** Added names follow the current list: splitting it splits the added
      names at the same place. */
  lemma AddedKeepsCurrentOrder(diff: EventController.LogView, byId: map<Id, ClientProfile>,
                               ids1: seq<Id>, ids2: seq<Id>)
    requires diff.current.profiles == Some(ids1 + ids2)
    ensures var prev := Names(diff.previous.profiles, byId);
            Added(diff, byId) == Without(Names(Some(ids1), byId), prev) + Without(Names(Some(ids2), byId), prev)
  {
    NamesAppend(ids1, ids2, byId);
    WithoutAppend(Names(Some(ids1), byId), Names(Some(ids2), byId), Names(diff.previous.profiles, byId));
  }

  /** Removed names follow the previous list in the same way. */
  lemma RemovedKeepsPreviousOrder(diff: EventController.LogView, byId: map<Id, ClientProfile>,
                                  ids1: seq<Id>, ids2: seq<Id>)
    requires diff.previous.profiles == Some(ids1 + ids2)
    ensures var curr := Names(diff.current.profiles, byId);
            Removed(diff, byId) == Without(Names(Some(ids1), byId), curr) + Without(Names(Some(ids2), byId), curr)
  {
    NamesAppend(ids1, ids2, byId);
    WithoutAppend(Names(Some(ids1), byId), Names(Some(ids2), byId), Names(diff.current.profiles, byId));
  }

  /** A change that only reorders (or keeps) the participants adds and
      removes no one. */
  lemma ReorderAddsAndRemovesNone(diff: EventController.LogView, byId: map<Id, ClientProfile>)
    requires SameParticipants(diff)
    ensures Added(diff, byId) == [] && Removed(diff, byId) == []
  {
    var prev := Names(diff.previous.profiles, byId);
    var curr := Names(diff.current.profiles, byId);
    forall x ensures x in prev <==> x in curr {
      NamesIn(diff.previous.profiles, byId, x);
      NamesIn(diff.current.profiles, byId, x);
    }
    FilterKeepsNone(curr, x => x !in prev);
    FilterKeepsNone(prev, x => x !in curr);
  }

  /** With no previous participant list (a creation entry renders an empty
      previous side) every current participant counts as added, in order. */
  lemma CreationAddsEveryone(diff: EventController.LogView, byId: map<Id, ClientProfile>)
    requires diff.previous.profiles.None?
    ensures Added(diff, byId) == Names(diff.current.profiles, byId)
    ensures Removed(diff, byId) == []
  {
    FilterKeepsAll(Names(diff.current.profiles, byId), x => x !in Names(diff.previous.profiles, byId));
  }

  const Separator := " · "

  /** `summaryParts`: the removed names, then the added names, each part
      present only when its list is not empty. */
  function SummaryParts(removed: seq<string>, added: seq<string>): (parts: seq<string>)
    ensures |parts| == (if removed == [] then 0 else 1) + (if added == [] then 0 else 1)
  {
    (if |removed| > 0 then ["Removed: " + Join(removed, ", ")] else [])
    + (if |added| > 0 then ["Added: " + Join(added, ", ")] else [])
  }

  /** A join begins with its first part. */
  lemma JoinStartsWithFirst(parts: seq<string>, sep: string)
    requires parts != []
    ensures parts[0] <= Join(parts, sep)
  {
  }

  /** The bold summary line, shown only when some part exists. */
  function Summary(removed: seq<string>, added: seq<string>): (line: Option<string>)
    ensures line.None? <==> removed == [] && added == []
    ensures removed != [] ==> line.Some? && "Removed: " + Join(removed, ", ") <= line.value
    ensures removed != [] && added == [] ==> line == Some("Removed: " + Join(removed, ", "))
    ensures removed == [] && added != [] ==> line == Some("Added: " + Join(added, ", "))
    ensures removed != [] && added != [] ==>
              line == Some(("Removed: " + Join(removed, ", ")) + Separator + ("Added: " + Join(added, ", ")))
  {
    var parts := SummaryParts(removed, added);
    if |parts| > 0 then
      JoinStartsWithFirst(parts, Separator);
      assert |parts| == 2 ==> parts[1..] == [parts[1]];
      Some(Join(parts, Separator))
    else None
  }

  /** A change that leaves the participant set alone has no summary line. */
  lemma NoSummaryForSameParticipants(diff: EventController.LogView, byId: map<Id, ClientProfile>)
    requires SameParticipants(diff)
    ensures Summary(Removed(diff, byId), Added(diff, byId)).None?
  {
    ReorderAddsAndRemovesNone(diff, byId);
  }

  /** Which field rows the dialog shows. */
  datatype Changes = Changes(title: bool, start: bool, end: bool, timezone: bool)

  /** A row per field whose two sides differ under `!==` (a missing side
      differs from a present one). */
  function ChangeFlags(diff: EventController.LogView): (c: Changes)
    ensures diff.previous == diff.current ==> c == Changes(false, false, false, false)
  {
    Changes(diff.previous.title != diff.current.title,
            diff.previous.start != diff.current.start,
            diff.previous.end != diff.current.end,
            diff.previous.eventTimezone != diff.current.eventTimezone)
  }

  /** For an entry written by a successful update (both sides recorded in
      full), the title and time zone rows appear exactly when those fields
      changed, and a bound that kept its instant shows no row. */
  lemma ChangeFlagsOfUpdate(l: Storage.LogEntry, before: Storage.Event, after: Storage.Event,
                            profiles: seq<Storage.Profile>, conv: Time.Converter, tz: string)
    requires l.previous == Some(Storage.SnapshotOf(before))
    requires l.current == Storage.SnapshotOf(after)
    ensures var c := ChangeFlags(EventController.RenderLog(l, profiles, conv, tz));
            && (c.title <==> before.title != after.title)
            && (c.timezone <==> before.eventTimezone != after.eventTimezone)
            && (before.startUTC == after.startUTC ==> !c.start)
            && (before.endUTC == after.endUTC ==> !c.end)
  {
  }

  /** For a creation entry every recorded field shows a row: its previous
      side is empty. */
  lemma ChangeFlagsOfCreation(l: Storage.LogEntry, profiles: seq<Storage.Profile>,
                              conv: Time.Converter, tz: string)
    requires l.previous.None?
    requires l.current.Ordered()
    ensures var c := ChangeFlags(EventController.RenderLog(l, profiles, conv, tz));
            && c.start && c.end
            && (c.title <==> l.current.title.Some?)
            && (c.timezone <==> l.current.eventTimezone.Some?)
  {
  }
}
