/** frontend/src/hooks/useEvents.js: the store's events in start order, and
    the refresh of the selected profile's events. */
module UseEvents {
  import opened Js
  import opened Seqs
  import opened Sorting
  import opened ClientStore

  /** `Date.parse`: the instant a string denotes, None for NaN. */
  type Parser = string -> Option<int>

  /** `Date.parse(e.start) || 0`: an absent or unparseable start sorts as 0. */
  function StartKey(e: CachedEvent, parse: Parser): int {
    match e.start
    case None => 0
    case Some(s) => parse(s).GetOr(0)
  }

  /** The comparator `(a, b) => ta - tb`, read as "`a` may precede `b`". */
  function ByStart(parse: Parser): (CachedEvent, CachedEvent) -> bool {
    (a: CachedEvent, b: CachedEvent) => StartKey(a, parse) <= StartKey(b, parse)
  }

  /** `sortedEvents`: a sorted copy of the list, nothing for a missing list;
      the store's own list is not reordered. */
  function SortedEvents(events: Option<seq<CachedEvent>>, parse: Parser): (r: seq<CachedEvent>)
    ensures events.None? ==> r == []
    ensures events.Some? ==> multiset(r) == multiset(events.value)
  {
    if events.None? then [] else SortBy(events.value, ByStart(parse))
  }

  lemma ByStartIsTotalPreorder(parse: Parser)
    ensures Total(ByStart(parse)) && Transitive(ByStart(parse))
  {
    var order := ByStart(parse);
    forall a: CachedEvent, b: CachedEvent ensures order(a, b) || order(b, a) {
      assert StartKey(a, parse) <= StartKey(b, parse) || StartKey(b, parse) <= StartKey(a, parse);
    }
    forall a: CachedEvent, b: CachedEvent, c: CachedEvent | order(a, b) && order(b, c)
      ensures order(a, c)
    {
      assert StartKey(a, parse) <= StartKey(b, parse) <= StartKey(c, parse);
    }
  }

  /** The sorted events are the store's events, by nondecreasing start, with
      events of equal start in their original relative order. */
  lemma SortedEventsOrdered(events: seq<CachedEvent>, parse: Parser)
    ensures var r := SortedEvents(Some(events), parse);
            && multiset(r) == multiset(events)
            && (forall i, j :: 0 <= i < j < |r| ==> StartKey(r[i], parse) <= StartKey(r[j], parse))
            && (forall e :: Peers(r, e, ByStart(parse)) == Peers(events, e, ByStart(parse)))
  {
    ByStartIsTotalPreorder(parse);
    SortByIsSorted(events, ByStart(parse));
    forall e ensures Peers(SortedEvents(Some(events), parse), e, ByStart(parse)) == Peers(events, e, ByStart(parse)) {
      SortByIsStable(events, e, ByStart(parse));
    }
  }

  /** A request for `fetchEventsForProfile(profileId, tz)`. */
  datatype FetchRequest = FetchRequest(profileId: Id, tz: Option<string>)

  /** `refresh()`: nothing without a selected profile, otherwise a fetch of
      its events in the view zone. */
  function Refresh(selected: Option<ClientProfile>, viewTz: Option<string>): (r: Option<FetchRequest>)
    ensures r.None? <==> selected.None?
    ensures r.Some? ==> r.value.profileId == selected.value.id && r.value.tz == viewTz
  {
    match selected
    case None => None
    case Some(p) => Some(FetchRequest(p.id, viewTz))
  }
}
