/** frontend/src/hooks/useProfiles.js: the profile list as the hook hands it
    out, and its search filter. EventCard.jsx filters its participant picker
    with the same expression over the store's list. */
module UseProfiles {
  import opened Js
  import opened Seqs
  import opened Strings
  import opened ClientStore

  /** `(query || "").trim().toLowerCase()` */
  function Query(query: Option<string>): string {
    Lower(Trim(query.GetOr("")))
  }

  /** The profiles whose lower-cased name contains `q`, in list order. */
  function NameMatches(profiles: seq<ClientProfile>, q: string): seq<ClientProfile> {
    Filter(profiles, (p: ClientProfile) => Contains(Lower(p.name), q))
  }

  /** `filteredProfiles(query)` over `profiles || []`: the whole list for a
      blank query, otherwise the profiles whose name contains the query,
      ignoring case and surrounding white space. */
  function FilteredProfiles(profiles: Option<seq<ClientProfile>>, query: Option<string>)
    : (r: seq<ClientProfile>)
    ensures |r| <= |profiles.GetOr([])|
    ensures forall p :: p in r <==>
              p in profiles.GetOr([]) && (Query(query) == "" || Contains(Lower(p.name), Query(query)))
  {
    var ps := profiles.GetOr([]);
    var q := Query(query);
    if q == "" then ps else NameMatches(ps, q)
  }

  /** A missing list yields nothing, whatever the query. */
  lemma MissingListIsEmpty(query: Option<string>)
    ensures FilteredProfiles(None, query) == []
  {
  }

  /** A query that is empty once trimmed returns the list itself. */
  lemma BlankQueryKeepsAll(profiles: Option<seq<ClientProfile>>, query: Option<string>)
    requires Trim(query.GetOr("")) == ""
    ensures FilteredProfiles(profiles, query) == profiles.GetOr([])
  {
  }

  /** The result keeps the list's order: filtering distributes over
      concatenation. */
  lemma FilterKeepsOrder(ps1: seq<ClientProfile>, ps2: seq<ClientProfile>, query: Option<string>)
    ensures FilteredProfiles(Some(ps1 + ps2), query)
         == FilteredProfiles(Some(ps1), query) + FilteredProfiles(Some(ps2), query)
  {
    var q := Query(query);
    if q != "" {
      FilterAppend(ps1, ps2, (p: ClientProfile) => Contains(Lower(p.name), q));
    }
  }

  /** The filter ignores the case of the query. */
  lemma CaseInsensitive(profiles: Option<seq<ClientProfile>>, query: string)
    ensures FilteredProfiles(profiles, Some(Lower(query))) == FilteredProfiles(profiles, Some(query))
  {
    TrimLower(query);
    LowerLower(Trim(query));
  }
}
