/** backend/src/controllers/profileController.js: creating, listing and
    updating profiles. */
module ProfileController {
  import opened Js
  import opened Time
  import opened Http
  import opened Storage
  import opened Sorting

  const NameRequired := "Name required"
  const ProfileNotFound := "Profile not found"
  const DefaultTimezone := "UTC"

  /** POST /profiles. `id` is the generated id, `createdAt` and `updatedAt`
      the two clock readings. */
  method CreateProfile(db: Db, name: Option<string>, timezone: Option<string>, id: Id,
                       createdAt: Instant, updatedAt: Instant)
    returns (r: Reply<Profile>)
    modifies db
    ensures db.events == old(db.events) && db.logs == old(db.logs)
    ensures !Truthy(name) ==> r == BadRequest(NameRequired) && db.profiles == old(db.profiles)
    ensures Truthy(name) ==>
      var p := Profile(id, name.value, Or(timezone, DefaultTimezone), createdAt, updatedAt);
      r == Created(p) && db.profiles == old(db.profiles) + [p]
    ensures old(db.Valid()) ==> db.Valid()
  {
    if !Truthy(name) {
      return BadRequest(NameRequired);
    }
    var profiles := db.profiles;
    var newProfile := Profile(id, name.value, Or(timezone, DefaultTimezone), createdAt, updatedAt);
    profiles := profiles + [newProfile];
    db.profiles := profiles;
    r := Created(newProfile);
  }

  /** The comparator `(a, b) => a.name.localeCompare(b.name)`, given the
      locale's order on names as `le` ("`localeCompare(x, y) <= 0`"). */
  function ByName(le: (string, string) -> bool): (Profile, Profile) -> bool {
    (a: Profile, b: Profile) => le(a.name, b.name)
  }

  /** GET /profiles: the stored profiles sorted by name. The array sorted is
      the one just read, so the stored order is left as it was. */
  function ListProfiles(profiles: seq<Profile>, le: (string, string) -> bool): seq<Profile> {
    SortBy(profiles, ByName(le))
  }

  /** The listing is a permutation of the stored profiles, ordered by name,
      with equally named profiles in stored order. */
  lemma ListProfilesSorted(profiles: seq<Profile>, le: (string, string) -> bool)
    requires Total(le) && Transitive(le)
    ensures multiset(ListProfiles(profiles, le)) == multiset(profiles)
    ensures forall i, j :: 0 <= i < j < |ListProfiles(profiles, le)| ==>
              le(ListProfiles(profiles, le)[i].name, ListProfiles(profiles, le)[j].name)
    ensures forall p :: Peers(ListProfiles(profiles, le), p, ByName(le)) == Peers(profiles, p, ByName(le))
  {
    var order := ByName(le);
    forall a: Profile, b: Profile ensures order(a, b) || order(b, a) {
      assert le(a.name, b.name) || le(b.name, a.name);
    }
    forall a: Profile, b: Profile, c: Profile | order(a, b) && order(b, c) ensures order(a, c) {
      assert le(a.name, b.name) && le(b.name, c.name);
    }
    SortByIsSorted(profiles, order);
    forall p ensures Peers(ListProfiles(profiles, le), p, order) == Peers(profiles, p, order) {
      SortByIsStable(profiles, p, order);
    }
  }

  /** The profile after an update: time zone and name replaced only by truthy
      values, the id kept, the update time refreshed. */
  function Updated(p: Profile, timezone: Option<string>, name: Option<string>, now: Instant): (u: Profile)
    ensures u.id == p.id && u.createdAt == p.createdAt && u.updatedAt == now
    ensures u.timezone == (if Truthy(timezone) then timezone.value else p.timezone)
    ensures u.name == (if Truthy(name) then name.value else p.name)
  {
    p.(timezone := Or(timezone, p.timezone), name := Or(name, p.name), updatedAt := now)
  }

  /** PUT /profiles/:id. The first profile with the id is changed in place and
      the whole table written back. */
  method UpdateProfile(db: Db, id: Id, timezone: Option<string>, name: Option<string>, now: Instant)
    returns (r: Reply<Profile>)
    modifies db
    ensures db.events == old(db.events) && db.logs == old(db.logs)
    ensures IndexOfProfile(old(db.profiles), id).None? ==>
      r == NotFound(ProfileNotFound) && db.profiles == old(db.profiles)
    ensures IndexOfProfile(old(db.profiles), id).Some? ==>
      var i := IndexOfProfile(old(db.profiles), id).value;
      var u := Updated(old(db.profiles)[i], timezone, name, now);
      r == Ok(u) && db.profiles == old(db.profiles)[i := u]
    ensures old(db.Valid()) ==> db.Valid()
  {
    var profiles := db.profiles;
    var found := IndexOfProfile(profiles, id);
    if found.None? {
      return NotFound(ProfileNotFound);
    }
    var i := found.value;
    var profile := profiles[i];
    if Truthy(timezone) {
      profile := profile.(timezone := timezone.value);
    }
    if Truthy(name) {
      profile := profile.(name := name.value);
    }
    profile := profile.(updatedAt := now);
    profiles := profiles[i := profile];
    db.profiles := profiles;
    r := Ok(profile);
  }
}
