/** The mentor directory (src/pages/FindMentorPage/index.tsx): the catalog
    without the signed-in user, filtered by exact region, exact major and a
    case-insensitive name-or-university search, with de-duplicated option lists. */
module FindMentorPage {
  import opened Types
  import opened Text
  import opened Seqs
  import MockData

  datatype Filters = Filters(region: string, major: string, search: string)

  const NoFilters := Filters("", "", "")

  /** The search box: empty, or found in the lower-cased name or university. */
  predicate MatchesSearch(m: Mentor, search: string)
    ensures search == "" ==> MatchesSearch(m, search)
    ensures Contains(m.name, search) || Contains(m.university, search) ==> MatchesSearch(m, search)
  {
    search == "" || IncludesIgnoringCase(m.name, search) || IncludesIgnoringCase(m.university, search)
  }

  /** All three filters pass; the empty filters pass everyone, and a set region
      or major passes only that exact value. */
  predicate Matches(m: Mentor, f: Filters)
    ensures f == NoFilters ==> Matches(m, f)
    ensures Matches(m, f) ==> (f.region == "" || m.region == f.region) && (f.major == "" || m.major == f.major)
  {
    && (f.region == "" || m.region == f.region)
    && (f.major == "" || m.major == f.major)
    && MatchesSearch(m, f.search)
  }

  /** `mentorsToList`: every catalog mentor but the signed-in user, in catalog
      order and as often as in the catalog. */
  function Listed(catalog: seq<Mentor>, currentUserId: int): (r: seq<Mentor>)
    ensures forall m :: multiset(r)[m] == if m.id != currentUserId then multiset(catalog)[m] else 0
    ensures forall m :: m in r <==> m in catalog && m.id != currentUserId
    ensures IsSubsequence(r, catalog)
  {
    Filter(catalog, (m: Mentor) => m.id != currentUserId)
  }

  /** `filteredMentors`: exactly the catalog mentors other than the signed-in
      user that pass all three filters, in catalog order, each as often as in
      the catalog. */
  function FilteredMentors(catalog: seq<Mentor>, currentUserId: int, f: Filters): (r: seq<Mentor>)
    ensures forall m :: multiset(r)[m] == if m.id != currentUserId && Matches(m, f) then multiset(catalog)[m] else 0
    ensures forall i :: 0 <= i < |r| ==> r[i] in catalog && r[i].id != currentUserId && Matches(r[i], f)
    ensures forall i :: 0 <= i < |catalog| && catalog[i].id != currentUserId && Matches(catalog[i], f) ==> catalog[i] in r
    ensures IsSubsequence(r, catalog)
  {
    var listed := Listed(catalog, currentUserId);
    var r := Filter(listed, (m: Mentor) => Matches(m, f));
    SubsequenceTransitive(r, listed, catalog);
    r
  }

  /** `[...new Set(mentors.map(field))]`: each value of the field once, in
      the order of its first occurrence among the mentors. */
  function Options(mentors: seq<Mentor>, field: Mentor -> string): (r: seq<string>)
    ensures NoDuplicates(r)
    ensures forall i :: 0 <= i < |r| ==> exists m :: m in mentors && field(m) == r[i]
    ensures forall m :: m in mentors ==> field(m) in r
    ensures InFirstOccurrenceOrder(r, Map(mentors, field))
  {
    MapMembership(mentors, field);
    Distinct(Map(mentors, field))
  }

  /** `regions`: each region of a listed mentor once, in the order shown
      (the page does not sort it). */
  function RegionOptions(catalog: seq<Mentor>, currentUserId: int): (r: seq<string>)
    ensures NoDuplicates(r)
    ensures forall i :: 0 <= i < |r| ==> exists m :: m in catalog && m.id != currentUserId && m.region == r[i]
    ensures forall m :: m in catalog && m.id != currentUserId ==> m.region in r
    ensures InFirstOccurrenceOrder(r, Map(Listed(catalog, currentUserId), (m: Mentor) => m.region))
  {
    Options(Listed(catalog, currentUserId), (m: Mentor) => m.region)
  }

  /** `majors`: each major of a listed mentor once. */
  function MajorOptions(catalog: seq<Mentor>, currentUserId: int): (r: seq<string>)
    ensures NoDuplicates(r)
    ensures forall i :: 0 <= i < |r| ==> exists m :: m in catalog && m.id != currentUserId && m.major == r[i]
    ensures forall m :: m in catalog && m.id != currentUserId ==> m.major in r
  {
    Options(Listed(catalog, currentUserId), (m: Mentor) => m.major)
  }

  /** With every filter empty the result is the catalog minus the signed-in user. */
  lemma NoFiltersListsEveryoneElse(catalog: seq<Mentor>, currentUserId: int)
    ensures FilteredMentors(catalog, currentUserId, NoFilters) == Listed(catalog, currentUserId)
  {
    FilterKeepsAll(Listed(catalog, currentUserId), (m: Mentor) => Matches(m, NoFilters));
  }

  /** The signed-in user never sees their own card. */
  lemma SelfNeverListed(catalog: seq<Mentor>, currentUserId: int, f: Filters)
    ensures forall m :: m in FilteredMentors(catalog, currentUserId, f) ==> m.id != currentUserId
  {
  }

  /** With only a region filter, a mentor is listed iff it is in the catalog,
      is not the signed-in user and has exactly that region. */
  lemma RegionFilterIsExact(catalog: seq<Mentor>, currentUserId: int, region: string, m: Mentor)
    requires region != ""
    ensures m in FilteredMentors(catalog, currentUserId, Filters(region, "", "")) <==>
            m in catalog && m.id != currentUserId && m.region == region
  {
    var r := FilteredMentors(catalog, currentUserId, Filters(region, "", ""));
    if m in catalog && m.id != currentUserId && m.region == region {
      var i :| 0 <= i < |catalog| && catalog[i] == m;
      assert Matches(catalog[i], Filters(region, "", ""));
    }
  }

  /** The fixture's ids and regions: ids 1 to 5, one mentor per region. */
  lemma FixtureIdsAndRegions()
    ensures forall i :: 0 <= i < 5 ==> MockData.MockMentors()[i].id == i + 1
    ensures MockData.MockMentors()[0].region == "USA" && MockData.MockMentors()[1].region == "UK"
    ensures MockData.MockMentors()[2].region == "Canada" && MockData.MockMentors()[3].region == "Europe"
    ensures MockData.MockMentors()[4].region == "Asia"
  {
  }

  /** When the signed-in user is outside the catalog and the mentor at `k`
      is the only one in `region`, the region filter lists that mentor alone. */
  lemma {:induction false} SoleRegionListedAlone(catalog: seq<Mentor>, currentUserId: int, region: string, k: nat)
    requires region != "" && k < |catalog| && catalog[k].region == region
    requires forall i :: 0 <= i < |catalog| ==> catalog[i].id != currentUserId
    requires forall i :: 0 <= i < |catalog| && i != k ==> catalog[i].region != region
    ensures FilteredMentors(catalog, currentUserId, Filters(region, "", "")) == [catalog[k]]
  {
    FilterKeepsAll(catalog, (m: Mentor) => m.id != currentUserId);
    FilterKeepsOne(catalog, (m: Mentor) => Matches(m, Filters(region, "", "")), k);
  }

  /** On the fixture catalog, for a user outside it, the UK filter lists Li Na alone. */
  lemma UkFilterOnFixture()
    ensures FilteredMentors(MockData.MockMentors(), 0, Filters("UK", "", "")) == [MockData.MockMentors()[1]]
  {
    FixtureIdsAndRegions();
    SoleRegionListedAlone(MockData.MockMentors(), 0, "UK", 1);
  }
}
