/** The earlier mentor directory (pages/FindMentorPage.tsx): the whole catalog,
    filtered by exact region, exact degree, a case-insensitive substring of the
    major and the name-or-university search; option lists over the whole catalog. */
module OldFindMentorPage {
  import opened Types
  import opened Text
  import opened Seqs
  import FindMentorPage

  datatype Filters = Filters(region: string, major: string, degree: string, search: string)

  const NoFilters := Filters("", "", "", "")

  /** All four filters pass; the empty filters pass everyone, and a major
      search longer than the major never passes. */
  predicate Matches(m: Mentor, f: Filters)
    ensures f == NoFilters ==> Matches(m, f)
    ensures Matches(m, f) && f.major != "" ==> |f.major| <= |m.major|
  {
    && (f.region == "" || m.region == f.region)
    && (f.degree == "" || m.degree == f.degree)
    && (f.major == "" || IncludesIgnoringCase(m.major, f.major))
    && FindMentorPage.MatchesSearch(m, f.search)
  }

  /** `filteredMentors`: exactly the catalog mentors passing all four filters,
      in catalog order and each as often as in the catalog; nobody is excluded
      for being the signed-in user. */
  function FilteredMentors(catalog: seq<Mentor>, f: Filters): (r: seq<Mentor>)
    ensures forall m :: multiset(r)[m] == if Matches(m, f) then multiset(catalog)[m] else 0
    ensures forall i :: 0 <= i < |r| ==> r[i] in catalog && Matches(r[i], f)
    ensures forall i :: 0 <= i < |catalog| && Matches(catalog[i], f) ==> catalog[i] in r
    ensures IsSubsequence(r, catalog)
  {
    Filter(catalog, (m: Mentor) => Matches(m, f))
  }

  /** `regions`: each region of the whole catalog once, in the order shown
      (the page does not sort it). */
  function RegionOptions(catalog: seq<Mentor>): (r: seq<string>)
    ensures NoDuplicates(r)
    ensures forall i :: 0 <= i < |r| ==> exists m :: m in catalog && m.region == r[i]
    ensures forall m :: m in catalog ==> m.region in r
    ensures InFirstOccurrenceOrder(r, Map(catalog, (m: Mentor) => m.region))
  {
    FindMentorPage.Options(catalog, (m: Mentor) => m.region)
  }

  /** `majors`: each major of the whole catalog once, unsorted. */
  function MajorOptions(catalog: seq<Mentor>): (r: seq<string>)
    ensures NoDuplicates(r)
    ensures forall i :: 0 <= i < |r| ==> exists m :: m in catalog && m.major == r[i]
    ensures forall m :: m in catalog ==> m.major in r
    ensures InFirstOccurrenceOrder(r, Map(catalog, (m: Mentor) => m.major))
  {
    FindMentorPage.Options(catalog, (m: Mentor) => m.major)
  }

  /** `degrees`: each degree of the whole catalog once, unsorted. */
  function DegreeOptions(catalog: seq<Mentor>): (r: seq<string>)
    ensures NoDuplicates(r)
    ensures forall i :: 0 <= i < |r| ==> exists m :: m in catalog && m.degree == r[i]
    ensures forall m :: m in catalog ==> m.degree in r
    ensures InFirstOccurrenceOrder(r, Map(catalog, (m: Mentor) => m.degree))
  {
    FindMentorPage.Options(catalog, (m: Mentor) => m.degree)
  }

  /** With every filter empty the whole catalog is listed. */
  lemma NoFiltersListsWholeCatalog(catalog: seq<Mentor>)
    ensures FilteredMentors(catalog, NoFilters) == catalog
  {
    FilterKeepsAll(catalog, (m: Mentor) => Matches(m, NoFilters));
  }

  /** The major filter matches any slice of the major regardless of case:
      a search equal to `major[i..j]` up to case finds the mentor. */
  lemma MajorFilterMatchesSubstring(m: Mentor, q: string, i: int, j: int)
    requires 0 <= i <= j <= |m.major| && ToLower(q) == ToLower(m.major[i..j])
    ensures Matches(m, Filters("", q, "", ""))
  {
    var hay := ToLower(m.major);
    assert ToLower(q) <= hay[i..];
  }

  /** Whatever the newer page lists under a region, major and search, this page
      lists too under the same filters and no degree: exact major equality implies
      a case-insensitive substring match, and self-exclusion only removes mentors. */
  lemma NewerResultsListedHere(catalog: seq<Mentor>, currentUserId: int, f: FindMentorPage.Filters)
    ensures forall m :: m in FindMentorPage.FilteredMentors(catalog, currentUserId, f) ==>
              m in FilteredMentors(catalog, Filters(f.region, f.major, "", f.search))
  {
    var old' := Filters(f.region, f.major, "", f.search);
    forall m | m in FindMentorPage.FilteredMentors(catalog, currentUserId, f)
      ensures m in FilteredMentors(catalog, old')
    {
      var r := FindMentorPage.FilteredMentors(catalog, currentUserId, f);
      var i :| 0 <= i < |r| && r[i] == m;
      assert FindMentorPage.Matches(m, f);
      if f.major != "" {
        ContainsItself(ToLower(m.major));
      }
      assert Matches(m, old');
      var j :| 0 <= j < |catalog| && catalog[j] == m;
    }
  }
}
