// Keyset pagination of incidents, newest first (internal/incidents/query.go).
module IncidentQuery {
  import opened Options
  import opened Sorting
  import opened Text

  const DEFAULT_LIMIT := 50
  const MAX_LIMIT := 100
  const MAX_RESOURCES := 64

  datatype ResourceRef = ResourceRef(kind: string, id: string)

  // The fields the query reads. otherwiseValid stands for the rest of
  // Incident.Validate. Instants are nanoseconds from the zero time.
  datatype Incident = Incident(
    objectId: string, scopeId: string, severity: string, status: string, startedAt: int,
    affectedResources: seq<ResourceRef>, otherwiseValid: bool)

  datatype ListCursor = ListCursor(startedAt: int, objectId: string)

  datatype ListQuery = ListQuery(
    limit: int, statuses: seq<string>, severities: seq<string>, scopeId: string, resourceKind: string, resourceId: string,
    startedFrom: Option<int>, startedBefore: Option<int>, before: Option<ListCursor>)

  datatype ListPage = ListPage(items: seq<Incident>, next: Option<ListCursor>, hasMore: bool)

  const STATUSES := {"open", "acknowledged", "resolved"}
  const SEVERITIES := {"info", "warning", "critical"}

  // corecontracts identifiers, and the wider references of incidents.
  predicate ValidObjectId(s: string) {
    IsIdentifier(s, "._:-", 255)
  }

  predicate ValidRef(s: string) {
    IsIdentifier(s, "._:/-", 255)
  }

  predicate ValidIncident(i: Incident) {
    && ValidObjectId(i.objectId) && ValidObjectId(i.scopeId)
    && i.severity in SEVERITIES && i.status in STATUSES && i.startedAt != 0
    && 1 <= |i.affectedResources| <= MAX_RESOURCES
    && (forall k | 0 <= k < |i.affectedResources| :: ValidRef(i.affectedResources[k].kind) && ValidRef(i.affectedResources[k].id))
    && i.otherwiseValid
  }

  // ---- normalisation ----

  // validateCursorID: non-empty, at most 255 bytes, no white space or control
  // characters, and a reference.
  predicate ValidCursor(c: ListCursor) {
    c.startedAt != 0 && ValidRef(c.objectId)
  }

  ghost predicate FilterOk(values: seq<string>, allowed: set<string>) {
    |values| <= 3 && Distinct(values) && forall i | 0 <= i < |values| :: values[i] in allowed
  }

  predicate PlainFieldsOk(q: ListQuery) {
    && (q.limit == 0 || 1 <= q.limit <= MAX_LIMIT)
    && (q.scopeId != "" ==> ValidRef(q.scopeId))
    && (q.resourceKind != "" ==> ValidRef(q.resourceKind))
    && (q.resourceId != "" ==> q.resourceKind != "" && ValidRef(q.resourceId))
    && (q.startedFrom.Some? ==> q.startedFrom.value != 0)
    && (q.startedBefore.Some? ==> q.startedBefore.value != 0)
    && (q.startedFrom.Some? && q.startedBefore.Some? ==> q.startedFrom.value < q.startedBefore.value)
    && (q.before.Some? ==> ValidCursor(q.before.value))
  }

  ghost predicate Acceptable(q: ListQuery) {
    PlainFieldsOk(q) && FilterOk(q.statuses, STATUSES) && FilterOk(q.severities, SEVERITIES)
  }

  function Normalized(q: ListQuery): ListQuery {
    q.(limit := if q.limit == 0 then DEFAULT_LIMIT else q.limit,
       statuses := Sort(q.statuses, Less), severities := Sort(q.severities, Less))
  }

  // normalizeStatuses and normalizeSeverities.
  method NormalizeFilter(values: seq<string>, allowed: set<string>) returns (result: Option<seq<string>>)
    ensures result == if FilterOk(values, allowed) then Some(Sort(values, Less)) else None
  {
    hide Sort;
    if |values| > 3 {
      return None;
    }
    var seen: set<string> := {};
    assert Distinct(values[..0]);
    for n := 0 to |values|
      invariant Distinct(values[..n]) && seen == Elements(values[..n])
      invariant forall i | 0 <= i < n :: values[i] in allowed
    {
      SeenStep(values, n);
      if values[n] !in allowed || values[n] in seen {
        return None;
      }
      seen := seen + {values[n]};
    }
    assert values[..|values|] == values;
    result := Some(Sort(values, Less));
  }

  method NormalizeListQuery(query: ListQuery) returns (result: Option<ListQuery>)
    ensures result == if Acceptable(query) then Some(Normalized(query)) else None
  {
    hide Sort, Distinct;
    if !PlainFieldsOk(query) {
      return None;
    }
    var statuses := NormalizeFilter(query.statuses, STATUSES);
    if statuses.None? {
      return None;
    }
    var severities := NormalizeFilter(query.severities, SEVERITIES);
    if severities.None? {
      return None;
    }
    result := Some(query.(limit := if query.limit == 0 then DEFAULT_LIMIT else query.limit,
                          statuses := statuses.value, severities := severities.value));
  }

  // ---- order and filter ----

  // Newest first, ties by object identity.
  predicate Precedes(aAt: int, aId: string, bAt: int, bId: string) {
    if aAt == bAt then Less(aId, bId) else aAt > bAt
  }

  predicate Newer(a: Incident, b: Incident) {
    Precedes(a.startedAt, a.objectId, b.startedAt, b.objectId)
  }

  predicate PastCursor(i: Incident, c: ListCursor) {
    Precedes(c.startedAt, c.objectId, i.startedAt, i.objectId)
  }

  function CursorOf(i: Incident): ListCursor {
    ListCursor(i.startedAt, i.objectId)
  }

  // Everything matchesListQuery checks except the cursor.
  predicate MatchesFilters(i: Incident, q: ListQuery) {
    && (q.statuses != [] ==> i.status in q.statuses)
    && (q.severities != [] ==> i.severity in q.severities)
    && (q.scopeId != "" ==> i.scopeId == q.scopeId)
    && (q.startedFrom.Some? ==> i.startedAt >= q.startedFrom.value)
    && (q.startedBefore.Some? ==> i.startedAt < q.startedBefore.value)
    && (q.resourceKind != "" ==>
          exists k | 0 <= k < |i.affectedResources| ::
            i.affectedResources[k].kind == q.resourceKind && (q.resourceId != "" ==> i.affectedResources[k].id == q.resourceId))
  }

  predicate Matches(i: Incident, q: ListQuery) {
    MatchesFilters(i, q) && (q.before.Some? ==> PastCursor(i, q.before.value))
  }

  function Select(s: seq<Incident>, q: ListQuery): seq<Incident> {
    if s == [] then []
    else Select(s[..|s| - 1], q) + (if Matches(s[|s| - 1], q) then [s[|s| - 1]] else [])
  }

  // The plain reference: sort everything, keep what matches.
  function Listing(input: seq<Incident>, q: ListQuery): seq<Incident> {
    Select(Sort(input, Newer), q)
  }

  function PageOf(list: seq<Incident>, limit: nat): ListPage
    requires limit > 0
  {
    if |list| > limit then ListPage(list[..limit], Some(CursorOf(list[limit - 1])), true) else ListPage(list, None, false)
  }

  ghost predicate Answerable(input: seq<Incident>, q: ListQuery) {
    Acceptable(q) && forall i | 0 <= i < |input| :: ValidIncident(input[i])
  }

  // FilterPage, None standing for its errors.
  ghost function Page(input: seq<Incident>, q: ListQuery): Option<ListPage> {
    if Answerable(input, q) then Some(PageOf(Listing(input, Normalized(q)), Normalized(q).limit)) else None
  }

  // ---- the method ----

  lemma {:induction false} SelectPrefix(s: seq<Incident>, k: nat, q: ListQuery)
    requires k <= |s|
    ensures Select(s[..k], q) <= Select(s, q)
    decreases |s| - k
  {
    hide Matches;
    if k == |s| {
      assert s[..k] == s;
    } else {
      assert s[..k + 1][..k] == s[..k];
      SelectPrefix(s, k + 1, q);
    }
  }

  method FilterPage(input: seq<Incident>, query: ListQuery) returns (result: Option<ListPage>)
    ensures result == Page(input, query)
  {
    hide Sort, Matches, ValidIncident, Acceptable;
    var normalized := NormalizeListQuery(query);
    if normalized.None? {
      return None;
    }
    var q := normalized.value;
    NormalizedLimit(query);
    for n := 0 to |input|
      invariant forall i | 0 <= i < n :: ValidIncident(input[i])
    {
      if !ValidIncident(input[n]) {
        return None;
      }
    }
    var ordered := Sort(input, Newer);
    var items: seq<Incident> := [];
    var n := 0;
    while n < |ordered|
      invariant 0 <= n <= |ordered| && items == Select(ordered[..n], q) && |items| <= q.limit
    {
      assert ordered[..n + 1][..n] == ordered[..n];
      n := n + 1;
      if Matches(ordered[n - 1], q) {
        items := items + [ordered[n - 1]];
        if |items| > q.limit {
          break;
        }
      }
    }
    assert items == Select(ordered[..n], q) && (|items| > q.limit || n == |ordered|);
    SelectPrefix(ordered, n, q);
    assert n == |ordered| ==> ordered[..n] == ordered;
    ghost var list := Listing(input, q);
    assert items == list[..|items|];
    var hasMore := |items| > q.limit;
    if hasMore {
      items := items[..q.limit];
      assert items == list[..q.limit];
      result := Some(ListPage(items, Some(CursorOf(items[|items| - 1])), true));
    } else {
      result := Some(ListPage(items, None, false));
    }
  }

  lemma NormalizedLimit(q: ListQuery)
    requires Acceptable(q)
    ensures 1 <= Normalized(q).limit <= MAX_LIMIT
  {
  }

  // ---- following the cursor ----

  lemma NewerIsWeak()
    ensures WeakOrder(Newer)
  {
    LessIsWeakOrder();
    forall a, b | Newer(a, b) ensures !Newer(b, a) {
      assert a.startedAt == b.startedAt ==> Less(a.objectId, b.objectId);
    }
    forall a, b, c | Newer(a, b) ensures Newer(a, c) || Newer(c, b) {
      if a.startedAt == b.startedAt {
        assert Less(a.objectId, b.objectId);
      }
    }
  }

  lemma {:induction false} SelectOrdered(s: seq<Incident>, q: ListQuery)
    requires Ordered(s, Newer)
    ensures Ordered(Select(s, q), Newer)
    ensures forall x | x in Select(s, q) :: x in s && Matches(x, q)
  {
    hide Matches, Newer;
    if s != [] {
      var front, last := s[..|s| - 1], s[|s| - 1];
      SelectOrdered(front, q);
      assert forall x | x in front :: !Newer(last, x);
    }
  }

  // Moving the cursor to an item of the listing filters the listing itself.
  lemma {:induction false} MovedCursor(s: seq<Incident>, q: ListQuery, c: ListCursor)
    requires q.before.Some? ==> Precedes(q.before.value.startedAt, q.before.value.objectId, c.startedAt, c.objectId)
    ensures Select(s, q.(before := Some(c))) == After(Select(s, q), c)
  {
    hide Precedes, MatchesFilters;
    if s != [] {
      var last := s[|s| - 1];
      MovedCursor(s[..|s| - 1], q, c);
      FiltersIgnoreCursor(last, q, c);
      if q.before.Some? {
        CursorsChain(q.before.value, c, last);
      }
      AfterSnoc(Select(s[..|s| - 1], q), last, c);
    }
  }

  lemma FiltersIgnoreCursor(i: Incident, q: ListQuery, c: ListCursor)
    ensures MatchesFilters(i, q.(before := Some(c))) <==> MatchesFilters(i, q)
  {
  }

  lemma CursorsChain(b: ListCursor, c: ListCursor, i: Incident)
    requires Precedes(b.startedAt, b.objectId, c.startedAt, c.objectId)
    ensures PastCursor(i, c) ==> PastCursor(i, b)
  {
    if PastCursor(i, c) && b.startedAt == c.startedAt == i.startedAt {
      LessTransitive(b.objectId, c.objectId, i.objectId);
    }
  }

  function After(s: seq<Incident>, c: ListCursor): seq<Incident> {
    if s == [] then [] else After(s[..|s| - 1], c) + (if PastCursor(s[|s| - 1], c) then [s[|s| - 1]] else [])
  }

  lemma AfterSnoc(s: seq<Incident>, x: Incident, c: ListCursor)
    ensures After(s + [x], c) == After(s, c) + (if PastCursor(x, c) then [x] else [])
    ensures s + [] == s
  {
    assert (s + [x])[..|s|] == s;
  }

  // The first position at or after k that is past the cursor.
  function Resume(s: seq<Incident>, k: nat, c: ListCursor): (j: nat)
    requires k <= |s|
    ensures k <= j <= |s|
    decreases |s| - k
  {
    if k < |s| && !PastCursor(s[k], c) then Resume(s, k + 1, c) else k
  }

  ghost predicate SplitAt(s: seq<Incident>, c: ListCursor, j: nat) {
    && j <= |s|
    && (forall i | 0 <= i < j :: !PastCursor(s[i], c))
    && (forall i | j <= i < |s| :: PastCursor(s[i], c))
  }

  lemma {:induction false} AfterIsSuffix(s: seq<Incident>, c: ListCursor, j: nat)
    requires SplitAt(s, c, j)
    ensures After(s, c) == s[j..]
  {
    hide PastCursor;
    if s != [] {
      var front := s[..|s| - 1];
      if j == |s| {
        AfterIsSuffix(front, c, |front|);
      } else {
        AfterIsSuffix(front, c, j);
        assert s[j..] == front[j..] + [s[|s| - 1]];
      }
    }
  }

  // In an ordered listing the cursor of item k - 1 cuts it at Resume.
  lemma ResumeSplits(s: seq<Incident>, k: nat)
    requires Ordered(s, Newer) && 0 < k <= |s|
    ensures SplitAt(s, CursorOf(s[k - 1]), Resume(s, k, CursorOf(s[k - 1])))
  {
    hide Resume, Newer;
    var c := CursorOf(s[k - 1]);
    forall i | 0 <= i < k ensures !PastCursor(s[i], c) {
      NotPastItself(s[k - 1]);
      assert i < k - 1 ==> !Newer(s[k - 1], s[i]);
      PastIsNewer(s[i], s[k - 1]);
    }
    ResumeScan(s, k, k, c);
  }

  lemma PastIsNewer(i: Incident, at: Incident)
    ensures PastCursor(i, CursorOf(at)) <==> Newer(at, i)
  {
  }

  lemma NotPastItself(i: Incident)
    ensures !PastCursor(i, CursorOf(i))
  {
    if Less(i.objectId, i.objectId) {
      LessAsymmetric(i.objectId, i.objectId);
    }
  }

  lemma {:induction false} ResumeScan(s: seq<Incident>, k: nat, j: nat, c: ListCursor)
    requires Ordered(s, Newer) && k <= j <= |s| && k > 0 && c == CursorOf(s[k - 1])
    requires forall i | 0 <= i < j :: !PastCursor(s[i], c)
    ensures SplitAt(s, c, Resume(s, j, c))
    decreases |s| - j
  {
    hide PastCursor, Newer;
    if j < |s| && !PastCursor(s[j], c) {
      ResumeScan(s, k, j + 1, c);
    } else {
      forall i | j <= i < |s| ensures PastCursor(s[i], c) {
        PastIsNewer(s[j], s[k - 1]);
        PastIsNewer(s[i], s[k - 1]);
        NewerIsWeak();
        if i > j {
          assert Newer(s[k - 1], s[j]) && !Newer(s[i], s[j]);
        }
      }
    }
  }

  // The pages a client sees that passes Next back until HasMore is false.
  ghost function Follow(input: seq<Incident>, q: ListQuery): seq<Incident>
    requires Answerable(input, q)
    decreases |Listing(input, Normalized(q))|
  {
    var page := Page(input, q).value;
    if !page.hasMore then page.items
    else
      NextPage(input, q);
      page.items + Follow(input, q.(before := page.next))
  }

  // The next query is accepted, and its listing is the rest of this one from
  // the first item whose key differs from the last one shown.
  lemma ListingFacts(input: seq<Incident>, q: ListQuery, x: Incident)
    requires forall i | 0 <= i < |input| :: ValidIncident(input[i])
    ensures Ordered(Listing(input, q), Newer)
    ensures x in Listing(input, q) ==> ValidIncident(x) && Matches(x, q)
  {
    hide Sort, ValidIncident, Matches, Newer, Ordered, Select;
    NewerIsWeak();
    SortOrdered(input, Newer);
    SelectOrdered(Sort(input, Newer), q);
    SortElements(input, Newer, x);
  }

  // A listed incident lies past the cursor of its query.
  lemma MovesForward(x: Incident, q: ListQuery)
    requires Matches(x, q)
    ensures q.before.Some? ==> Precedes(q.before.value.startedAt, q.before.value.objectId, CursorOf(x).startedAt, CursorOf(x).objectId)
  {
    hide Precedes, Matches;
    if q.before.Some? {
      MatchedIsPast(x, q);
    }
  }

  lemma NextPage(input: seq<Incident>, q: ListQuery)
    requires Answerable(input, q) && Page(input, q).value.hasMore
    ensures var list, k := Listing(input, Normalized(q)), Normalized(q).limit;
      var q' := q.(before := Page(input, q).value.next);
      && 0 < k < |list| && Answerable(input, q')
      && Listing(input, Normalized(q')) == list[Resume(list, k, CursorOf(list[k - 1]))..]
      && Normalized(q').limit == k
  {
    hide Sort, Resume, ValidIncident, Acceptable, Matches, Precedes, Ordered, Newer, Select, SplitAt, After, PastCursor;
    var nq := Normalized(q);
    var list, k := Listing(input, nq), nq.limit;
    NormalizedLimit(q);
    var c := CursorOf(list[k - 1]);
    ListingFacts(input, nq, list[k - 1]);
    CursorAccepted(q, list[k - 1]);
    MovesForward(list[k - 1], nq);
    MovedCursor(Sort(input, Newer), nq, c);
    ResumeSplits(list, k);
    AfterIsSuffix(list, c, Resume(list, k, c));
  }

  lemma MatchedIsPast(i: Incident, q: ListQuery)
    requires Matches(i, q) && q.before.Some?
    ensures PastCursor(i, q.before.value)
  {
  }

  // Every emitted cursor is accepted back.
  lemma CursorAccepted(q: ListQuery, i: Incident)
    requires Acceptable(q) && ValidIncident(i)
    ensures Acceptable(q.(before := Some(CursorOf(i))))
    ensures Normalized(q.(before := Some(CursorOf(i)))) == Normalized(q).(before := Some(CursorOf(i)))
  {
    hide Sort, FilterOk;
  }

  ghost predicate SameKey(a: Incident, b: Incident) {
    a.startedAt == b.startedAt && a.objectId == b.objectId
  }

  // No page boundary falls between two incidents of the same key.
  ghost predicate CleanBoundaries(list: seq<Incident>, limit: nat)
    decreases |list|
  {
    if limit == 0 || |list| <= limit then true
    else !SameKey(list[limit - 1], list[limit]) && CleanBoundaries(list[limit..], limit)
  }

  lemma {:induction false} FollowIsShort(input: seq<Incident>, q: ListQuery)
    requires Answerable(input, q)
    ensures |Follow(input, q)| <= |Listing(input, Normalized(q))|
    decreases |Listing(input, Normalized(q))|
  {
    hide Answerable, Listing, Resume;
    if Page(input, q).value.hasMore {
      NextPage(input, q);
      FollowIsShort(input, q.(before := Page(input, q).value.next));
    }
  }

  lemma ResumeAtBoundary(list: seq<Incident>, k: nat)
    requires Ordered(list, Newer) && 0 < k < |list|
    ensures Resume(list, k, CursorOf(list[k - 1])) == k <==> !SameKey(list[k - 1], list[k])
  {
    hide Less;
    assert !Newer(list[k], list[k - 1]);
    LessTotal(list[k - 1].objectId, list[k].objectId);
    if SameKey(list[k - 1], list[k]) {
      NotPastItself(list[k]);
    }
  }

  // For any incidents and any query: the concatenated pages are the plain
  // filtered and sorted list exactly when no page boundary separates
  // incidents that share start time and object identity.
  lemma {:induction false} FollowingReproducesTheListing(input: seq<Incident>, q: ListQuery)
    requires Answerable(input, q)
    ensures Follow(input, q) == Listing(input, Normalized(q)) <==>
      CleanBoundaries(Listing(input, Normalized(q)), Normalized(q).limit)
    decreases |Listing(input, Normalized(q))|
  {
    hide Answerable, Resume, Normalized, Sort, Select;
    var list, k := Listing(input, Normalized(q)), Normalized(q).limit;
    if Page(input, q).value.hasMore {
      NextPage(input, q);
      var q' := q.(before := Page(input, q).value.next);
      ListingOrdered(input, q);
      ResumeAtBoundary(list, k);
      FollowIsShort(input, q');
      FollowingReproducesTheListing(input, q');
      var rest := Follow(input, q');
      assert list == list[..k] + list[k..];
      if Follow(input, q) == list {
        assert rest == list[k..];
      }
    }
  }

  lemma ListingOrdered(input: seq<Incident>, q: ListQuery)
    ensures Ordered(Listing(input, Normalized(q)), Newer)
    ensures forall x | x in Listing(input, Normalized(q)) :: x in input
  {
    hide Newer, Matches;
    NewerIsWeak();
    SortOrdered(input, Newer);
    SelectOrdered(Sort(input, Newer), Normalized(q));
    forall x | x in Listing(input, Normalized(q)) ensures x in input {
      SortElements(input, Newer, x);
    }
  }

  function IdKey(i: Incident): string {
    i.objectId
  }

  // Distinct object identities never meet at a boundary: no skip, no repeat.
  lemma DistinctIncidentsPageCleanly(input: seq<Incident>, q: ListQuery)
    requires Answerable(input, q) && Distinct(Project(input, IdKey))
    ensures Follow(input, q) == Listing(input, Normalized(q))
  {
    hide Listing, Follow, Normalized, Acceptable, Distinct;
    NormalizedLimit(q);
    FollowingReproducesTheListing(input, q);
    ListingDistinct(input, Normalized(q));
    DistinctIsClean(Listing(input, Normalized(q)), Normalized(q).limit);
  }

  lemma ListingDistinct(input: seq<Incident>, q: ListQuery)
    requires Distinct(Project(input, IdKey))
    ensures Distinct(Project(Listing(input, q), IdKey))
  {
    hide Sort, Select;
    SortMultiset(input, Newer);
    ProjectPermuted(input, Sort(input, Newer), IdKey);
    PermutedDistinct(Project(input, IdKey), Project(Sort(input, Newer), IdKey));
    SelectDistinct(Sort(input, Newer), q);
  }

  lemma {:induction false} SelectDistinct(s: seq<Incident>, q: ListQuery)
    requires Distinct(Project(s, IdKey))
    ensures Distinct(Project(Select(s, q), IdKey)) && forall x | x in Select(s, q) :: x in s
  {
    hide Matches;
    if s != [] {
      var front, last := s[..|s| - 1], s[|s| - 1];
      assert Project(front, IdKey) == Project(s, IdKey)[..|s| - 1];
      SelectDistinct(front, q);
      var r := Select(front, q);
      forall i | 0 <= i < |r| ensures r[i].objectId != last.objectId {
        assert r[i] in front;
        var k :| 0 <= k < |front| && front[k] == r[i];
        assert Project(s, IdKey)[k] != Project(s, IdKey)[|s| - 1];
      }
    }
  }

  lemma {:induction false} DistinctIsClean(list: seq<Incident>, limit: nat)
    requires Distinct(Project(list, IdKey))
    ensures CleanBoundaries(list, limit)
    decreases |list|
  {
    if 0 < limit < |list| {
      assert Project(list, IdKey)[limit - 1] != Project(list, IdKey)[limit];
      assert Project(list[limit..], IdKey) == Project(list, IdKey)[limit..];
      DistinctIsClean(list[limit..], limit);
    }
  }
}
