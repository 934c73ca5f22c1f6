// What incident pages show (internal/incidents/query.go), on the fields of the
// incidents: the order, and which incidents each filter keeps.
module IncidentPages {
  import opened IncidentQuery
  import opened Options
  import opened Sorting
  import opened Text

  // ---- order ----

  // Later starts first; equal starts by object identity.
  ghost predicate NewestFirst(s: seq<Incident>) {
    forall i, j | 0 <= i < j < |s| ::
      s[i].startedAt > s[j].startedAt || (s[i].startedAt == s[j].startedAt && !Less(s[j].objectId, s[i].objectId))
  }

  lemma OrderedIsNewestFirst(s: seq<Incident>)
    requires Ordered(s, Newer)
    ensures NewestFirst(s)
  {
    hide Less;
    forall i, j | 0 <= i < j < |s|
      ensures s[i].startedAt > s[j].startedAt || (s[i].startedAt == s[j].startedAt && !Less(s[j].objectId, s[i].objectId))
    {
      assert !Newer(s[j], s[i]);
    }
  }

  lemma NewestFirstPrefix(s: seq<Incident>, k: nat)
    requires NewestFirst(s) && k <= |s|
    ensures NewestFirst(s[..k])
  {
    hide Less;
  }

  // A page shows the newest matching incidents, as many as the limit allows
  // (50 where none is given); it names the last one shown exactly if more match.
  lemma PageShowsNewest(input: seq<Incident>, q: ListQuery)
    requires Answerable(input, q)
    ensures var page, list := Page(input, q).value, Listing(input, Normalized(q));
      var limit := if q.limit == 0 then 50 else q.limit;
      && NewestFirst(list) && NewestFirst(page.items)
      && 1 <= limit && page.items == list[..if |list| <= limit then |list| else limit]
      && (page.hasMore <==> |list| > limit)
      && (if page.hasMore then page.next == Some(ListCursor(list[limit - 1].startedAt, list[limit - 1].objectId)) else page.next.None?)
  {
    hide Listing, Ordered, NewestFirst, Acceptable;
    var list := Listing(input, Normalized(q));
    NormalizedLimit(q);
    ListingOrdered(input, q);
    OrderedIsNewestFirst(list);
    NewestFirstPrefix(list, if |list| <= Normalized(q).limit then |list| else Normalized(q).limit);
    assert list[..|list|] == list;
  }

  lemma {:induction false} FollowStays(input: seq<Incident>, q: ListQuery)
    requires Answerable(input, q)
    ensures forall x | x in Follow(input, q) :: x in Listing(input, Normalized(q))
    decreases |Listing(input, Normalized(q))|
  {
    hide Answerable, Listing, Resume;
    if Page(input, q).value.hasMore {
      NextPage(input, q);
      FollowStays(input, q.(before := Page(input, q).value.next));
    }
  }

  // So do all pages together: a client that follows the cursor never sees an
  // incident that is newer than one already shown.
  lemma {:induction false} FollowShowsNewestFirst(input: seq<Incident>, q: ListQuery)
    requires Answerable(input, q)
    ensures NewestFirst(Follow(input, q))
    decreases |Listing(input, Normalized(q))|
  {
    hide Answerable, Listing, Resume, Less;
    PageShowsNewest(input, q);
    if Page(input, q).value.hasMore {
      NextPage(input, q);
      var q' := q.(before := Page(input, q).value.next);
      FollowShowsNewestFirst(input, q');
      FollowStays(input, q');
      JoinNewestFirst(Listing(input, Normalized(q)), Normalized(q).limit, Follow(input, q'));
    }
  }

  lemma JoinNewestFirst(list: seq<Incident>, k: nat, rest: seq<Incident>)
    requires NewestFirst(list) && k <= |list| && NewestFirst(rest) && forall x | x in rest :: x in list[k..]
    ensures NewestFirst(list[..k] + rest)
  {
    hide Less;
    var s := list[..k] + rest;
    forall i, j | 0 <= i < j < |s|
      ensures s[i].startedAt > s[j].startedAt || (s[i].startedAt == s[j].startedAt && !Less(s[j].objectId, s[i].objectId))
    {
      if i < k <= j {
        assert s[j] == rest[j - k] && rest[j - k] in list[k..];
        var n :| k <= n < |list| && list[n] == s[j];
        assert list[i] == s[i];
      } else if k <= i {
        assert s[i] == rest[i - k] && s[j] == rest[j - k];
      }
    }
  }

  // ---- which incidents ----

  // How often x is listed.
  ghost function Listed(input: seq<Incident>, q: ListQuery, x: Incident): nat {
    multiset(Listing(input, Normalized(q)))[x]
  }

  lemma {:induction false} SelectCounts(s: seq<Incident>, q: ListQuery, x: Incident)
    ensures multiset(Select(s, q))[x] == if Matches(x, q) then multiset(s)[x] else 0
  {
    hide Matches;
    if s != [] {
      var front, last := s[..|s| - 1], s[|s| - 1];
      SelectCounts(front, q, x);
      assert s == front + [last];
    }
  }

  lemma ListedCounts(input: seq<Incident>, q: ListQuery, x: Incident)
    ensures Listed(input, q, x) == if Matches(x, Normalized(q)) then multiset(input)[x] else 0
  {
    hide Matches, Sort, Select;
    SortMultiset(input, Newer);
    SelectCounts(Sort(input, Newer), Normalized(q), x);
  }

  // Without filters and cursor every incident is listed as often as it comes.
  lemma Unfiltered(input: seq<Incident>, limit: int, x: Incident)
    ensures Listed(input, ListQuery(limit, [], [], "", "", "", None, None, None), x) == multiset(input)[x]
  {
    var q := ListQuery(limit, [], [], "", "", "", None, None, None);
    ListedCounts(input, q, x);
    hide Listed;
    assert Sort<string>([], Less) == [];
  }

  // Setting one filter keeps exactly those that meet it: one law per filter.

  lemma StatusFilter(input: seq<Incident>, q: ListQuery, x: Incident)
    ensures Listed(input, q, x)
      == if q.statuses == [] || x.status in q.statuses then Listed(input, q.(statuses := []), x) else 0
  {
    hide Listed, PastCursor;
    ListedCounts(input, q, x);
    ListedCounts(input, q.(statuses := []), x);
    SortKeeps(q.statuses, x.status);
  }

  lemma SeverityFilter(input: seq<Incident>, q: ListQuery, x: Incident)
    ensures Listed(input, q, x)
      == if q.severities == [] || x.severity in q.severities then Listed(input, q.(severities := []), x) else 0
  {
    hide Listed, PastCursor;
    ListedCounts(input, q, x);
    ListedCounts(input, q.(severities := []), x);
    SortKeeps(q.severities, x.severity);
  }

  lemma ScopeFilter(input: seq<Incident>, q: ListQuery, x: Incident)
    ensures Listed(input, q, x) == if q.scopeId == "" || x.scopeId == q.scopeId then Listed(input, q.(scopeId := ""), x) else 0
  {
    hide Listed, PastCursor, Sort;
    ListedCounts(input, q, x);
    ListedCounts(input, q.(scopeId := ""), x);
  }

  // From is inclusive, before is exclusive.
  lemma StartFilter(input: seq<Incident>, q: ListQuery, x: Incident)
    ensures Listed(input, q, x)
      == if (q.startedFrom.Some? ==> q.startedFrom.value <= x.startedAt) && (q.startedBefore.Some? ==> x.startedAt < q.startedBefore.value)
         then Listed(input, q.(startedFrom := None, startedBefore := None), x) else 0
  {
    hide Listed, PastCursor, Sort;
    ListedCounts(input, q, x);
    ListedCounts(input, q.(startedFrom := None, startedBefore := None), x);
  }

  // One affected resource must be of the kind and, where one is given, carry
  // the identity.
  lemma ResourceFilter(input: seq<Incident>, q: ListQuery, x: Incident)
    ensures Listed(input, q, x)
      == if q.resourceKind == ""
            || exists r | r in x.affectedResources :: r.kind == q.resourceKind && (q.resourceId == "" || r.id == q.resourceId)
         then Listed(input, q.(resourceKind := "", resourceId := ""), x) else 0
  {
    hide Listed, PastCursor, Sort;
    ListedCounts(input, q, x);
    ListedCounts(input, q.(resourceKind := "", resourceId := ""), x);
    if r :| r in x.affectedResources && r.kind == q.resourceKind && (q.resourceId == "" || r.id == q.resourceId) {
      var k :| 0 <= k < |x.affectedResources| && x.affectedResources[k] == r;
    }
  }

  // The cursor keeps what started earlier than it, or at the same instant with
  // a later object identity.
  lemma CursorFilter(input: seq<Incident>, q: ListQuery, x: Incident)
    ensures Listed(input, q, x)
      == if q.before.None? || x.startedAt < q.before.value.startedAt
            || (x.startedAt == q.before.value.startedAt && Less(q.before.value.objectId, x.objectId))
         then Listed(input, q.(before := None), x) else 0
  {
    hide Listed, Sort, Less;
    ListedCounts(input, q, x);
    ListedCounts(input, q.(before := None), x);
  }

  lemma SortKeeps(values: seq<string>, v: string)
    ensures v in Sort(values, Less) <==> v in values
    ensures Sort(values, Less) == [] <==> values == []
    ensures Sort<string>([], Less) == []
  {
    SortElements(values, Less, v);
    SortMultiset(values, Less);
    assert |multiset(Sort(values, Less))| == |Sort(values, Less)| && |multiset(values)| == |values|;
  }
}
