// The in-memory object repository: one atomic Apply with idempotency receipts,
// and what holds over every run of it.
module Repository {
  import opened Indexing
  import opened Metadata
  import opened Mutations
  import opened NetworkContracts
  import opened Objects
  import opened Options
  import opened Roles
  import opened Sorting
  import opened Topologies

  // The digest of a request with its document as a JSON value; equal digests
  // mean equal content.
  datatype Fingerprint = Sha256(
    operation: Operation, objectType: ObjectType, objectId: string, scopeId: string, ownerScope: string, document: JsonValue,
    precondition: Option<Precondition>)

  function FingerprintOf(r: MutationRequest): Fingerprint {
    Sha256(r.operation, r.objectType, r.objectId, r.scopeId, r.ownerScope, ValueOf(r.document), r.precondition)
  }

  datatype Receipt = Receipt(fingerprint: Fingerprint, result: StoredObject)

  datatype Store = Store(objects: map<string, StoredObject>, receipts: map<string, Receipt>)

  // One call of Apply with what the clock and the version generator return.
  datatype Call = Call(request: MutationRequest, key: string, now: int, token: Option<string>)

  function Current(m: map<string, StoredObject>, id: string): Option<StoredObject> {
    if id in m then Some(m[id]) else None
  }

  function Successor(m: map<string, StoredObject>, r: MutationRequest, now: int, version: string): StoredObject {
    NextObject(Current(m, r.objectId), r, now, version)
  }

  function Updated(m: map<string, StoredObject>, r: MutationRequest, now: int, version: string): map<string, StoredObject> {
    m[r.objectId := Successor(m, r, now, version)]
  }

  // The request is admitted to the stored objects.
  ghost predicate AdmittedTo(m: map<string, StoredObject>, r: MutationRequest, now: int, version: string) {
    && RequestOk(r, now) && SnapshotOk(Updated(m, r, now, version))
    && if r.operation == Create then r.objectId !in m && r.precondition.None?
       else r.objectId in m && Replaceable(m[r.objectId], r, Successor(m, r, now, version), TopologyOf(Updated(m, r, now, version)))
  }

  // The call is answered from a receipt, or refused because of one.
  predicate Settled(s: Store, c: Call) {
    c.key in s.receipts
  }

  // The call changes the store.
  ghost predicate Commits(s: Store, c: Call) {
    && ValidToken(c.key) && !c.request.document.NotJson? && !Settled(s, c)
    && c.token.Some? && AdmittedTo(s.objects, c.request, c.now, c.token.value)
  }

  ghost function Step(s: Store, c: Call): Store {
    if Commits(s, c) then
      Store(Updated(s.objects, c.request, c.now, c.token.value),
            s.receipts[c.key := Receipt(FingerprintOf(c.request), Successor(s.objects, c.request, c.now, c.token.value))])
    else s
  }

  ghost function Answer(s: Store, c: Call): Option<StoredObject> {
    if Commits(s, c) then Some(Successor(s.objects, c.request, c.now, c.token.value))
    else if ValidToken(c.key) && !c.request.document.NotJson? && Settled(s, c) && s.receipts[c.key].fingerprint == FingerprintOf(c.request)
    then Some(s.receipts[c.key].result)
    else None
  }

  // ---- any listing of the map admits the same requests ----

  ghost predicate Enumerates(s: seq<StoredObject>, m: map<string, StoredObject>) {
    Distinct(Project(s, ObjectId)) && Index(s, ObjectId) == m
  }

  lemma ListingAdmits(s: seq<StoredObject>, m: map<string, StoredObject>, r: MutationRequest, now: int, version: string)
    requires Enumerates(s, m)
    ensures Admitted(Current(m, r.objectId), r, s, now, version) <==> AdmittedTo(m, r, now, version)
  {
    hide Distinct, Index, SnapshotOk, Replaceable, RequestOk, Candidate, TopologyOf, DesiredChanged;
    var next := Successor(m, r, now, version);
    SuccessorId(Current(m, r.objectId), r, now, version);
    hide NextObject;
    CandidateIndex(s, next);
    ListingAbsent(s, m, r.objectId);
  }

  lemma SuccessorId(current: Option<StoredObject>, r: MutationRequest, now: int, version: string)
    ensures ObjectId(NextObject(current, r, now, version)) == r.objectId
    ensures NextObject(current, r, now, version).meta.resourceVersion == version
    ensures NextObject(current, r, now, version).objectType == r.objectType
  {
  }

  lemma ListingAbsent(s: seq<StoredObject>, m: map<string, StoredObject>, id: string)
    requires Enumerates(s, m)
    ensures id !in m <==> forall o | o in s :: ObjectId(o) != id
  {
    hide Distinct, Index;
    IndexMeaning(s, ObjectId);
    if id !in m {
      forall o | o in s ensures ObjectId(o) != id {
        var i :| 0 <= i < |s| && s[i] == o;
      }
    }
  }

  // ---- the repository ----

  class MemoryObjectRepository {
    var objects: map<string, StoredObject>
    var receipts: map<string, Receipt>

    function Contents(): Store
      reads this
    {
      Store(objects, receipts)
    }

    ghost predicate Valid()
      reads this
    {
      SnapshotOk(objects)
    }

    constructor (initial: map<string, StoredObject>)
      ensures objects == initial && receipts == map[]
    {
      objects, receipts := initial, map[];
    }

    method Snapshot() returns (s: seq<StoredObject>)
      requires Valid()
      ensures Enumerates(s, objects)
    {
      hide SnapshotOk, Distinct, Index;
      SnapshotKeys(objects);
      var ids := AnyOrder(objects.Keys);
      s := [];
      for n := 0 to |ids|
        invariant |s| == n && forall i | 0 <= i < n :: ids[i] in objects && s[i] == objects[ids[i]]
      {
        assert ids[n] in Elements(ids);
        s := s + [objects[ids[n]]];
      }
      IndexOfListing(objects, ids, s, ObjectId);
    }

    // One critical section: replay, refuse, or validate and store.
    method Apply(c: Call) returns (result: Option<StoredObject>)
      requires Valid()
      modifies this
      ensures Valid()
      ensures Contents() == Step(old(Contents()), c)
      ensures result == Answer(old(Contents()), c)
      ensures result.None? ==> objects == old(objects) && receipts == old(receipts)
    {
      hide SnapshotOk, ValidToken, AdmittedTo, Enumerates, NextObject;
      if !ValidToken(c.key) || c.request.document.NotJson? {
        return None;
      }
      if c.key in receipts {
        if receipts[c.key].fingerprint != FingerprintOf(c.request) {
          return None;
        }
        return Some(receipts[c.key].result);
      }
      if c.token.None? {
        return None;
      }
      var current := Current(objects, c.request.objectId);
      var snapshot := Snapshot();
      ListingAdmits(snapshot, objects, c.request, c.now, c.token.value);
      var next := PrepareMutation(current, c.request, snapshot, c.now, c.token.value);
      if next.None? {
        return None;
      }
      SuccessorId(current, c.request, c.now, c.token.value);
      AdmittedValid(objects, c.request, c.now, c.token.value);
      objects := objects[next.value.meta.objectId := next.value];
      receipts := receipts[c.key := Receipt(FingerprintOf(c.request), next.value)];
      return next;
    }
  }

  // A repository is opened exactly on a valid initial snapshot.
  method NewMemoryObjectRepository(initial: seq<StoredObject>) returns (r: MemoryObjectRepository?)
    ensures r != null <==> Objects.Valid(initial)
    ensures r != null ==> fresh(r) && r.Valid() && r.objects == Index(initial, ObjectId) && r.receipts == map[]
  {
    hide SnapshotOk, Distinct, Index;
    var ok := ValidateStoredObjects(initial);
    if !ok {
      return null;
    }
    var m: map<string, StoredObject> := map[];
    IndexStart(initial);
    for n := 0 to |initial|
      invariant m == Index(initial[..n], ObjectId)
    {
      IndexStep(initial, ObjectId, n);
      m := m[initial[n].meta.objectId := initial[n]];
    }
    assert initial[..|initial|] == initial;
    r := new MemoryObjectRepository(m);
  }

  lemma IndexStart(s: seq<StoredObject>)
    ensures Index(s[..0], ObjectId) == map[]
  {
  }

  lemma SnapshotKeys(m: map<string, StoredObject>)
    requires SnapshotOk(m)
    ensures forall id | id in m :: ObjectId(m[id]) == id
  {
    hide EnvelopeOk, TopologyOk, AllTyped, RolesOk, NetworkOk, TopologyOf, Extract, BoundIn;
  }

  lemma AdmittedValid(m: map<string, StoredObject>, r: MutationRequest, now: int, version: string)
    requires AdmittedTo(m, r, now, version)
    ensures SnapshotOk(Updated(m, r, now, version))
  {
    hide SnapshotOk, Replaceable, RequestOk, TopologyOf, Updated;
  }

  // ---- runs ----

  ghost function After(s: Store, calls: seq<Call>): Store {
    if calls == [] then s else Step(After(s, calls[..|calls| - 1]), calls[|calls| - 1])
  }

  // The store before the n-th call.
  ghost function At(s: Store, calls: seq<Call>, n: nat): Store
    requires n <= |calls|
  {
    After(s, calls[..n])
  }

  lemma AtNext(s: Store, calls: seq<Call>, n: nat)
    requires n < |calls|
    ensures At(s, calls, n + 1) == Step(At(s, calls, n), calls[n])
  {
    hide Step;
    assert calls[..n + 1][..n] == calls[..n];
  }

  lemma AtStart(s: Store, calls: seq<Call>)
    ensures At(s, calls, 0) == s
  {
    assert calls[..0] == [];
  }

  // Every run keeps the objects accepted.
  lemma {:induction false} RunKeepsValid(s: Store, calls: seq<Call>, n: nat)
    requires SnapshotOk(s.objects) && n <= |calls|
    ensures SnapshotOk(At(s, calls, n).objects)
  {
    hide SnapshotOk, AdmittedTo, ValidToken, Updated;
    if n > 0 {
      RunKeepsValid(s, calls, n - 1);
      AtNext(s, calls, n - 1);
      var before, c := At(s, calls, n - 1), calls[n - 1];
      if Commits(before, c) {
        AdmittedValid(before.objects, c.request, c.now, c.token.value);
      }
    }
  }

  // Controllers and control-plane scopes stay one to one in every state.
  lemma ControlPlanesStayUnique(s: Store, calls: seq<Call>, n: nat, a: string, b: string)
    requires SnapshotOk(s.objects) && n <= |calls|
    requires var roles := Extract(At(s, calls, n).objects, ReadRole);
      a in roles && b in roles && IsController(roles[a]) && IsController(roles[b])
    ensures var roles := Extract(At(s, calls, n).objects, ReadRole);
      roles[a].meta.scopeId == roles[b].meta.scopeId <==> roles[a].serviceIdentityId == roles[b].serviceIdentityId
  {
    RunKeepsValid(s, calls, n);
    var m := At(s, calls, n).objects;
    hide At, Extract, EnvelopesOk, TopologyOk, AllTyped, RolesOk, NetworkOk, TopologyOf, BoundIn, IsController;
    ControlPlanesOneToOne(Extract(m, ReadRole), TopologyOf(m), a, b);
  }

  // ---- receipts ----

  lemma {:induction false} ReceiptKept(s: Store, calls: seq<Call>, key: string)
    requires key in s.receipts
    ensures key in After(s, calls).receipts && After(s, calls).receipts[key] == s.receipts[key]
  {
    hide AdmittedTo, ValidToken, Updated;
    if calls != [] {
      ReceiptKept(s, calls[..|calls| - 1], key);
    }
  }

  // The same request, whatever the spelling of its document.
  predicate SameRequest(a: MutationRequest, b: MutationRequest) {
    && a.operation == b.operation && a.objectType == b.objectType && a.objectId == b.objectId
    && a.scopeId == b.scopeId && a.ownerScope == b.ownerScope && a.precondition == b.precondition
    && ValueOf(a.document) == ValueOf(b.document)
  }

  // A successful call can be repeated at any later time, with the document
  // spelled in any way: the answer is the first result, and nothing changes.
  lemma ReplayReturnsFirstResult(s: Store, c: Call, later: seq<Call>, again: Call)
    requires Answer(s, c).Some? && again.key == c.key && SameRequest(again.request, c.request)
    ensures var now := After(Step(s, c), later); Answer(now, again) == Answer(s, c) && Step(now, again) == now
  {
    hide AdmittedTo, ValidToken, Updated, After;
    ReceiptKept(Step(s, c), later, c.key);
  }

  // The same key with another request is refused from then on.
  lemma KeyIsSpent(s: Store, c: Call, later: seq<Call>, other: Call)
    requires Answer(s, c).Some? && other.key == c.key && !SameRequest(other.request, c.request)
    ensures var now := After(Step(s, c), later); Answer(now, other) == None && Step(now, other) == now
  {
    hide AdmittedTo, ValidToken, Updated, After;
    ReceiptKept(Step(s, c), later, c.key);
  }

  // ---- versions ----

  // Call i replaces object x under the guard of version v.
  ghost predicate ReplacesFrom(s: Store, calls: seq<Call>, i: nat, x: string, v: string)
    requires i < |calls|
  {
    var c := calls[i];
    && Commits(At(s, calls, i), c) && c.request.operation == Replace && c.request.objectId == x
    && c.request.precondition.Some? && c.request.precondition.value.resourceVersion == v
  }

  // Call i commits x under a version that x has had before.
  ghost predicate Reissues(s: Store, calls: seq<Call>, i: nat, x: string)
    requires i < |calls|
  {
    && Commits(At(s, calls, i), calls[i]) && calls[i].request.objectId == x
    && exists k: nat | k <= i :: x in At(s, calls, k).objects && calls[i].token == Some(At(s, calls, k).objects[x].meta.resourceVersion)
  }

  // No generated token equals another one or a version of the initial store.
  ghost predicate FreshTokens(s: Store, calls: seq<Call>) {
    && (forall i, j | 0 <= i < j < |calls| && calls[i].token.Some? :: calls[i].token != calls[j].token)
    && forall i, x | 0 <= i < |calls| && x in s.objects :: calls[i].token != Some(s.objects[x].meta.resourceVersion)
  }

  lemma StepVersion(s: Store, c: Call, x: string)
    requires x in Step(s, c).objects
    ensures var o := Step(s, c).objects[x];
      || (x in s.objects && o == s.objects[x] && (Commits(s, c) ==> c.request.objectId != x))
      || (Commits(s, c) && c.request.objectId == x && c.token == Some(o.meta.resourceVersion))
  {
    hide AdmittedTo, ValidToken, NextObject;
    if Commits(s, c) {
      SuccessorId(Current(s.objects, c.request.objectId), c.request, c.now, c.token.value);
    }
  }

  // Where the current version of an object comes from; -1 is the initial store.
  lemma {:induction false} VersionOrigin(s: Store, calls: seq<Call>, n: nat, x: string) returns (k: int)
    requires n <= |calls| && x in At(s, calls, n).objects
    ensures -1 <= k < n
    ensures var v := At(s, calls, n).objects[x].meta.resourceVersion;
      if k == -1 then x in s.objects && v == s.objects[x].meta.resourceVersion else calls[k].token == Some(v)
  {
    AtStart(s, calls);
    hide At, Step;
    if n == 0 {
      return -1;
    }
    AtNext(s, calls, n - 1);
    StepVersion(At(s, calls, n - 1), calls[n - 1], x);
    if calls[n - 1].token == Some(At(s, calls, n).objects[x].meta.resourceVersion) {
      return n - 1;
    }
    k := VersionOrigin(s, calls, n - 1, x);
  }

  // After a commit on x its version is that of a commit on x, the same one or
  // a later one.
  lemma {:induction false} VersionSince(s: Store, calls: seq<Call>, i: nat, n: nat, x: string) returns (k: nat)
    requires i < n <= |calls| && Commits(At(s, calls, i), calls[i]) && calls[i].request.objectId == x
    ensures i <= k < n && x in At(s, calls, n).objects
    ensures Commits(At(s, calls, k), calls[k]) && calls[k].request.objectId == x
    ensures calls[k].token == Some(At(s, calls, n).objects[x].meta.resourceVersion)
    decreases n
  {
    hide At, Commits;
    AtNext(s, calls, n - 1);
    if n == i + 1 {
      CommitVersion(At(s, calls, i), calls[i]);
      k := i;
    } else {
      k := VersionSince(s, calls, i, n - 1, x);
      ObjectsStay(At(s, calls, n - 1), calls[n - 1], x);
      StepVersion(At(s, calls, n - 1), calls[n - 1], x);
      if Commits(At(s, calls, n - 1), calls[n - 1]) && calls[n - 1].request.objectId == x {
        k := n - 1;
      }
    }
  }

  lemma CommitVersion(s: Store, c: Call)
    requires Commits(s, c)
    ensures c.request.objectId in Step(s, c).objects && c.token == Some(Step(s, c).objects[c.request.objectId].meta.resourceVersion)
  {
    hide AdmittedTo, ValidToken, NextObject;
    SuccessorId(Current(s.objects, c.request.objectId), c.request, c.now, c.token.value);
  }

  // Nothing is ever deleted.
  lemma ObjectsStay(s: Store, c: Call, x: string)
    requires x in s.objects
    ensures x in Step(s, c).objects
  {
    hide AdmittedTo, ValidToken, Successor;
  }

  lemma ReplacesCurrent(s: Store, calls: seq<Call>, i: nat, x: string, v: string)
    requires i < |calls| && ReplacesFrom(s, calls, i, x, v)
    ensures x in At(s, calls, i).objects && At(s, calls, i).objects[x].meta.resourceVersion == v
  {
    hide At, SnapshotOk, RequestOk, TypedSuccessorOk, Succeeds, ValidToken, ValidIdentifier, MetadataOk, TopologyOf, Updated;
  }

  // No lost updates: unless a version is reissued for x, two replacements of
  // x are never guarded by the same version.
  lemma NoLostUpdates(s: Store, calls: seq<Call>, i: nat, j: nat, x: string, v: string, w: string)
    requires i < j < |calls| && ReplacesFrom(s, calls, i, x, v) && ReplacesFrom(s, calls, j, x, w)
    requires forall k | i <= k < j :: !Reissues(s, calls, k, x)
    ensures v != w
  {
    hide At, Commits;
    ReplacesCurrent(s, calls, i, x, v);
    ReplacesCurrent(s, calls, j, x, w);
    var k := VersionSince(s, calls, i, j, x);
    assert !Reissues(s, calls, k, x);
  }

  // Fresh tokens reissue nothing.
  lemma FreshTokensReissueNothing(s: Store, calls: seq<Call>, i: nat, x: string)
    requires FreshTokens(s, calls) && i < |calls|
    ensures !Reissues(s, calls, i, x)
  {
    hide At, Commits;
    if Reissues(s, calls, i, x) {
      var k: nat :| k <= i && x in At(s, calls, k).objects && calls[i].token == Some(At(s, calls, k).objects[x].meta.resourceVersion);
      var l := VersionOrigin(s, calls, k, x);
      assert false;
    }
  }

  // ---- what survives replacement ----

  // b is a later state of the same stored object as a.
  ghost predicate Descends(a: StoredObject, b: StoredObject) {
    && a.objectType == b.objectType && a.meta.objectId == b.meta.objectId && a.meta.createdAt == b.meta.createdAt
    && a.meta.updatedAt <= b.meta.updatedAt && a.meta.generation <= b.meta.generation && SameIdentity(a, b)
  }

  // Each type's immutable fields; for observations also that ownership and
  // generation stay, that what was observed never goes back, and that without
  // advancing it says the same.
  ghost predicate SameIdentity(a: StoredObject, b: StoredObject) {
    match a.objectType
    case ScopeObject => ReadScope(a).Some? && ReadScope(b).Some? && ReadScope(a).value.kind == ReadScope(b).value.kind
    case RoleObject =>
      && ReadRole(a).Some? && ReadRole(b).Some?
      && ReadRole(a).value.role == ReadRole(b).value.role && ReadRole(a).value.serviceIdentityId == ReadRole(b).value.serviceIdentityId
    case NetworkZoneObject =>
      && ReadNetworkZone(a).Some? && ReadNetworkZone(b).Some?
      && ReadNetworkZone(a).value.kind == ReadNetworkZone(b).value.kind && ReadNetworkZone(a).value.siteId == ReadNetworkZone(b).value.siteId
    case NetworkInterfaceObject =>
      && ReadInterface(a).Some? && ReadInterface(b).Some?
      && ReadInterface(a).value.nodeId == ReadInterface(b).value.nodeId && ReadInterface(a).value.kind == ReadInterface(b).value.kind
      && ReadInterface(a).value.siteId == ReadInterface(b).value.siteId
    case DesiredObject =>
      && ReadDesired(a).Some? && ReadDesired(b).Some?
      && ReadDesired(a).value.kind == ReadDesired(b).value.kind && ReadDesired(a).value.targetObjectId == ReadDesired(b).value.targetObjectId
    case ActualObject => ReadActual(a).Some? && ReadActual(b).Some? && ObservedForward(a.meta, ReadActual(a).value, b.meta, ReadActual(b).value)
    case _ => true
  }

  predicate ObservedForward(a: ObjectMetadata, x: ActualDocument, b: ObjectMetadata, y: ActualDocument) {
    && a.generation == b.generation && a.scopeId == b.scopeId && a.ownerScope == b.ownerScope
    && x.kind == y.kind && x.targetObjectId == y.targetObjectId && x.desiredObjectId == y.desiredObjectId && x.sourceNodeId == y.sourceNodeId
    && x.observedGeneration <= y.observedGeneration && x.observedAt <= y.observedAt
    && (x.observedGeneration == y.observedGeneration && x.observedAt == y.observedAt ==> x.status == y.status && x.state == y.state)
  }

  lemma TypedDescends(o: StoredObject, t: Topology)
    requires TypedOk(o, t)
    ensures Descends(o, o)
  {
    hide LocatedOk, ScopeObjectOk, RoleOk, DesiredOk, ObservationOk, Inside;
  }

  lemma DescendsTransitive(a: StoredObject, b: StoredObject, c: StoredObject)
    requires Descends(a, b) && Descends(b, c)
    ensures Descends(a, c)
  {
  }

  lemma GenerationMoves(a: ObjectMetadata, b: ObjectMetadata, changed: bool)
    requires Succeeds(a, b, changed)
    ensures b.generation == a.generation + (if changed then 1 else 0)
    ensures a.objectId == b.objectId && a.createdAt == b.createdAt && a.updatedAt <= b.updatedAt
    ensures !changed ==> a.scopeId == b.scopeId && a.ownerScope == b.ownerScope
  {
    hide MetadataOk;
  }

  lemma ReplacementDescends(current: StoredObject, r: MutationRequest, next: StoredObject, t: Topology)
    requires Replaceable(current, r, next, t) && next.objectType == r.objectType
    ensures Descends(current, next)
  {
    hide Guards, Succeeds, RoleOk;
    GenerationMoves(current.meta, next.meta, DesiredChanged(current, r));
  }

  lemma StepDescends(s: Store, c: Call, x: string)
    requires SnapshotOk(s.objects) && x in s.objects
    ensures x in Step(s, c).objects && Descends(s.objects[x], Step(s, c).objects[x])
  {
    hide SnapshotOk, Replaceable, Descends, RequestOk, TopologyOf, NextObject, ValidToken;
    SnapshotTyped(s.objects, x);
    if Commits(s, c) && c.request.objectId == x {
      SuccessorId(Current(s.objects, x), c.request, c.now, c.token.value);
      var m := Updated(s.objects, c.request, c.now, c.token.value);
      OperationKnown(c.request, c.now);
      ReplacementDescends(s.objects[x], c.request, m[x], TopologyOf(m));
    }
  }

  lemma SnapshotTyped(m: map<string, StoredObject>, x: string)
    requires SnapshotOk(m) && x in m
    ensures Descends(m[x], m[x])
  {
    hide EnvelopesOk, TypedOk, Descends, TopologyOk, RolesOk, NetworkOk, TopologyOf, Extract, BoundIn;
    TypedDescends(m[x], TopologyOf(m));
  }

  // Over any run an object keeps its type, its identity fields and its
  // creation time, and neither generation nor observations ever go back.
  lemma {:induction false} RunDescends(s: Store, calls: seq<Call>, n: nat, x: string)
    requires SnapshotOk(s.objects) && x in s.objects && n <= |calls|
    ensures x in At(s, calls, n).objects && Descends(s.objects[x], At(s, calls, n).objects[x])
  {
    hide SnapshotOk, Descends, Step;
    if n == 0 {
      SnapshotTyped(s.objects, x);
      assert calls[..0] == [];
    } else {
      RunDescends(s, calls, n - 1, x);
      RunKeepsValid(s, calls, n - 1);
      AtNext(s, calls, n - 1);
      var before := At(s, calls, n - 1);
      StepDescends(before, calls[n - 1], x);
      DescendsTransitive(s.objects[x], before.objects[x], At(s, calls, n).objects[x]);
    }
  }

  // ---- generations ----

  // Two stored states of an object declare different intent; observations
  // declare none.
  predicate IntentDiffers(a: StoredObject, b: StoredObject) {
    a.objectType != ActualObject
    && !(a.meta.scopeId == b.meta.scopeId && a.meta.ownerScope == b.meta.ownerScope && ValueOf(a.document) == ValueOf(b.document))
  }

  // How often the stored x came to declare different intent.
  ghost function IntentChanges(s: Store, calls: seq<Call>, x: string): nat {
    if calls == [] then 0
    else
      var before, after := After(s, calls[..|calls| - 1]), After(s, calls);
      IntentChanges(s, calls[..|calls| - 1], x)
      + if x in before.objects && x in after.objects && IntentDiffers(before.objects[x], after.objects[x]) then 1 else 0
  }

  // b is what an admitted request stores: its own content under the new
  // version, with a generation that moves exactly with the stored intent.
  predicate Stored(m: map<string, StoredObject>, r: MutationRequest, now: int, version: string, b: StoredObject) {
    && b.objectType == r.objectType && b.document == r.document
    && b.meta.objectId == r.objectId && b.meta.scopeId == r.scopeId && b.meta.ownerScope == r.ownerScope
    && b.meta.resourceVersion == version && b.meta.updatedAt == now
    && if r.objectId in m then
         var a := m[r.objectId];
         && r.operation == Replace && r.precondition.Some? && r.precondition.value.resourceVersion == a.meta.resourceVersion
         && (r.precondition.value.generation.Some? ==> r.precondition.value.generation.value == a.meta.generation)
         && a.objectType == b.objectType && a.meta.resourceVersion != b.meta.resourceVersion
         && a.meta.createdAt == b.meta.createdAt && a.meta.updatedAt <= b.meta.updatedAt
         && b.meta.generation == a.meta.generation + if IntentDiffers(a, b) then 1 else 0
       else r.operation == Create && r.precondition.None? && b.meta.createdAt == now && b.meta.generation == 1
  }

  lemma AdmittedStores(m: map<string, StoredObject>, r: MutationRequest, now: int, version: string)
    requires AdmittedTo(m, r, now, version)
    ensures Stored(m, r, now, version, Successor(m, r, now, version))
  {
    hide SnapshotOk, TopologyOf, MetadataOk, TypedSuccessorOk, ValidIdentifier, ValidToken, Updated, ValueOf;
  }

  lemma CommitUpdates(s: Store, c: Call)
    requires Commits(s, c)
    ensures c.token.Some? && AdmittedTo(s.objects, c.request, c.now, c.token.value)
    ensures var next := Successor(s.objects, c.request, c.now, c.token.value);
      && Step(s, c).objects == s.objects[c.request.objectId := next]
      && Step(s, c).receipts == s.receipts[c.key := Receipt(FingerprintOf(c.request), next)]
  {
    hide AdmittedTo, Successor, ValidToken, FingerprintOf;
  }

  // A committed call stores its request, keeps every other object and files
  // the stored object under its key.
  lemma CommitStores(s: Store, c: Call)
    requires Commits(s, c)
    ensures var x, next := c.request.objectId, Step(s, c);
      && next.objects.Keys == s.objects.Keys + {x} && (forall y | y in s.objects && y != x :: next.objects[y] == s.objects[y])
      && Stored(s.objects, c.request, c.now, c.token.value, next.objects[x])
      && next.receipts == s.receipts[c.key := Receipt(FingerprintOf(c.request), next.objects[x])]
  {
    hide *;
    CommitUpdates(s, c);
    AdmittedStores(s.objects, c.request, c.now, c.token.value);
  }

  lemma StepGeneration(s: Store, c: Call, x: string)
    requires x in s.objects
    ensures x in Step(s, c).objects
    ensures var a, b := s.objects[x], Step(s, c).objects[x]; b.meta.generation == a.meta.generation + if IntentDiffers(a, b) then 1 else 0
  {
    hide AdmittedTo, Settled, ValidToken, Updated, Successor, FingerprintOf, ValueOf;
    if Commits(s, c) {
      CommitStores(s, c);
    }
  }

  // Generation rises by one whenever the stored intent changes and not otherwise.
  lemma {:induction false} GenerationCountsIntent(s: Store, calls: seq<Call>, x: string)
    requires x in s.objects
    ensures x in After(s, calls).objects
    ensures After(s, calls).objects[x].meta.generation == s.objects[x].meta.generation + IntentChanges(s, calls, x)
  {
    hide Step, IntentDiffers;
    if calls != [] {
      var front, last := calls[..|calls| - 1], calls[|calls| - 1];
      GenerationCountsIntent(s, front, x);
      StepGeneration(After(s, front), last, x);
    }
  }

  // ---- the root ----

  // In every state of every run the global root is the same object, and no
  // authority is ever delegated to it.
  lemma RootStays(s: Store, calls: seq<Call>, n: nat, authority: Authority)
    requires SnapshotOk(s.objects) && n <= |calls|
    ensures var t, t' := TopologyOf(s.objects), TopologyOf(At(s, calls, n).objects);
      t'.rootId == t.rootId && t'.rootId in t'.scopes && !Delegated(t', t'.rootId, authority)
  {
    RunKeepsValid(s, calls, n);
    var m, m' := s.objects, At(s, calls, n).objects;
    SnapshotTree(m);
    SnapshotTree(m');
    var root := RootOf(m);
    RootIsStored(m);
    RunDescends(s, calls, n, root);
    hide At, SnapshotOk, RootOf, TreeOk;
    GlobalStays(m[root], m'[root]);
    RootFound(m', root);
    RootHoldsNoGrant(TopologyOf(m'), authority);
  }

  lemma SnapshotTree(m: map<string, StoredObject>)
    requires SnapshotOk(m)
    ensures TopologyOk(TopologyOf(m)) && TreeOk(Extract(m, ReadScope), RootOf(m))
  {
    hide EnvelopesOk, AllTyped, RolesOk, NetworkOk, SitesOk, ZonesOk, TreeOk, Extract, RootOf, BoundIn;
  }

  lemma RootIsStored(m: map<string, StoredObject>)
    requires TreeOk(Extract(m, ReadScope), RootOf(m))
    ensures RootOf(m) in m && ReadScope(m[RootOf(m)]).Some? && ReadScope(m[RootOf(m)]).value.kind == Global
  {
    hide ScopeOk, Within, RootOf;
    assert RootOf(m) in Extract(m, ReadScope);
  }

  lemma GlobalStays(a: StoredObject, b: StoredObject)
    requires Descends(a, b) && ReadScope(a).Some? && ReadScope(a).value.kind == Global
    ensures ReadScope(b).Some? && ReadScope(b).value.kind == Global
  {
  }

  lemma RootFound(m: map<string, StoredObject>, x: string)
    requires TreeOk(Extract(m, ReadScope), RootOf(m)) && x in m && ReadScope(m[x]).Some? && ReadScope(m[x]).value.kind == Global
    ensures RootOf(m) == x && x in Extract(m, ReadScope)
  {
    hide TreeOk, RootOf;
    RootUnique(Extract(m, ReadScope), RootOf(m), x);
  }
}
