// The store a supported older database is upgraded to: its one object, the
// global scope, is a valid snapshot, so every run has a place to start.
module Bootstrap {
  import opened Metadata
  import opened NetworkContracts
  import opened Objects
  import opened Options
  import opened Repository
  import opened Text
  import opened Topologies
  import opened VersionReuse

  const GLOBAL := "global"
  const BOOTSTRAP_VERSION := "bootstrap-v0.3-global"

  const GLOBAL_SCOPE := Scope(GLOBAL, Global, "Global", "", [])

  // Any JSON object from which the scope decoder reads the global scope.
  function LegacyGlobalScope(createdAt: int, document: Document): StoredObject {
    StoredObject(ObjectMetadata(GLOBAL, GLOBAL, GLOBAL, 1, BOOTSTRAP_VERSION, createdAt, createdAt), ScopeObject, document)
  }

  predicate ReadsGlobalScope(d: Document) {
    d.JsonObject? && d.readings.scope == Some(GLOBAL_SCOPE)
  }

  function LegacyObjects(createdAt: int, document: Document): map<string, StoredObject> {
    map[GLOBAL := LegacyGlobalScope(createdAt, document)]
  }

  lemma {:induction false} ByteLengthBound(s: string)
    ensures ByteLength(s) <= 4 * |s|
  {
    if s != [] {
      ByteLengthBound(s[..|s| - 1]);
    }
  }

  lemma NothingToTrim(s: string)
    requires s != "" && !IsSpace(s[0]) && !IsSpace(s[|s| - 1])
    ensures TrimSpace(s) == s
  {
  }

  lemma LegacyNamesOk()
    ensures ValidIdentifier(GLOBAL) && ValidToken(BOOTSTRAP_VERSION) && ValidDisplayName("Global")
  {
    ByteLengthBound(BOOTSTRAP_VERSION);
    ByteLengthBound("Global");
    NothingToTrim(BOOTSTRAP_VERSION);
    NothingToTrim("Global");
  }

  lemma LegacyTree(m: map<string, Scope>)
    requires m == map[GLOBAL := GLOBAL_SCOPE]
    ensures TreeOk(m, GLOBAL)
  {
    LegacyNamesOk();
    hide ValidIdentifier, ValidDisplayName;
    WithinReflexive(m, GLOBAL);
  }

  lemma LegacyExtracts(createdAt: int, document: Document)
    requires ReadsGlobalScope(document)
    ensures var m := LegacyObjects(createdAt, document);
      && Extract(m, ReadScope) == map[GLOBAL := GLOBAL_SCOPE]
      && Extract(m, ReadSite) == map[] && Extract(m, ReadZone) == map[] && Extract(m, ReadRole) == map[]
      && Extract(m, ReadNetworkZone) == map[] && Extract(m, ReadInterface) == map[]
  {
  }

  lemma NoNetwork(bound: set<(string, string)>, t: Topology)
    ensures NetworkOk(map[], map[], bound, t)
  {
    forall node ensures OnNode(map[], node) == {} {
    }
  }

  // The bootstrap snapshot is accepted.
  lemma LegacySnapshotIsValid(createdAt: int, document: Document)
    requires createdAt != 0 && ReadsGlobalScope(document)
    ensures SnapshotOk(LegacyObjects(createdAt, document))
  {
    var m := LegacyObjects(createdAt, document);
    LegacyNamesOk();
    LegacyExtracts(createdAt, document);
    LegacyTree(Extract(m, ReadScope));
    RootOfTree(m, GLOBAL);
    NoNetwork(BoundIn(m), TopologyOf(m));
    hide ValidIdentifier, ValidToken, ValidDisplayName, TreeOk, Extract, RootOf, NetworkOk, BoundIn;
  }

  // From it, every run keeps a valid store under the same global scope.
  lemma LegacyRuns(createdAt: int, document: Document, calls: seq<Call>)
    requires createdAt != 0 && ReadsGlobalScope(document)
    ensures var s := After(Store(LegacyObjects(createdAt, document), map[]), calls);
      && SnapshotOk(s.objects) && GLOBAL in s.objects && s.objects[GLOBAL].objectType == ScopeObject
      && ReadScope(s.objects[GLOBAL]).Some? && ReadScope(s.objects[GLOBAL]).value.kind == Global
  {
    var start := Store(LegacyObjects(createdAt, document), map[]);
    LegacySnapshotIsValid(createdAt, document);
    RunKeepsValid(start, calls, |calls|);
    RunDescends(start, calls, |calls|, GLOBAL);
    assert calls[..|calls|] == calls;
    hide SnapshotOk, After;
  }

  // Updates are accepted there: the global scope can be submitted again.
  lemma LegacyScopeCanBeRefreshed(createdAt: int, document: Document, version: string, now: int)
    requires createdAt != 0 && ReadsGlobalScope(document)
    requires createdAt <= now && now != 0 && ValidToken(version) && version != BOOTSTRAP_VERSION
    ensures var m := LegacyObjects(createdAt, document); AdmittedTo(m, RefreshRequest(m[GLOBAL]), now, version)
  {
    LegacySnapshotIsValid(createdAt, document);
    hide SnapshotOk, ValidToken, AdmittedTo;
    RefreshIsAdmitted(LegacyObjects(createdAt, document), GLOBAL, version, now);
  }
}
