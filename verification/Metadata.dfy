// The envelope of every distributed object, its compare-and-swap guard and
// the version rules a stored successor has to follow.
module Metadata {
  import opened Options
  import opened Text

  const MAX_IDENTIFIER_LENGTH := 255
  const MAX_UINT64 := 0xFFFF_FFFF_FFFF_FFFF

  type uint64 = x: int | 0 <= x <= MAX_UINT64

  // Unsigned addition wraps around in the source.
  function Increment(x: uint64): uint64 {
    if x == MAX_UINT64 then 0 else x + 1
  }

  datatype ObjectMetadata = ObjectMetadata(
    objectId: string, scopeId: string, ownerScope: string, generation: uint64, resourceVersion: string, createdAt: int, updatedAt: int)

  datatype Precondition = Precondition(objectId: string, resourceVersion: string, generation: Option<uint64>)

  predicate IsControl(c: char) {
    var k := c as int;
    k <= 0x1F || 0x7F <= k <= 0x9F
  }

  // Length of the UTF-8 encoding, which is what len measures.
  function ByteLength(s: string): nat {
    if s == [] then 0
    else
      var k := s[|s| - 1] as int;
      ByteLength(s[..|s| - 1]) + if k < 0x80 then 1 else if k < 0x800 then 2 else if k < 0x10000 then 3 else 4
  }

  predicate ValidIdentifier(s: string) {
    IsIdentifier(s, "._:-", MAX_IDENTIFIER_LENGTH)
  }

  // Opaque versions and idempotency keys share one syntax.
  predicate ValidToken(s: string) {
    && s != "" && TrimSpace(s) == s && ByteLength(s) <= MAX_IDENTIFIER_LENGTH
    && forall i | 0 <= i < |s| :: !IsControl(s[i]) && !IsSpace(s[i])
  }

  predicate ValidDisplayName(s: string) {
    && s != "" && TrimSpace(s) == s && ByteLength(s) <= MAX_IDENTIFIER_LENGTH
    && forall i | 0 <= i < |s| :: !IsControl(s[i])
  }

  lemma IdentifierHoldsNoNul(s: string)
    requires ValidIdentifier(s)
    ensures NUL !in s && s != ""
  {
  }

  predicate MetadataOk(m: ObjectMetadata) {
    && ValidIdentifier(m.objectId) && ValidIdentifier(m.scopeId) && ValidIdentifier(m.ownerScope)
    && m.generation != 0 && ValidToken(m.resourceVersion)
    && m.createdAt != 0 && m.updatedAt != 0 && m.createdAt <= m.updatedAt
  }

  // ObjectPrecondition.ValidateAgainst.
  predicate Guards(p: Precondition, current: ObjectMetadata) {
    && ValidIdentifier(p.objectId) && ValidToken(p.resourceVersion) && p.generation != Some(0)
    && MetadataOk(current)
    && p.objectId == current.objectId && p.resourceVersion == current.resourceVersion
    && (p.generation.Some? ==> p.generation.value == current.generation)
  }

  // ValidateSuccessor.
  predicate Succeeds(current: ObjectMetadata, next: ObjectMetadata, desiredChanged: bool) {
    && MetadataOk(current) && MetadataOk(next)
    && next.objectId == current.objectId && next.createdAt == current.createdAt
    && current.updatedAt <= next.updatedAt && next.resourceVersion != current.resourceVersion
    && (desiredChanged || (next.scopeId == current.scopeId && next.ownerScope == current.ownerScope))
    && (desiredChanged ==> current.generation != MAX_UINT64)
    && next.generation == if desiredChanged then Increment(current.generation) else current.generation
  }
}
