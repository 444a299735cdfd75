/** Records of the durable session journal: claimed native paths, session
    intents, closure seals and proofs, with the validity each one is built with.

    A digest is modelled by the value it is taken of, so equal digests mean
    equal records. */
module JournalTypes {
  import opened Wrappers

  // Operation, session, claim and attempt identities; public room identities.
  type Id = string
  type Room = string

  /** A proven native volume and the component key of one path on it. */
  datatype PathRecord = PathRecord(volume: string, components: seq<string>) {
    predicate Overlaps(other: PathRecord) {
      var count := if |components| <= |other.components| then |components| else |other.components|;
      volume == other.volume && components[..count] == other.components[..count]
    }

    predicate Contains(other: PathRecord) {
      volume == other.volume && components <= other.components
    }
  }

  type ArtifactIdentity = p: PathRecord | 0 < |p.components| <= 128
    witness PathRecord("v", ["c"])

  /** Two subtrees overlap exactly when one root is a prefix of the other. */
  lemma OverlapsIsContainment(a: PathRecord, b: PathRecord)
    ensures a.Overlaps(b) <==> a.Contains(b) || b.Contains(a)
  {
    if a.Overlaps(b) {
      if |a.components| <= |b.components| {
        assert a.components == a.components[..|a.components|];
      } else {
        assert b.components == b.components[..|b.components|];
      }
    }
  }

  /** Whatever overlaps something inside a claimed subtree overlaps the claim itself. */
  lemma OverlapInsideReachesClaim(claim: PathRecord, inside: PathRecord, other: PathRecord)
    requires claim.Contains(inside) && inside.Overlaps(other)
    ensures claim.Overlaps(other)
  {
    OverlapsIsContainment(inside, other);
    OverlapsIsContainment(claim, other);
    var c, i, o := claim.components, inside.components, other.components;
    if |c| <= |o| {
      assert c == i[..|c|] && (if o <= i then o[..|c|] == i[..|c|] else i == o[..|i|]);
    } else {
      assert o <= i;
      assert o == i[..|o|] == c[..|o|];
    }
  }

  datatype IntentRecord = IntentRecord(
    sessionId: Id, creator: string, expectedRoom: Option<Room>,
    root: ArtifactIdentity, output: ArtifactIdentity, parts: ArtifactIdentity,
    rawCopy: bool, startedAt: real, automaticClaim: Option<Id>)
  {
    predicate Valid() {
      && 0.0 <= startedAt
      && root.Contains(output) && root.Contains(parts)
      && !output.Overlaps(parts)
      && (automaticClaim.Some? ==> expectedRoom.Some?)
    }
  }

  /** An accepted session intent; construction refuses anything that is not valid. */
  type SessionIntent = i: IntentRecord | i.Valid()
    witness SmallestIntent()

  function SmallestIntent(): (i: IntentRecord)
    ensures i.Valid()
  {
    var output, parts := PathRecord("v", ["r", ""]), PathRecord("v", ["r", "p"]);
    assert output.components[..2][1] != parts.components[..2][1];
    IntentRecord("s", "c", None, PathRecord("v", ["r"]), output, parts, false, 0.0, None)
  }

  datatype Role = Flv | Raw | Arrivals | Manifest | Connections

  datatype ClosedArtifact = ClosedArtifact(identity: ArtifactIdentity, role: Role, size: nat,
                                           stamp: string, controlHash: Option<string>)

  function CountRole(artifacts: seq<ClosedArtifact>, role: Role): nat {
    if artifacts == [] then 0
    else (if artifacts[0].role == role then 1 else 0) + CountRole(artifacts[1..], role)
  }

  datatype SealRecord = SealRecord(
    sessionId: Id, generation: int, room: Room, rawCopy: bool, endedAt: real,
    artifacts: seq<ClosedArtifact>, warnings: seq<string>)
  {
    predicate Valid() {
      && 0 < generation && 0.0 <= endedAt
      && 3 <= |artifacts| <= 4096 && |warnings| <= 64
      && (forall i, j | 0 <= i < j < |artifacts| :: artifacts[i].identity != artifacts[j].identity)
      && CountRole(artifacts, Manifest) == 1 && CountRole(artifacts, Connections) == 1
      && CountRole(artifacts, Flv) > 0
      && (rawCopy || (CountRole(artifacts, Raw) == 0 && CountRole(artifacts, Arrivals) == 0))
    }
  }

  /** An immutable closure inventory, valid by construction. */
  type ClosureSeal = s: SealRecord | s.Valid() witness
    SealRecord("s", 1, "r", false, 0.0,
               [ClosedArtifact(PathRecord("v", ["a"]), Flv, 0, "x", None),
                ClosedArtifact(PathRecord("v", ["b"]), Manifest, 0, "x", None),
                ClosedArtifact(PathRecord("v", ["c"]), Connections, 0, "x", None)], [])

  datatype SealHash = HashOf(of: ClosureSeal)

  datatype ReleaseProof = ReleaseProof(sessionId: Id, generation: int, authority: string)
  type ExitIdentity = s: string | 0 < |s| <= 128 witness "e"

  datatype ExitProof = ExitProof(sessionId: Id, token: Id, exitIdentity: ExitIdentity)
  type Size = n: int | n > 0 witness 1

  datatype SettlementProof = SettlementProof(sessionId: Id, token: Id, sealHash: SealHash,
                                             exitIdentity: ExitIdentity, output: ArtifactIdentity,
                                             outputSize: Size, outputHash: string, manifestHash: string)
}
