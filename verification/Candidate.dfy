/**
  Settlement candidate identities: a candidate's id is the digest of the canonical JSON of
  its binding, and the native-verified id digests that id together with the native
  checkpoint. With a collision-free SHA-256 an id pins every bound field.
 */
module Candidate {
  import opened Prelude
  import opened CanonicalJson
  import Utf8

  /** How a field is typed in the binding. */
  datatype Kind = Words | Number | Big

  datatype Field = W(text: Text) | N(number: int) | B(bigint: int)

  type Schema = seq<(string, Kind)>
  type Record = seq<Field>

  /** The binding of buildAuthenticatedSettlementCandidate. The order is free (the text does not
      depend on it); here names are listed by fingerprint, which makes them easy to tell apart. */
  const CANDIDATE: Schema := [
    ("burnId", Words), ("burnTxHash", Words), ("trackerKey", Words), ("vaultBoxId", Words),
    ("sidechainId", Words), ("trackerValue", Words), ("trackerBoxId", Words), ("dupInputBoxId", Words),
    ("schemaVersion", Number), ("anchorHeaderId", Words), ("creationHeight", Number),
    ("dupInputDigest", Words), ("observedErgoTip", Number), ("sidechainHeight", Big),
    ("unsignedTxDigest", Words), ("sidechainLogIndex", Number), ("anchorHeaderHeight", Number),
    ("sidechainBlockHash", Words), ("observedSidechainTip", Big)
  ]

  /** The nativeCheckpoint object of the native-verified id. */
  const CHECKPOINT: Schema := [
    ("burnIdHex", Words), ("leafIndex", Number), ("assetIdHex", Words), ("eventIndex", Number),
    ("leafHashHex", Words), ("amountNanoErg", Words), ("burnLeafCount", Number), ("trackerKeyHex", Words),
    ("sidechainIdHex", Words), ("sidechainHeight", Words), ("trackerValueHex", Words),
    ("bridgeEventRootHex", Words), ("proofPathDigestHex", Words), ("sidechainTxHashHex", Words),
    ("finalityProgramIdHex", Words), ("trustAnchorDigestHex", Words), ("executionBlockHashHex", Words),
    ("finalityProofSystemId", Number), ("finalityHorizonHeight", Words), ("finalityHorizonHashHex", Words),
    ("finalityProofDigestHex", Words), ("checkpointCommitmentHex", Words),
    ("recipientErgoTreeHashHex", Words), ("trackerAnchorHeaderIdHex", Words),
    ("trackerAnchorHeaderHeight", Number), ("finalityStatementDigestHex", Words),
    ("nativeConsensusBlockHashHex", Words), ("finalityVerifierProfileIdHex", Words),
    ("finalityProofPayloadDigestHex", Words), ("nativeVerificationRequestDigestHex", Words)
  ]

  predicate Fits(field: Field, kind: Kind) {
    match kind
    case Words => field.W?
    case Number => field.N?
    case Big => field.B?
  }

  ghost predicate Typed(record: Record, schema: Schema) {
    |record| == |schema| && forall i :: 0 <= i < |schema| ==> Fits(record[i], schema[i].1)
  }

  function ToJson(field: Field): Json {
    match field
    case W(text) => Str(text)
    case N(number) => Num(number)
    case B(bigint) => BigInt(bigint)
  }

  /** The code unit of a character; property names are ASCII. */
  function Unit(c: char): int {
    if c as int < 0x1_0000 then c as int else 0
  }

  function Name(s: string): (r: Text)
    ensures |r| == |s|
    ensures forall i :: 0 <= i < |s| ==> r[i] == Unit(s[i])
  {
    seq(|s|, i requires 0 <= i < |s| => Unit(s[i]))
  }

  function Properties(record: Record, schema: Schema): (r: seq<(Text, Json)>)
    requires |record| == |schema|
    ensures |r| == |record|
    ensures forall i :: 0 <= i < |r| ==> r[i] == (Name(schema[i].0), ToJson(record[i]))
  {
    seq(|record|, i requires 0 <= i < |record| => (Name(schema[i].0), ToJson(record[i])))
  }

  lemma PropertiesSerialize(record: Record, schema: Schema)
    requires |record| == |schema|
    ensures Serializable(Obj(Properties(record, schema)))
  {
    forall i | 0 <= i < |record|
      ensures Serializable(Properties(record, schema)[i].1)
    {
    }
  }

  /** A digest of byte strings without collisions (SHA-256). */
  ghost predicate CollisionFree(hash: Bytes -> Text) {
    forall a, b :: hash(a) == hash(b) ==> a == b
  }

  /** sha256Hex of the module: the digest of the UTF-8 form of the canonical text. */
  function Sha256Hex(hash: Bytes -> Text, v: Json): Text
    requires Serializable(v)
  {
    hash(Utf8.Encode(Print(v)))
  }

  /** Equal digests are of values that print the same. */
  lemma SameDigest(hash: Bytes -> Text, v: Json, w: Json)
    requires CollisionFree(hash) && Serializable(v) && Serializable(w) && Sha256Hex(hash, v) == Sha256Hex(hash, w)
    ensures Normal(v) == Normal(w)
  {
    hide Print, Normal, Utf8.Encode;
    Utf8.PrintPairs(v);
    Utf8.PrintPairs(w);
    Utf8.EncodeInjective(Print(v), Print(w));
    ParseInvertsPrint(v);
    ParseInvertsPrint(w);
  }

  /** candidateId of buildAuthenticatedSettlementCandidate */
  function CandidateId(hash: Bytes -> Text, record: Record): Text
    requires |record| == |CANDIDATE|
  {
    PropertiesSerialize(record, CANDIDATE);
    Sha256Hex(hash, Obj(Properties(record, CANDIDATE)))
  }

  /** The object digested by deriveNativeVerifiedAuthenticatedSettlementCandidateId. */
  function NativeBinding(schemaVersion: int, candidateId: Text, checkpoint: Record): seq<(Text, Json)>
    requires |checkpoint| == |CHECKPOINT|
  {
    [(Name("schemaVersion"), Num(schemaVersion)),
     (Name("candidateId"), Str(candidateId)),
     (Name("nativeCheckpoint"), Obj(Properties(checkpoint, CHECKPOINT)))]
  }

  function NativeId(hash: Bytes -> Text, schemaVersion: int, candidateId: Text, checkpoint: Record): Text
    requires |checkpoint| == |CHECKPOINT|
  {
    PropertiesSerialize(checkpoint, CHECKPOINT);
    Sha256Hex(hash, Obj(NativeBinding(schemaVersion, candidateId, checkpoint)))
  }

  // ----- Property names differ -----

  /** Length, first, fourth-last and last character tell the property names apart. */
  function Fingerprint(name: string): int {
    if |name| < 4 then 0
    else ((|name| * 128 + Unit(name[0])) * 128 + Unit(name[|name| - 4])) * 128 + Unit(name[|name| - 1])
  }

  /** The fingerprints of a schema's names strictly increase. */
  ghost predicate Increasing(schema: Schema) {
    forall i :: 0 <= i < |schema| - 1 ==> Below(schema[i].0, schema[i + 1].0)
  }

  ghost predicate Below(name: string, next: string) {
    Fingerprint(name) < Fingerprint(next)
  }

  lemma CandidateNamesA()
    ensures Below("burnId", "burnTxHash")
    ensures Below("burnTxHash", "trackerKey")
    ensures Below("trackerKey", "vaultBoxId")
    ensures Below("vaultBoxId", "sidechainId")
    ensures Below("sidechainId", "trackerValue")
    ensures Below("trackerValue", "trackerBoxId")
  {
  }

  lemma CandidateNamesB()
    ensures Below("trackerBoxId", "dupInputBoxId")
    ensures Below("dupInputBoxId", "schemaVersion")
    ensures Below("schemaVersion", "anchorHeaderId")
    ensures Below("anchorHeaderId", "creationHeight")
    ensures Below("creationHeight", "dupInputDigest")
    ensures Below("dupInputDigest", "observedErgoTip")
  {
  }

  lemma CandidateNamesC()
    ensures Below("observedErgoTip", "sidechainHeight")
    ensures Below("sidechainHeight", "unsignedTxDigest")
    ensures Below("unsignedTxDigest", "sidechainLogIndex")
    ensures Below("sidechainLogIndex", "anchorHeaderHeight")
    ensures Below("anchorHeaderHeight", "sidechainBlockHash")
    ensures Below("sidechainBlockHash", "observedSidechainTip")
  {
  }

  lemma CandidateNames()
    ensures Increasing(CANDIDATE)
  {
    hide Below;
    CandidateNamesA();
    CandidateNamesB();
    CandidateNamesC();
  }

  lemma CheckpointNamesA()
    ensures Below("burnIdHex", "leafIndex")
    ensures Below("leafIndex", "assetIdHex")
    ensures Below("assetIdHex", "eventIndex")
    ensures Below("eventIndex", "leafHashHex")
    ensures Below("leafHashHex", "amountNanoErg")
    ensures Below("amountNanoErg", "burnLeafCount")
  {
  }

  lemma CheckpointNamesB()
    ensures Below("burnLeafCount", "trackerKeyHex")
    ensures Below("trackerKeyHex", "sidechainIdHex")
    ensures Below("sidechainIdHex", "sidechainHeight")
    ensures Below("sidechainHeight", "trackerValueHex")
    ensures Below("trackerValueHex", "bridgeEventRootHex")
    ensures Below("bridgeEventRootHex", "proofPathDigestHex")
  {
  }

  lemma CheckpointNamesC()
    ensures Below("proofPathDigestHex", "sidechainTxHashHex")
    ensures Below("sidechainTxHashHex", "finalityProgramIdHex")
    ensures Below("finalityProgramIdHex", "trustAnchorDigestHex")
    ensures Below("trustAnchorDigestHex", "executionBlockHashHex")
    ensures Below("executionBlockHashHex", "finalityProofSystemId")
    ensures Below("finalityProofSystemId", "finalityHorizonHeight")
  {
  }

  lemma CheckpointNamesD()
    ensures Below("finalityHorizonHeight", "finalityHorizonHashHex")
    ensures Below("finalityHorizonHashHex", "finalityProofDigestHex")
    ensures Below("finalityProofDigestHex", "checkpointCommitmentHex")
    ensures Below("checkpointCommitmentHex", "recipientErgoTreeHashHex")
    ensures Below("recipientErgoTreeHashHex", "trackerAnchorHeaderIdHex")
    ensures Below("trackerAnchorHeaderIdHex", "trackerAnchorHeaderHeight")
  {
  }

  lemma CheckpointNamesE()
    ensures Below("trackerAnchorHeaderHeight", "finalityStatementDigestHex")
    ensures Below("finalityStatementDigestHex", "nativeConsensusBlockHashHex")
    ensures Below("nativeConsensusBlockHashHex", "finalityVerifierProfileIdHex")
    ensures Below("finalityVerifierProfileIdHex", "finalityProofPayloadDigestHex")
    ensures Below("finalityProofPayloadDigestHex", "nativeVerificationRequestDigestHex")
  {
  }

  lemma CheckpointNames()
    ensures Increasing(CHECKPOINT)
  {
    hide Below;
    CheckpointNamesA();
    CheckpointNamesB();
    CheckpointNamesC();
    CheckpointNamesD();
    CheckpointNamesE();
  }

  lemma {:induction false} LaterNameDiffers(schema: Schema, i: nat, j: nat)
    requires Increasing(schema) && i < j < |schema|
    ensures Below(schema[i].0, schema[j].0)
    decreases j - i
  {
    if i + 1 < j {
      LaterNameDiffers(schema, i, j - 1);
    }
    assert Below(schema[j - 1].0, schema[j - 1 + 1].0);
  }

  lemma PropertyNamesDistinct(record: Record, schema: Schema)
    requires |record| == |schema| && Increasing(schema)
    ensures DistinctKeys(Properties(record, schema))
  {
    hide Name;
    forall i, j | 0 <= i < j < |schema|
      ensures Name(schema[i].0) != Name(schema[j].0)
    {
      LaterNameDiffers(schema, i, j);
    }
  }

  // ----- What an id pins -----

  lemma SameField(a: Field, b: Field, kind: Kind)
    requires Fits(a, kind) && Fits(b, kind) && Normal(ToJson(a)) == Normal(ToJson(b))
    ensures a == b
  {
    if kind == Big {
      hide SignedDecimal;
      NumberReads(a.bigint, []);
      NumberReads(b.bigint, []);
    }
  }

  /** Two records of one schema print the same object only if they are the same record. */
  lemma SameRecord(a: Record, b: Record, schema: Schema)
    requires Typed(a, schema) && Typed(b, schema) && Increasing(schema)
    requires Normal(Obj(Properties(a, schema))) == Normal(Obj(Properties(b, schema)))
    ensures a == b
  {
    hide Increasing, Name;
    var pa, pb := Properties(a, schema), Properties(b, schema);
    PropertyNamesDistinct(a, schema);
    SameSorted(NormalFields(pa), NormalFields(pb));
    forall i | 0 <= i < |schema|
      ensures a[i] == b[i]
    {
      NormalFieldAt(pa, i);
      NormalFieldAt(pb, i);
      SameField(a[i], b[i], schema[i].1);
    }
  }

  /** Equal candidate ids: every bound field is equal. */
  lemma CandidateIdPins(hash: Bytes -> Text, a: Record, b: Record)
    requires CollisionFree(hash) && Typed(a, CANDIDATE) && Typed(b, CANDIDATE)
    ensures CandidateId(hash, a) == CandidateId(hash, b) <==> a == b
  {
    hide Print, Serializable, Properties, CANDIDATE;
    if CandidateId(hash, a) == CandidateId(hash, b) {
      PropertiesSerialize(a, CANDIDATE);
      PropertiesSerialize(b, CANDIDATE);
      SameDigest(hash, Obj(Properties(a, CANDIDATE)), Obj(Properties(b, CANDIDATE)));
      CandidateNames();
      SameRecord(a, b, CANDIDATE);
    }
  }

  /** Equal native-verified ids: the schema version, the candidate id and every checkpoint
      field are equal. */
  lemma NativeIdPins(
    hash: Bytes -> Text, versionA: int, idA: Text, a: Record, versionB: int, idB: Text, b: Record)
    requires CollisionFree(hash) && Typed(a, CHECKPOINT) && Typed(b, CHECKPOINT)
    ensures NativeId(hash, versionA, idA, a) == NativeId(hash, versionB, idB, b)
            <==> versionA == versionB && idA == idB && a == b
  {
    if NativeId(hash, versionA, idA, a) == NativeId(hash, versionB, idB, b) {
      PropertiesSerialize(a, CHECKPOINT);
      PropertiesSerialize(b, CHECKPOINT);
      var va, vb := NativeBinding(versionA, idA, a), NativeBinding(versionB, idB, b);
      SameDigest(hash, Obj(va), Obj(vb));
      NativeBindingParts(versionA, idA, a, versionB, idB, b);
      CheckpointNames();
      SameRecord(a, b, CHECKPOINT);
    }
  }

  lemma NativeBindingParts(versionA: int, idA: Text, a: Record, versionB: int, idB: Text, b: Record)
    requires |a| == |b| == |CHECKPOINT|
    requires Normal(Obj(NativeBinding(versionA, idA, a))) == Normal(Obj(NativeBinding(versionB, idB, b)))
    ensures versionA == versionB && idA == idB
    ensures Normal(Obj(Properties(a, CHECKPOINT))) == Normal(Obj(Properties(b, CHECKPOINT)))
  {
    hide Properties;
    var va, vb := NativeBinding(versionA, idA, a), NativeBinding(versionB, idB, b);
    assert |Name("schemaVersion")| == 13 && |Name("candidateId")| == 11 && |Name("nativeCheckpoint")| == 16;
    SameSorted(NormalFields(va), NormalFields(vb));
    NormalFieldAt(va, 0);
    NormalFieldAt(va, 1);
    NormalFieldAt(va, 2);
    NormalFieldAt(vb, 0);
    NormalFieldAt(vb, 1);
    NormalFieldAt(vb, 2);
  }
}
