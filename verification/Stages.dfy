/** The stage payloads of src/inference/InferenceJob.cpp: what the observer decodes to advance a request. */
module Stages {
  import opened Tasks
  import opened Wire

  /** `kind` and `stage` are the raw bytes behind the two enumerations; stages 0 to 3 are named. */
  datatype StagePayload = StagePayload(
    requestId: u64,
    kind: byte,
    stage: byte,
    imagePixels: u32,
    sequenceLength: u32,
    batchSize: u32)

  const DECODE: nat := 0
  const POSTPROCESS: nat := 3

  /** The bytes of a stage payload: 8 + 1 + 1 + 4 + 4 + 4. */
  const STAGE_SIZE: nat := 22

  const STAGE_FMT := Pair(UInt(8), Pair(UInt(1), Pair(UInt(1), Pair(UInt(4), Pair(UInt(4), UInt(4))))))

  function StageVal(p: StagePayload): Val {
    Both(Num(p.requestId), Both(Num(p.kind), Both(Num(p.stage), Both(Num(p.imagePixels),
      Both(Num(p.sequenceLength), Num(p.batchSize))))))
  }

  lemma StageConforms(p: StagePayload)
    ensures Conforms(STAGE_FMT, StageVal(p)) && Fits(STAGE_FMT, StageVal(p))
  {
    Widths();
    ShapeRules();
    hide Pow256, Conforms, Fits;
  }

  /** The bytes of `encode_stage`. */
  ghost function EncodedStage(p: StagePayload): Bytes {
    StageConforms(p);
    Enc(STAGE_FMT, StageVal(p))
  }

  lemma StageFromVal(v: Val) returns (p: StagePayload)
    requires Conforms(STAGE_FMT, v)
    ensures StageVal(p) == v
  {
    Widths();
    ShapeRules();
    hide Conforms, Pow256;
    var v1 := v.right;
    var v2 := v1.right;
    var v3 := v2.right;
    var v4 := v3.right;
    p := StagePayload(v.left.n, v1.left.n, v2.left.n, v3.left.n, v4.left.n, v4.right.n);
  }

  ghost predicate IsStage(b: Bytes, p: StagePayload) {
    Dec(STAGE_FMT, b).Some? && Dec(STAGE_FMT, b).value.0 == StageVal(p)
  }

  /** The result of `decode_stage`: the payload, or None when it returns false. */
  ghost function StageOf(b: Bytes): (r: Option<StagePayload>)
    ensures r.Some? ==> IsStage(b, r.value)
    ensures r.None? ==> Dec(STAGE_FMT, b).None?
  {
    if Dec(STAGE_FMT, b).None? then None
    else
      assert exists p :: IsStage(b, p) by {
        Canonical(STAGE_FMT, b);
        var p := StageFromVal(Dec(STAGE_FMT, b).value.0);
        assert IsStage(b, p);
      }
      var p :| IsStage(b, p);
      Some(p)
  }

  lemma StageInjective(p: StagePayload, q: StagePayload)
    requires StageVal(p) == StageVal(q)
    ensures p == q
  {}

  /** The observer decodes exactly the payload that was submitted, and a stage payload is never empty. */
  lemma StageRoundTrip(p: StagePayload)
    ensures EncodedStage(p) != [] && StageOf(EncodedStage(p)) == Some(p)
  {
    StageConforms(p);
    RoundTripIff(STAGE_FMT, StageVal(p));
    var b := EncodedStage(p);
    assert |b| >= 8;
    hide Enc, Dec, STAGE_FMT, StageVal;
    StageInjective(p, StageOf(b).value);
  }

  lemma ShortIsNoStage(b: Bytes)
    ensures Dec(STAGE_FMT, b).Some? ==> |b| >= STAGE_SIZE
  {
    if Dec(STAGE_FMT, b).Some? {
      ConsumesAtLeast(STAGE_FMT, b);
      assert MinSize(STAGE_FMT) == STAGE_SIZE;
    }
  }

  /** Any 22 bytes read as a stage, with whatever follows them ignored. */
  lemma LongIsStage(b: Bytes)
    requires |b| >= STAGE_SIZE
    ensures Dec(STAGE_FMT, b).Some?
  {
    assert Fixed(STAGE_FMT) && MinSize(STAGE_FMT) == STAGE_SIZE;
    FixedDecodes(STAGE_FMT, b);
  }

  /** The observer takes a payload for a stage exactly when it has at least 22 bytes. */
  lemma StageIffLong(b: Bytes)
    ensures StageOf(b).Some? <==> |b| >= STAGE_SIZE
  {
    ShortIsNoStage(b);
    if |b| >= STAGE_SIZE {
      LongIsStage(b);
    }
    hide Dec, STAGE_FMT;
  }

  /** The buffer starts with the fields of `p`, each at its offset. */
  ghost predicate StageAt(b: Bytes, p: StagePayload) {
    && NumAt(b, 0, 8, p.requestId) && NumAt(b, 8, 1, p.kind) && NumAt(b, 9, 1, p.stage)
    && NumAt(b, 10, 4, p.imagePixels) && NumAt(b, 14, 4, p.sequenceLength) && NumAt(b, 18, 4, p.batchSize)
  }

  lemma StageParts(b: Bytes, p: StagePayload)
    ensures |EncodedStage(p)| == STAGE_SIZE
    ensures PartAt(b, 0, EncodedStage(p)) <==> StageAt(b, p)
  {
    StageConforms(p);
    Widths();
    hide LE, Pow256, NumAt, PartAt;
    var r1 := LE(p.batchSize, 4);
    var r2 := LE(p.sequenceLength, 4) + r1;
    var r3 := LE(p.imagePixels, 4) + r2;
    var r4 := LE(p.stage, 1) + r3;
    var r5 := LE(p.kind, 1) + r4;
    assert EncodedStage(p) == LE(p.requestId, 8) + r5;
    NumThen(b, 0, 8, p.requestId, r5);
    NumThen(b, 8, 1, p.kind, r4);
    NumThen(b, 9, 1, p.stage, r3);
    NumThen(b, 10, 4, p.imagePixels, r2);
    NumThen(b, 14, 4, p.sequenceLength, r1);
    NumPart(b, 18, 4, p.batchSize);
  }

  lemma StageCanonical(b: Bytes, p: StagePayload)
    ensures StageOf(b) == Some(p) <==> EncodedStage(p) <= b
  {
    StageConforms(p);
    var e := EncodedStage(p);
    if e <= b {
      RoundTrip(STAGE_FMT, StageVal(p), b[|e|..]);
      assert b == e + b[|e|..];
      hide Enc, Dec, STAGE_FMT, StageVal;
      StageInjective(p, StageOf(b).value);
    } else if StageOf(b) == Some(p) {
      Canonical(STAGE_FMT, b);
    }
  }

  /** The observer reads `p` from exactly those payloads that hold its fields at their offsets, and what is
      encoded is those fields and nothing else. */
  lemma StageLayoutIff(b: Bytes, p: StagePayload)
    ensures StageOf(b) == Some(p) <==> StageAt(b, p)
    ensures StageAt(EncodedStage(p), p) && |EncodedStage(p)| == 22
  {
    StageCanonical(b, p);
    StageParts(b, p);
    StageParts(EncodedStage(p), p);
    hide StageOf, StageAt, EncodedStage;
  }

  method EncodeStage(p: StagePayload) returns (b: Bytes)
    ensures b == EncodedStage(p)
  {
    StageConforms(p);
    hide LE, Pow256;
    var w := new ByteWriter();
    w.UInt(p.requestId, 8);
    w.UInt(p.kind, 1);
    w.UInt(p.stage, 1);
    w.UInt(p.imagePixels, 4);
    w.UInt(p.sequenceLength, 4);
    w.UInt(p.batchSize, 4);
    b := w.buf;
  }

  method DecodeStage(b: Bytes) returns (ok: bool, p: StagePayload)
    ensures ok <==> StageOf(b).Some?
    ensures ok ==> StageOf(b) == Some(p)
  {
    Widths();
    PairRules();
    ReadRule(STAGE_FMT, b);
    hide UnLE, Pow256, Dec, Rest, Read;
    var r := new ByteReader(b);
    var id := r.UInt(8);
    var kind := r.UInt(1);
    var stage := r.UInt(1);
    var pixels := r.UInt(4);
    var length := r.UInt(4);
    var batch := r.UInt(4);
    p := StagePayload(id, kind, stage, pixels, length, batch);
    ok := r.Ok();
    if ok {
      StageInjective(p, StageOf(b).value);
    }
  }
}
