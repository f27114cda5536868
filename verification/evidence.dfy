/**
 * Signed audit reports. SHA-256, HMAC, JSON marshalling and the report's identifier are arbitrary functions
 * here; the only fact used about the two digests is their length.
 */
module Evidence {
  import opened Base
  import opened Model
  import T = Text

  type Digest = s: seq<bv8> | |s| == 32 witness seq(32, _ => 0)

  datatype Env = Env(
    sha256: string -> Digest,
    hmac: (string, string) -> Digest,
    marshalGates: seq<GateResult> -> string,
    reportId: (string, Time) -> string,
    operatorDigest: seq<Operator> -> string,
    poolDigest: seq<Pool> -> string)

  const HEX_DIGITS := "0123456789abcdef"

  function HexDigit(n: bv8): char
    requires n < 16
  {
    HEX_DIGITS[n]
  }

  function HexByte(b: bv8): (r: string)
    ensures |r| == 2
  {
    [HexDigit(b >> 4), HexDigit(b & 15)]
  }

  function Hex(bytes: seq<bv8>): (r: string)
    ensures |r| == 2 * |bytes|
  {
    if bytes == [] then "" else HexByte(bytes[0]) + Hex(bytes[1..])
  }

  function PhaseText(p: Phase): string
  {
    match p
    case PhaseUnset => ""
    case PendingPhase => "Pending"
    case Scheduled => "Scheduled"
    case BaselineCaptured => "BaselineCaptured"
    case WaitingForChange => "WaitingForChange"
    case Executing => "Executing"
    case PlatformRecovering => "PlatformRecovering"
    case ValidationRunning => "ValidationRunning"
    case Succeeded => "Succeeded"
    case Failed => "Failed"
    case TimedOut => "TimedOut"
  }

  function Payload(env: Env, r: SignedReport): string
  {
    r.reportId + ":" + r.windowId + ":" + r.baselineDigest + ":" + PhaseText(r.overallResult) + ":"
        + env.marshalGates(r.gateResults)
  }

  function Generate(env: Env, windowId: string, baselineDigest: string, gates: seq<GateResult>, result: Phase,
                    key: string, signedAt: Time): SignedReport
  {
    var draft := SignedReport(env.reportId(windowId, signedAt), windowId, signedAt, baselineDigest, "", "", result,
        gates);
    var checksum := Hex(env.sha256(Payload(env, draft)));
    draft.(checksum := checksum, signature := Hex(env.hmac(checksum, key)))
  }

  predicate Verify(env: Env, r: SignedReport, key: string)
  {
    r.signature != "" && r.signature == Hex(env.hmac(r.checksum, key))
  }

  /** The checksum is the one of the report's own identifier, window, baseline digest, result and gates. */
  predicate Intact(env: Env, r: SignedReport)
  {
    r.checksum == Hex(env.sha256(r.reportId + ":" + r.windowId + ":" + r.baselineDigest + ":"
                                 + PhaseText(r.overallResult) + ":" + env.marshalGates(r.gateResults)))
  }

  /** Whatever is generated verifies under the same key, and its checksum covers exactly what it carries. */
  lemma {:induction false} GeneratedVerifies(env: Env, windowId: string, baselineDigest: string,
                                             gates: seq<GateResult>, result: Phase,
                          key: string, signedAt: Time)
    ensures var r := Generate(env, windowId, baselineDigest, gates, result, key, signedAt);
            Verify(env, r, key) && Intact(env, r)
            && r.overallResult == result && r.gateResults == gates && r.windowId == windowId
            && r.baselineDigest == baselineDigest && r.timestamp == signedAt
            && r.reportId == env.reportId(windowId, signedAt)
  {
    var r := Generate(env, windowId, baselineDigest, gates, result, key, signedAt);
    assert |r.signature| == 64;
  }

  // ----- what a checksum protects -----

  /** No two inputs share a checksum or a rendering of gates. */
  ghost predicate CollisionFree(env: Env)
  {
    && (forall a, b :: env.sha256(a) == env.sha256(b) ==> a == b)
    && (forall g, g' :: env.marshalGates(g) == env.marshalGates(g') ==> g == g')
  }

  /** The identifiers and the digest are free of the separator. */
  predicate Separable(r: SignedReport)
  {
    ':' !in r.reportId && ':' !in r.windowId && ':' !in r.baselineDigest
  }

  predicate SameContent(r: SignedReport, s: SignedReport)
  {
    && r.reportId == s.reportId && r.windowId == s.windowId && r.baselineDigest == s.baselineDigest
    && r.overallResult == s.overallResult && r.gateResults == s.gateResults
  }

  lemma {:induction false} HexDigitInjective(m: bv8, n: bv8)
    requires m < 16 && n < 16 && HexDigit(m) == HexDigit(n)
    ensures m == n
  {
  }

  lemma {:induction false} HexByteInjective(a: bv8, b: bv8)
    requires HexByte(a) == HexByte(b)
    ensures a == b
  {
    assert HexByte(a)[0] == HexByte(b)[0] && HexByte(a)[1] == HexByte(b)[1];
    HexDigitInjective(a >> 4, b >> 4);
    HexDigitInjective(a & 15, b & 15);
  }

  lemma {:induction false} HexInjective(a: seq<bv8>, b: seq<bv8>)
    requires Hex(a) == Hex(b)
    ensures a == b
  {
    assert |a| == |b|;
    if a != [] {
      assert Hex(a)[..2] == HexByte(a[0]) && Hex(b)[..2] == HexByte(b[0]);
      assert Hex(a)[2..] == Hex(a[1..]) && Hex(b)[2..] == Hex(b[1..]);
      HexByteInjective(a[0], b[0]);
      HexInjective(a[1..], b[1..]);
      assert a == [a[0]] + a[1..] && b == [b[0]] + b[1..];
    }
  }

  lemma {:induction false} FirstPart(a: string, x: string, b: string, y: string)
    requires ':' !in a && ':' !in b && a + ":" + x == b + ":" + y
    ensures a == b && x == y
  {
    T.CutAt(a, x, ':');
    T.CutAt(b, y, ':');
  }

  lemma {:induction false} PhaseTextInjective(p: Phase, q: Phase)
    requires PhaseText(p) == PhaseText(q)
    ensures p == q
  {
  }

  lemma {:induction false} PhaseTextSeparable(p: Phase)
    ensures ':' !in PhaseText(p)
  {
  }

  /** What follows the identifiers and the digest. */
  function Ending(env: Env, r: SignedReport): string
  {
    PhaseText(r.overallResult) + ":" + env.marshalGates(r.gateResults)
  }

  lemma {:induction false} PayloadParts(env: Env, r: SignedReport)
    ensures Payload(env, r) == r.reportId + ":" + (r.windowId + ":" + (r.baselineDigest + ":" + Ending(env, r)))
  {
  }

  lemma {:induction false} PayloadBinds(env: Env, r: SignedReport, s: SignedReport)
    requires CollisionFree(env) && Separable(r) && Separable(s) && Payload(env, r) == Payload(env, s)
    ensures SameContent(r, s)
  {
    PayloadParts(env, r);
    PayloadParts(env, s);
    FirstPart(r.reportId, r.windowId + ":" + (r.baselineDigest + ":" + Ending(env, r)),
              s.reportId, s.windowId + ":" + (s.baselineDigest + ":" + Ending(env, s)));
    FirstPart(r.windowId, r.baselineDigest + ":" + Ending(env, r), s.windowId, s.baselineDigest + ":" + Ending(env, s));
    FirstPart(r.baselineDigest, Ending(env, r), s.baselineDigest, Ending(env, s));
    PhaseTextSeparable(r.overallResult);
    PhaseTextSeparable(s.overallResult);
    FirstPart(PhaseText(r.overallResult), env.marshalGates(r.gateResults),
              PhaseText(s.overallResult), env.marshalGates(s.gateResults));
    PhaseTextInjective(r.overallResult, s.overallResult);
  }

  /**
   * With a digest that has no collisions and identifiers free of the separator, intact reports share a checksum exactly
   * when they agree on everything but the timestamp and the signature.
   */
  lemma {:induction false} ChecksumBinds(env: Env, r: SignedReport, s: SignedReport)
    requires CollisionFree(env) && Separable(r) && Separable(s) && Intact(env, r) && Intact(env, s)
    ensures r.checksum == s.checksum <==> SameContent(r, s)
  {
    if r.checksum == s.checksum {
      HexInjective(env.sha256(Payload(env, r)), env.sha256(Payload(env, s)));
      PayloadBinds(env, r, s);
    }
  }

  /** Without that, two reports of different windows can share one: the parts are joined without escaping. */
  lemma {:induction false} SeparatorsMatter(env: Env)
    ensures var r := SignedReport("a:b", "c", 1, "d", "", "", Succeeded, []);
            var s := SignedReport("a", "b:c", 1, "d", "", "", Succeeded, []);
            !SameContent(r, s) && Payload(env, r) == Payload(env, s)
  {
    assert "a:b" + ":" + "c" == "a" + ":" + "b:c";
  }

  /** The timestamp is covered by neither the checksum nor the signature. */
  lemma {:induction false} TimestampIsNotCovered(env: Env, r: SignedReport, t: Time, key: string)
    ensures Intact(env, r.(timestamp := t)) <==> Intact(env, r)
    ensures Verify(env, r.(timestamp := t), key) <==> Verify(env, r, key)
  {
  }
}
