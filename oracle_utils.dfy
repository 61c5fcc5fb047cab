/**
 * The shared field encoder and signer helpers of the oracle (src/oracleUtils.ts).
 *
 * A fixture or a status is flattened into a fixed-order vector of integers;
 * that vector, and nothing else, is what the Mina signer signs. The signature
 * covers positions, not field names, so the order below is part of the protocol.
 */
module OracleUtils {
  import opened Wrappers

  /** One scheduled match. `startingAt` is a Unix timestamp in milliseconds. */
  datatype Fixture = Fixture(fixtureID: int, localTeamID: int, visitorTeamID: int, startingAt: int)

  /**
   * The state of a match: the four fixture fields plus the numeric status code
   * and the winner's team id (the source's `Status extends Fixture`).
   */
  datatype Status = Status(fixtureID: int, localTeamID: int, visitorTeamID: int, startingAt: int,
                           status: int, winnerTeamID: int)

  /** Number of field elements in a fixture vector. */
  const FixtureWidth := 4
  /** Number of field elements in a status vector. */
  const StatusWidth := 6

  /** A `Status` used where a `Fixture` is expected: only the four fixture fields are seen. */
  function StatusFixture(s: Status): (f: Fixture)
    ensures f.fixtureID == s.fixtureID && f.localTeamID == s.localTeamID
    ensures f.visitorTeamID == s.visitorTeamID && f.startingAt == s.startingAt
  {
    Fixture(s.fixtureID, s.localTeamID, s.visitorTeamID, s.startingAt)
  }

  /** `fixtureToFields`: the signed vector of a fixture. */
  function FixtureToFields(f: Fixture): (v: seq<int>)
    ensures |v| == FixtureWidth
    ensures v[0] == f.fixtureID && v[1] == f.localTeamID
    ensures v[2] == f.visitorTeamID && v[3] == f.startingAt
  {
    [f.fixtureID, f.localTeamID, f.visitorTeamID, f.startingAt]
  }

  /** `statusToFields`: the fixture vector of the status, then its status code and winner. */
  function StatusToFields(s: Status): (v: seq<int>)
    ensures |v| == StatusWidth
    ensures v[..FixtureWidth] == FixtureToFields(StatusFixture(s))
    ensures v[4] == s.status && v[5] == s.winnerTeamID
  {
    FixtureToFields(StatusFixture(s)) + [s.status, s.winnerTeamID]
  }

  /** The reading a verifier gives a fixture vector: defined exactly on vectors of width 4. */
  function FieldsToFixture(v: seq<int>): (r: Option<Fixture>)
    ensures r.Some? <==> |v| == FixtureWidth
  {
    if |v| == FixtureWidth then Some(Fixture(v[0], v[1], v[2], v[3])) else None
  }

  /** The reading a verifier gives a status vector: a fixture prefix and two trailing fields. */
  function FieldsToStatus(v: seq<int>): (r: Option<Status>)
    ensures r.Some? <==> |v| == StatusWidth
  {
    if |v| != StatusWidth then None
    else
      match FieldsToFixture(v[..FixtureWidth])
      case Some(f) => Some(Status(f.fixtureID, f.localTeamID, f.visitorTeamID, f.startingAt, v[4], v[5]))
      case None => None
  }

  /** What `client.signFields` gives back: a signature and the signer's public key. */
  datatype Signed = Signed(signature: string, publicKey: string)

  /** A call to the signer either returns or throws (a malformed key, a field out of range). */
  datatype SignOutcome = Returned(signed: Signed) | Threw

  /** `client.signFields(fields, privateKey)`, left uninterpreted. */
  type Signer = (string, seq<int>) -> SignOutcome

  /** `signFixture`: the signer receives the fixture's vector. */
  function SignFixture(sign: Signer, privateKey: string, f: Fixture): (r: SignOutcome)
    ensures r == sign(privateKey, FixtureToFields(f))
  {
    sign(privateKey, FixtureToFields(f))
  }

  /** `signStatus`: the signer receives the status's vector. */
  function SignStatus(sign: Signer, privateKey: string, s: Status): (r: SignOutcome)
    ensures r == sign(privateKey, StatusToFields(s))
  {
    sign(privateKey, StatusToFields(s))
  }

  /**
   * An idealised signer: two calls that return the same signature and public key
   * were given the same key and fields. Used only as a hypothesis of lemmas.
   */
  ghost predicate CollisionFree(sign: Signer)
  {
    forall k, v, w :: sign(k, v).Returned? && sign(k, v) == sign(k, w) ==> v == w
  }

  lemma FixtureRoundTrip(f: Fixture)
    ensures FieldsToFixture(FixtureToFields(f)) == Some(f)
  {
  }

  lemma FixtureFieldsExact(v: seq<int>, f: Fixture)
    requires FieldsToFixture(v) == Some(f)
    ensures FixtureToFields(f) == v
  {
  }

  lemma StatusRoundTrip(s: Status)
    ensures FieldsToStatus(StatusToFields(s)) == Some(s)
  {
  }

  lemma StatusFieldsExact(v: seq<int>, s: Status)
    requires FieldsToStatus(v) == Some(s)
    ensures StatusToFields(s) == v
  {
  }

  lemma FixtureToFieldsInjective(f1: Fixture, f2: Fixture)
    requires FixtureToFields(f1) == FixtureToFields(f2)
    ensures f1 == f2
  {
  }

  lemma StatusToFieldsInjective(s1: Status, s2: Status)
    requires StatusToFields(s1) == StatusToFields(s2)
    ensures s1 == s2
  {
  }

  lemma FixtureAndStatusVectorsDiffer(f: Fixture, s: Status)
    ensures FixtureToFields(f) != StatusToFields(s)
  {
  }

  /**
   * Injectivity of `FixtureToFields` in its position-by-position form: a consumer
   * that compares the four signed positions one by one has compared the whole fixture.
   */
  lemma AgreeingPositionsSameFixture(f1: Fixture, f2: Fixture)
    requires forall i | 0 <= i < FixtureWidth :: FixtureToFields(f1)[i] == FixtureToFields(f2)[i]
    ensures f1 == f2
  {
    assert FixtureToFields(f1) == FixtureToFields(f2);
    FixtureToFieldsInjective(f1, f2);
  }

  /**
   * Injectivity of `StatusToFields` in its position-by-position form: a consumer
   * that compares the six signed positions one by one has compared the whole status.
   */
  lemma AgreeingPositionsSameStatus(s1: Status, s2: Status)
    requires forall i | 0 <= i < StatusWidth :: StatusToFields(s1)[i] == StatusToFields(s2)[i]
    ensures s1 == s2
  {
    assert StatusToFields(s1) == StatusToFields(s2);
    StatusToFieldsInjective(s1, s2);
  }

  /** With a collision-free signer, equal fixture signatures attest to equal fixtures. */
  lemma SignFixtureBinds(sign: Signer, privateKey: string, f1: Fixture, f2: Fixture)
    requires CollisionFree(sign)
    requires SignFixture(sign, privateKey, f1).Returned?
    requires SignFixture(sign, privateKey, f1) == SignFixture(sign, privateKey, f2)
    ensures f1 == f2
  {
  }

  /** With a collision-free signer, equal status signatures attest to equal statuses. */
  lemma SignStatusBinds(sign: Signer, privateKey: string, s1: Status, s2: Status)
    requires CollisionFree(sign)
    requires SignStatus(sign, privateKey, s1).Returned?
    requires SignStatus(sign, privateKey, s1) == SignStatus(sign, privateKey, s2)
    ensures s1 == s2
  {
  }

  /** With a collision-free signer, a fixture signature is never a valid status signature. */
  lemma FixtureAndStatusSignaturesDiffer(sign: Signer, privateKey: string, f: Fixture, s: Status)
    requires CollisionFree(sign)
    requires SignFixture(sign, privateKey, f).Returned?
    ensures SignFixture(sign, privateKey, f) != SignStatus(sign, privateKey, s)
  {
  }
}
