/**
 * The next-fixture endpoint (app/fixture/route.ts): picking the next fixture
 * from the provider's answer, joining it with its two teams, and signing it.
 *
 * The HTTP calls, the date parser and the clock are not modelled: their
 * results come in as parameters. The Mina signer is the parameter `sign`.
 */
module FixtureRoute {
  import opened Wrappers
  import opened OracleUtils

  /** One entry of the provider's fixture list, as fetched. */
  datatype NextFixtureData = NextFixtureData(id: int, localteamId: int, visitorteamId: int, startingAt: string)

  /** The two fields read from the provider's team record. */
  datatype TeamData = TeamData(name: string, code: string)

  /** The selected fixture with its start time in milliseconds and both teams' names and codes. */
  datatype ProcessedFixtureData = ProcessedFixtureData(
    id: int, localteamId: int, visitorteamId: int, startingAt: int,
    localteamName: string, localteamCode: string,
    visitorteamName: string, visitorteamCode: string)

  /** The `data` object of the endpoint's answer; only its first four fields are signed. */
  datatype FixtureAttestation = FixtureAttestation(
    fixtureID: int, localTeamID: int, visitorTeamID: int, startingAt: int,
    localTeamName: string, localTeamCode: string,
    visitorTeamName: string, visitorTeamCode: string,
    timestamp: int)

  /** What `signFixtureData` returns when it does not return `null`. */
  datatype SignedFixture = SignedFixture(data: FixtureAttestation, signature: string, publicKey: string)

  /** The fixture the endpoint attests to: element 0 of the fetched list, or `null` if there is none. */
  function SelectFixture(fixtures: seq<NextFixtureData>): (r: Option<NextFixtureData>)
    ensures r.None? <==> |fixtures| == 0
    ensures r.Some? ==> r.value == fixtures[0]
  {
    if |fixtures| == 0 then None else Some(fixtures[0])
  }

  /**
   * `fetchNextFixtureData` after its HTTP calls: `response` is the parsed
   * fixture list (None when the request failed or threw), `fetchTeam` is
   * `fetchTeamData`, and `toEpochMs` is the date parser applied to `starting_at`.
   */
  function FetchNextFixtureData(response: Option<seq<NextFixtureData>>,
                                fetchTeam: int -> Option<TeamData>,
                                toEpochMs: string -> int): (r: Option<ProcessedFixtureData>)
    ensures r.Some? <==>
      && response.Some? && |response.value| > 0
      && fetchTeam(response.value[0].localteamId).Some?
      && fetchTeam(response.value[0].visitorteamId).Some?
    ensures r.Some? ==>
      var first := response.value[0];
      && r.value.id == first.id
      && r.value.localteamId == first.localteamId
      && r.value.visitorteamId == first.visitorteamId
      && r.value.startingAt == toEpochMs(first.startingAt)
      && TeamData(r.value.localteamName, r.value.localteamCode) == fetchTeam(first.localteamId).value
      && TeamData(r.value.visitorteamName, r.value.visitorteamCode) == fetchTeam(first.visitorteamId).value
  {
    match response
    case None => None
    case Some(fixtures) =>
      match SelectFixture(fixtures)
      case None => None
      case Some(first) =>
        var localTeam := fetchTeam(first.localteamId);
        var visitorTeam := fetchTeam(first.visitorteamId);
        if localTeam.None? || visitorTeam.None? then None
        else
          Some(ProcessedFixtureData(
            first.id, first.localteamId, first.visitorteamId, toEpochMs(first.startingAt),
            localTeam.value.name, localTeam.value.code,
            visitorTeam.value.name, visitorTeam.value.code))
  }

  /** The vector `signFixtureData` builds inline and hands to the signer. */
  function SignedVector(p: ProcessedFixtureData): (v: seq<int>)
    ensures v == FixtureToFields(Fixture(p.id, p.localteamId, p.visitorteamId, p.startingAt))
  {
    [p.id, p.localteamId, p.visitorteamId, p.startingAt]
  }

  /** JavaScript truthiness of the `PRIVATE_KEY` environment variable: unset and empty are both missing. */
  predicate KeyPresent(privateKey: Option<string>): (present: bool)
    ensures present <==> privateKey.Some? && |privateKey.value| > 0
  {
    privateKey.Some? && privateKey.value != ""
  }

  /**
   * `signFixtureData`: `null` when the key is missing or the signer throws,
   * otherwise the attestation, stamped with the clock reading `now`.
   */
  function SignFixtureData(privateKey: Option<string>, sign: Signer, now: int,
                           p: ProcessedFixtureData): (r: Option<SignedFixture>)
    ensures r.Some? <==> KeyPresent(privateKey) && sign(privateKey.value, SignedVector(p)).Returned?
    ensures r.Some? ==>
      var signed := sign(privateKey.value, SignedVector(p)).signed;
      && r.value.signature == signed.signature
      && r.value.publicKey == signed.publicKey
      && r.value.data == FixtureAttestation(
           p.id, p.localteamId, p.visitorteamId, p.startingAt,
           p.localteamName, p.localteamCode, p.visitorteamName, p.visitorteamCode, now)
  {
    if !KeyPresent(privateKey) then None
    else
      match sign(privateKey.value, SignedVector(p))
      case Threw => None
      case Returned(signed) =>
        Some(SignedFixture(
          FixtureAttestation(
            p.id, p.localteamId, p.visitorteamId, p.startingAt,
            p.localteamName, p.localteamCode, p.visitorteamName, p.visitorteamCode, now),
          signed.signature, signed.publicKey))
  }

  /** The fixture a consumer reads back from the attestation's numeric fields. */
  function AttestedFixture(a: FixtureAttestation): Fixture
  {
    Fixture(a.fixtureID, a.localTeamID, a.visitorTeamID, a.startingAt)
  }

  lemma NamesAndTimestampNotSigned(privateKey: Option<string>, sign: Signer, now1: int, now2: int,
                                   p1: ProcessedFixtureData, p2: ProcessedFixtureData)
    requires p1.id == p2.id && p1.localteamId == p2.localteamId
    requires p1.visitorteamId == p2.visitorteamId && p1.startingAt == p2.startingAt
    ensures SignedVector(p1) == SignedVector(p2)
    ensures SignFixtureData(privateKey, sign, now1, p1).Some? <==> SignFixtureData(privateKey, sign, now2, p2).Some?
    ensures SignFixtureData(privateKey, sign, now1, p1).Some? ==>
      && SignFixtureData(privateKey, sign, now1, p1).value.signature == SignFixtureData(privateKey, sign, now2, p2).value.signature
      && SignFixtureData(privateKey, sign, now1, p1).value.publicKey == SignFixtureData(privateKey, sign, now2, p2).value.publicKey
  {
  }

  lemma AttestationReencodesToSignedVector(privateKey: Option<string>, sign: Signer, now: int,
                                           p: ProcessedFixtureData)
    requires SignFixtureData(privateKey, sign, now, p).Some?
    ensures var r := SignFixtureData(privateKey, sign, now, p).value;
      && FixtureToFields(AttestedFixture(r.data)) == SignedVector(p)
      && sign(privateKey.value, FixtureToFields(AttestedFixture(r.data))) == Returned(Signed(r.signature, r.publicKey))
  {
  }

  lemma FetchThenSign(response: Option<seq<NextFixtureData>>, fetchTeam: int -> Option<TeamData>,
                      toEpochMs: string -> int, privateKey: Option<string>, sign: Signer, now: int)
    requires FetchNextFixtureData(response, fetchTeam, toEpochMs).Some?
    ensures var first := response.value[0];
      var p := FetchNextFixtureData(response, fetchTeam, toEpochMs).value;
      SignedVector(p) == FixtureToFields(Fixture(first.id, first.localteamId, first.visitorteamId, toEpochMs(first.startingAt)))
  {
  }

  /**
   * With a collision-free signer, two successful attestations under the same key
   * that carry the same signature and public key carry the same four signed fields.
   */
  lemma SignatureBindsSignedFields(privateKey: Option<string>, sign: Signer, now1: int, now2: int,
                                   p1: ProcessedFixtureData, p2: ProcessedFixtureData)
    requires CollisionFree(sign)
    requires SignFixtureData(privateKey, sign, now1, p1).Some? && SignFixtureData(privateKey, sign, now2, p2).Some?
    requires SignFixtureData(privateKey, sign, now1, p1).value.signature == SignFixtureData(privateKey, sign, now2, p2).value.signature
    requires SignFixtureData(privateKey, sign, now1, p1).value.publicKey == SignFixtureData(privateKey, sign, now2, p2).value.publicKey
    ensures AttestedFixture(SignFixtureData(privateKey, sign, now1, p1).value.data)
         == AttestedFixture(SignFixtureData(privateKey, sign, now2, p2).value.data)
  {
  }
}
