# Sportmonks oracle: canonical field encoding and fixture attestation

This project models the part of the Sportmonks cricket oracle that decides what gets signed. A fixture is flattened
into the integer vector `[fixtureID, localTeamID, visitorTeamID, startingAt]`. A status is flattened into the
same vector followed by `[status, winnerTeamID]`. The Mina signer (`client.signFields`) signs exactly that
vector. The signature covers positions, not field names, so the order is part of the protocol.

Modules:

- `Wrappers` (`wrappers.dfy`): `Option`, standing for JavaScript's `T | null`.
- `OracleUtils` (`oracle_utils.dfy`): models `src/oracleUtils.ts`. It holds the `Fixture` and `Status`
  records, the encoders `FixtureToFields` and `StatusToFields`, and the helpers `SignFixture` and
  `SignStatus`. Beside them are the decoders `FieldsToFixture` and `FieldsToStatus`. These give the reading a
  verifier puts on a vector, and the round-trip lemmas tie them to the encoders.
- `FixtureRoute` (`fixture_route.dfy`): models `app/fixture/route.ts`. It covers the fixture selection and the
  null returns of `fetchNextFixtureData`, the inline vector of `signFixtureData`, and the response record that
  `signFixtureData` assembles.

The model has no I/O, so the outside world comes in as parameters:

- The signer is a parameter `sign: (string, seq<int>) -> SignOutcome`, which either returns a signature and a
  public key or throws. Nothing is assumed about it. A few lemmas take the hypothesis `CollisionFree(sign)`: equal
  successful outputs mean equal inputs. These lemmas state what the signature binds under an ideal signer.
- The `PRIVATE_KEY` environment variable is an `Option<string>`. JavaScript's `!PRIVATE_KEY` treats an unset
  variable and the empty string alike, and so does `KeyPresent`.
- The provider's fixture list is an `Option<seq<NextFixtureData>>`. `None` stands for a failed or throwing
  request.
- `fetchTeamData` is a function `int -> Option<TeamData>`.
- The `dayjs` date parser is a function `string -> int` that yields milliseconds.
- The wall clock is an integer `now`.

Facts about the code that shape the model:

- The code validates nothing before encoding. It has no range checks, no non-negativity checks and no
  distinct-team check, so the model has no such preconditions.
- A missing key or a throwing signer makes `signFixtureData` return `null`.
- The attestation `timestamp` is outside the signed vector.

## Model

| member | source | states |
|---|---|---|
| `OracleUtils.StatusFixture` | src/oracleUtils.ts:12-15 | a status seen as a fixture has the status's four fixture fields |
| `OracleUtils.FixtureToFields` | src/oracleUtils.ts:21-28 | the vector has length exactly 4 and holds fixtureID, localTeamID, visitorTeamID and startingAt, unchanged, at positions 0 to 3 |
| `OracleUtils.StatusToFields` | src/oracleUtils.ts:30-36 | the vector has length exactly 6; its first 4 elements are the fixture vector of the same record; positions 4 and 5 are status and winnerTeamID |
| `OracleUtils.FieldsToFixture` | src/oracleUtils.ts:21-28 | a verifier's reading of a fixture vector is defined exactly when the vector has width 4 |
| `OracleUtils.FieldsToStatus` | src/oracleUtils.ts:30-36 | a verifier's reading of a status vector (a fixture prefix and two trailing fields) is defined exactly when the vector has width 6 |
| `OracleUtils.SignFixture` | src/oracleUtils.ts:42-44 | the signer receives the caller's key and exactly the fixture's encoded vector, and its outcome is returned as is |
| `OracleUtils.SignStatus` | src/oracleUtils.ts:46-48 | the signer receives the caller's key and exactly the status's encoded vector, and its outcome is returned as is |
| `OracleUtils.FixtureRoundTrip` | src/oracleUtils.ts:21-28 | decoding the encoding of any fixture gives back that fixture |
| `OracleUtils.FixtureFieldsExact` | src/oracleUtils.ts:21-28 | a vector that decodes to a fixture is exactly that fixture's encoding, so no two vectors share a meaning |
| `OracleUtils.StatusRoundTrip` | src/oracleUtils.ts:30-36 | decoding the encoding of any status gives back that status |
| `OracleUtils.StatusFieldsExact` | src/oracleUtils.ts:30-36 | a vector that decodes to a status is exactly that status's encoding |
| `OracleUtils.FixtureToFieldsInjective` | src/oracleUtils.ts:21-28 | two fixtures with equal vectors are equal field for field |
| `OracleUtils.StatusToFieldsInjective` | src/oracleUtils.ts:30-36 | two statuses with equal vectors are equal field for field |
| `OracleUtils.FixtureAndStatusVectorsDiffer` | src/oracleUtils.ts:21-36 | no fixture vector equals any status vector |
| `OracleUtils.AgreeingPositionsSameFixture` | src/oracleUtils.ts:22-27 | fixtures whose vectors agree at each of the 4 positions are the same fixture |
| `OracleUtils.AgreeingPositionsSameStatus` | src/oracleUtils.ts:31-35 | statuses whose vectors agree at each of the 6 positions are the same status |
| `OracleUtils.SignFixtureBinds` | src/oracleUtils.ts:42-44 | with a collision-free signer, equal successful fixture signatures under one key mean equal fixtures |
| `OracleUtils.SignStatusBinds` | src/oracleUtils.ts:46-48 | with a collision-free signer, equal successful status signatures under one key mean equal statuses |
| `OracleUtils.FixtureAndStatusSignaturesDiffer` | src/oracleUtils.ts:42-48 | with a collision-free signer, a successful fixture signature never equals the status signature under the same key |
| `FixtureRoute.SelectFixture` | app/fixture/route.ts:96-103 | the result is null exactly when the list is empty, and otherwise it is element 0 |
| `FixtureRoute.FetchNextFixtureData` | app/fixture/route.ts:76-130 | the result is non-null exactly when the list was fetched, is non-empty and both team lookups for element 0 succeed; then id and team ids are copied unchanged, startingAt is the parsed start time, and names and codes come from the matching lookup |
| `FixtureRoute.KeyPresent` | app/fixture/route.ts:135 | the key counts as present exactly when it is set and non-empty |
| `FixtureRoute.SignedVector` | app/fixture/route.ts:141-147 | the inline vector `[id, localteam_id, visitorteam_id, starting_at]` equals the shared encoder's vector of the corresponding fixture |
| `FixtureRoute.SignFixtureData` | app/fixture/route.ts:133-170 | the result is non-null exactly when the key is present and non-empty and the signer returns; then signature and publicKey are the signer's, the four numeric fields are copied unchanged, names and codes are passed through, and timestamp is the clock reading |
| `FixtureRoute.NamesAndTimestampNotSigned` | app/fixture/route.ts:141-161 | team names, team codes and the timestamp do not affect the signed vector, whether signing succeeds, or the signature and public key |
| `FixtureRoute.AttestationReencodesToSignedVector` | app/fixture/route.ts:141-165 | re-encoding the numeric fields of a returned attestation gives exactly the signed vector, and signing that vector yields the returned signature and public key |
| `FixtureRoute.FetchThenSign` | app/fixture/route.ts:103-147 | a record produced by the fetch step is signed as `[id, localteam_id, visitorteam_id, parsed starting_at]` of the first listed fixture |
| `FixtureRoute.SignatureBindsSignedFields` | app/fixture/route.ts:141-165 | with a collision-free signer, two successful attestations with equal signature and public key carry equal fixture id, team ids and start time |

## Left out

- HTTP plumbing is not modelled: the `fetch` calls, the `response.ok` checks, JSON parsing, `fetchTeamData`'s
  request and the `GET` handler (app/fixture/route.ts:45-95, 173-187). Their outcomes are parameters.
- `GET` turns a `null` from `signFixtureData` into a 200 response whose body is `null`. That handler is not
  modelled.
- Loading environment variables and exiting the process at module load (app/fixture/route.ts:8-13) is not
  modelled. Only `signFixtureData`'s own key check is modelled.
- Date parsing with `dayjs` and the wall-clock timestamp come from a foreign library and the clock. They are
  the parameters `toEpochMs` and `now`. A date string that does not parse gives `NaN` in the source, and
  `BigInt(NaN)` then throws. The model does not represent `NaN`.
- `FixtureRoute.FetchNextFixtureData`: the two team fetches are one pure function of the team id. So the model
  cannot express two fetches of the same team id that give different answers.
- The cryptography inside `mina-signer` is foreign code, so the signer is uninterpreted. No sign/verify round
  trip is claimed, because the code has no verify step.
- JavaScript numbers are modelled as unbounded integers: each `number | bigint` field becomes its integer
  value, so `5` and `5n` are the same value here, as they are after `BigInt`. The injectivity lemmas are
  about these numeric values, not about the JavaScript objects. `BigInt` of a non-integer number throws,
  and the model does not represent that case. How the signer treats values outside its field is not
  visible in this code.
- `OracleUtils.CollisionFree` idealises a signer that tells every integer vector apart. A signer that
  reduces values modulo its field cannot meet it, so the lemmas that assume it (`SignFixtureBinds`,
  `SignStatusBinds`, `FixtureAndStatusSignaturesDiffer`, `SignatureBindsSignedFields`) say nothing about
  fields that are negative or too large for the real signer.
- The text-signing endpoints (app/api/fixture/route.ts, app/api/status/route.ts) are not part of this model.
  They sign `JSON.stringify` of the raw record with `signMessage`, which is a different signing mode.
- The status endpoint (app/status/[fixtureID]/route.ts) is not part of this model. It holds the provider
  status-string classification and its own three-element vector.
- Logging (`console.log`, `console.error`) is not modelled.
