# credits: the `Authorized` request and the `transfer_public` builder

This project models the two pieces of the `credits` library that have logic of their own:

- **The `Authorized` request** (`src/authorized.rs`). It is a record of a function authorization, an optional fee authorization and a broadcast flag. It has a hand-written JSON object encoding:
  - The serializer writes `function`, then `fee` only when there is a fee, then `broadcast`.
  - The deserializer reads any JSON value. It takes `function` and `broadcast` out by key and requires both. A `fee` that is missing or `null` reads as no fee.
- **`Credits::transfer_public`** (`src/lib.rs`). It parses the private key and then the recipient. It authorizes `credits.aleo/transfer_public` on the inputs `[recipient, amount]` and derives that authorization's execution id. It authorizes the fee against that id and wraps everything in an `Authorized` request. Each of these steps can fail, and the first failure ends the call.

Modules:

- `Wrappers` (`wrappers.dfy`): `Option` and a `Result` that works with `:-`, the counterpart of Rust's `?`.
- `Json` (`json.dfy`): a parsed JSON value, where an object is a map. An object as the serializer writes it is an ordered member list. `ToMap` reads such a list the way a parsed value is built: a repeated key keeps its last value. `Get` and `Take` are the lookup and the take-out-and-leave-`null` used by the deserializer.
- `Authorized` (`authorized.dfy`): the request, `New`, the serializer and the deserializer.
  - The serializer is a `StructSerializer` object that members are appended to. `Serialized` is its specification.
  - The deserializer is the method `DeserializeValue`, which takes members out of a local copy of the value. `Deserialize` is its specification by key lookup.
  - The lemmas cover the round trip, member order, extra members, `null` versus missing fee, and the error cases.
- `Credits` (`credits.dfy`): `TransferPublic`, a method over an `Engine` object and the caller's `Rng`.
  - The engine answers as an injected `Oracle` says. The oracle is a record of functions: key parsing, address parsing, `authorize`, `to_execution_id` and `authorize_fee_public`. The engine records every request in a ghost call log.
  - `TransferPublicRun` states the whole run as a function. Its lemmas give the call order, the short-circuiting, the argument order, the binding of the fee to the execution id, and the pass-through of `broadcast`.

Opaque snarkvm values are abstract types: `Authorization`, `PrivateKey`, `Address`, `ExecutionId` and the engine's `Error`. How an authorization is written to JSON is supplied as an `AuthorizationCodec`. The round-trip results assume `RoundTrips`: decoding an encoded authorization gives it back, and no authorization encodes as `null`. `NullEncodedFeeIsLost` shows why the second half is needed.

`transfer_public` has no zero-fee check and always returns `Some(fee)` (src/lib.rs:66-69). `SuccessfulRun` states that the fee is present for every fee amount, zero included.

## Model

| member | source | states |
|---|---|---|
| `Authorized.New` | src/authorized.rs:41-43 | the request holds exactly the given function authorization, fee and broadcast flag |
| `Authorized.Serialized` | src/authorized.rs:82-90 | the written object always has a `function` member first and a `broadcast` member last; it has a `fee` member second exactly when there is a fee, so without a fee it has exactly two members; keys are distinct |
| `Authorized.StructSerializer.constructor` | src/authorized.rs:83 | a new struct serializer holds no members |
| `Authorized.StructSerializer.SerializeField` | src/authorized.rs:84-88 | writing a field appends exactly that key and value after the members already written |
| `Authorized.StructSerializer.End` | src/authorized.rs:89 | finishing yields the members in the order they were written |
| `Authorized.Serialize` | src/authorized.rs:82-90 | the field-by-field serializer writes exactly `Serialized(a)` |
| `Authorized.DecodeBool` | src/authorized.rs:104 | a boolean member decodes to its value; any other JSON value is an error |
| `Authorized.DecodeOption` | src/authorized.rs:101-102 | `null` decodes to no fee; any other value decodes to a fee or passes on the authorization decoder's error |
| `Authorized.DeserializeValue` | src/authorized.rs:95-107 | taking `function`, `fee` and `broadcast` out of the parsed value one after another gives the same result as looking each up by key |
| `Authorized.DeserializeSucceedsIff` | src/authorized.rs:97-106 | deserialization succeeds if and only if the value is an object with a decodable `function`, a `fee` that is missing, `null` or decodable, and a boolean `broadcast`; the result then holds exactly those decoded members, with no fee when `fee` is missing or `null` |
| `Authorized.DeserializeErrors` | src/authorized.rs:99-104 | members are checked in the order `function`, `fee`, `broadcast`, and the first problem is reported. A missing `function` or `broadcast` is a missing-field error naming it. An undecodable `function` or non-null `fee` fails with the authorization decoder's error, and a non-boolean `broadcast` with the boolean decoder's error. Every failure is one of these |
| `Authorized.NullFeeIsMissingFee` | src/authorized.rs:101 | an explicit `"fee": null` gives the same result as no `fee` member, which is a request without a fee |
| `Authorized.DeserializeIgnoresOtherMembers` | src/authorized.rs:97-104 | two objects that agree on `function`, `fee` and `broadcast` deserialize alike, whatever other members they have |
| `Authorized.RoundTrip` | src/authorized.rs:82-107 | reading back the serialized object gives the original request: the same function authorization, the same fee or absence of fee, and the same broadcast flag |
| `Authorized.RoundTripAnyOrder` | src/authorized.rs:97-104 | the round trip holds for every reordering of the serialized members |
| `Authorized.NullEncodedFeeIsLost` | src/authorized.rs:101-102 | if a fee authorization were encoded as `null`, reading the object back would give a request without a fee |
| `Json.ToMapKeys` | src/authorized.rs:97 | reading an object's members gives exactly the keys written |
| `Json.ToMapLast` | src/authorized.rs:97 | a key takes the value of the last member written with it |
| `Json.ToMapDistinct` | src/authorized.rs:97 | when keys are distinct, every member written gives its key's value |
| `Json.ParseObject` | src/authorized.rs:97 | parsing the text of an object gives an object value |
| `Json.ToMapIgnoresOrder` | src/authorized.rs:97 | members with distinct keys read as the same object in any order |
| `Json.Get` | src/authorized.rs:101 | a lookup finds a member exactly when the value is an object that has the key, and it returns that member's value |
| `Json.Take` | src/authorized.rs:99-104 | taking a member returns what a lookup would return, leaves `null` in its place, and leaves every other key as it was |
| `Credits.Engine.constructor` | src/config.rs:25-28 | the engine handle starts with an empty request log and answers as its oracle says |
| `Credits.Engine.ParsePrivateKey` | src/lib.rs:50 | key parsing answers as the oracle says and is logged |
| `Credits.Engine.ParseAddress` | src/lib.rs:52 | address parsing answers as the oracle says and is logged |
| `Credits.Engine.Authorize` | src/lib.rs:62 | function authorization answers as the oracle says for the current random-stream position, which it advances; it is logged with its inputs |
| `Credits.Engine.ToExecutionId` | src/lib.rs:64 | execution-id derivation answers as the oracle says and is logged |
| `Credits.Engine.AuthorizeFeePublic` | src/lib.rs:66 | fee authorization answers as the oracle says for the current random-stream position, which it advances; it is logged with its inputs |
| `Credits.TransferInputs` | src/lib.rs:57-59 | the inputs are exactly two: the recipient address, then the amount as a 64-bit unsigned value |
| `Credits.TransferPublic` | src/lib.rs:41-70 | the builder returns the result of `TransferPublicRun`, appends exactly that run's requests to the engine log, and leaves the random stream where the run ends |
| `Credits.BadPrivateKeyStopsTheRun` | src/lib.rs:50 | when the private key does not parse, its error is returned, key parsing is the only request made, and no randomness is used |
| `Credits.BadRecipientStopsTheRun` | src/lib.rs:52 | when the recipient does not parse, its error is returned and only the two parses are requested: no authorization, execution id or fee |
| `Credits.RunShortCircuits` | src/lib.rs:48-70 | requests follow the fixed order key, recipient, authorize, execution id, fee; every request but the last succeeded; the call fails exactly when the last request failed, and it returns that error; a successful call makes all five requests |
| `Credits.RunRequests` | src/lib.rs:50-66 | in every run, failing or not, each request carries its step's arguments. The function authorization is for `credits.aleo`/`transfer_public`, with the parsed key on `[recipient, amount]`. The execution id is derived from that authorization. The fee authorization uses the same key, the caller's fee, that id and the random stream after the function authorization. The final random-stream position is the one after the last randomized step made |
| `Credits.SuccessfulRun` | src/lib.rs:54-69 | on success the function authorization is the one produced for `credits.aleo`/`transfer_public` with the parsed key on `[recipient, amount]`; the fee is always present, including a zero fee; the fee is authorized with the same key and the caller's fee against the execution id of that function authorization, using the random stream after it; `broadcast` is passed through unchanged |
| `Credits.RunSucceedsIff` | src/lib.rs:62-69 | a request is produced exactly when every engine step succeeds; if any step fails, no request is produced |
| `Credits.BuiltRequestOnTheWire` | src/lib.rs:69 | a request built by `transfer_public` serializes with the members `function`, `fee` and `broadcast` in that order, and reads back as the same request |

## Left out

- `Authorized::execute` (src/authorized.rs:46-61): a blocking HTTP POST to the remote service. It is network I/O, so it is not modelled.
- `Authorized::execute_local` (src/authorized.rs:67-77): runs the request on an in-memory snarkvm ledger, which is a foreign engine.
- src/config.rs: the network type aliases and `API_URL` are not modelled. The lazily initialised global `PROCESS` becomes the `Engine` object passed to `TransferPublic`. That object is built up front and cannot fail. In the source, `PROCESS` is `Process::load().unwrap()` (src/config.rs:27), forced on first use at src/lib.rs:62, after both parses. If that load fails, the call panics instead of returning an error. The model does not capture that panic.
- Cryptography: key and address parsing, authorization, execution-id derivation and the fee authorization are opaque oracle functions. Randomness is a position in the caller's random stream that these calls advance.
- Key and address parsing are grouped with the engine so that the call log shows them. In the source they are `from_str` parsers of snarkvm types, not `PROCESS` calls.
- `Value::from(Literal::…)` wrapping: the inputs are literals, and the conversion to program values is not modelled.
- The base-fee table: `get_base_fee_in_microcredits` is not defined in src/config.rs, so no fee constants are modelled.
- Other `Credits` operations that the tests call (`bond_public`, `unbond_public`, `claim_unbond_public`, …): they are not defined in src/lib.rs.
- The tests under src/tests: they are harness code over snarkvm.
- The JSON text layer: the value tree is modelled, not text. Numbers are integers. Escaping and whitespace are left out. Authorization payloads are assumed to survive being written as text and read back.
- Serializer errors: the `?` on `serialize_struct` and on each `serialize_field` passes on a serializer's error. The model's authorization encoding is total, so these errors are not modelled. The length hint 3 given to `serialize_struct` does not change the members written, so it is left out too.
- `take_from_value` belongs to snarkvm, and its source is not part of this model. The model assumes what its use here shows: a missing key is an error, and a present one is taken out and decoded. The exact error texts are not modelled. A missing `function` or `broadcast` is `MissingField` with the member's name. A member that does not decode is `InvalidValue`, which carries the decoder's own message and names no member, as `de::Error::custom` does.
