# Donation-tracking chaincode, modelled in Dafny

This project models `SimpleChaincode`, a chaincode that tracks charitable
donations. It runs on a ledger host that keeps a key-value world state. The
model covers its two entry points:

- `Invoke` routes to `init`, `registerDonater`, `registerProfiteReceiver`,
  `donate` and `assign`.
- `Query` routes to `trackproject`, `trackreceiver` and `trackdonator`.

The world state is a `map<string, seq<byte>>` held by a `Stub` object. The
stub has two operations: `GetState` returns the stored bytes, or nothing for
an absent key. `PutState` overwrites one key in full.

Modules:

- `Values` (values.dfy): `Option`/`Result`, bytes, timestamps and the error
  values the entry points return.
- `Strconv` (strconv.dfy): Go's `strconv.Atoi` on a 64-bit platform. It reads
  an optional sign, then digits left to right, and stops at the first non-digit
  (a syntax error) or at the first digit that overflows a uint64 (a range
  error). Then it checks the int64 range. `Itoa` is the reference that `Atoi`
  must invert.
- `Ledger` (ledger.dfy): the pure specification.
  - Routing: `RouteInvoke` and `RouteQuery`.
  - What each invoke entry decides: `Plan`, which yields a rejection, nothing
    to do, or one write.
  - How the single `PutState` applies the decision: `Commit`.
  - The entry points as functions: `InvokeSpec` and `QuerySpec`.
  - Sequences of invocations: `Run`.
- `LedgerProperties` (ledger_properties.dfy): lemmas about each entry and
  about sequences of calls.
- `Chaincode` (chaincode.dfy): the imperative model.
  - The `Stub` class: a `state` map that `PutState` reassigns in place.
  - The `SimpleChaincode` class: one method per Go function. Each method is
    proved equal to its `Ledger` specification.
  - The query methods have no `modifies` clause, so the verifier proves they
    leave the store alone.

The model follows the code as written, not the design it was meant to have:

- `registerDonater` and `registerProfiteReceiver` write under the empty key.
  Their local name variables are declared but never assigned.
- `trackreceiver` always reads the empty key.
- `donate` overwrites the donator's key with a single `DonatorRecord`. It never
  reads the previous value, and never sets the record's index or keeps totals.
- `assign` ignores its amount and stores the transaction timestamp's text
  under the receiver's key.

None of the aggregate invariants of the intended design is claimed: donor
totals, record indexes, receiver balances and conservation of money. The lemma
`DonationsDoNotAccumulate` shows on a concrete run that donor totals do not
hold.

## Model

| member | source | states |
|---|---|---|
| `Strconv.Atoi` | finished/chaincode_finished.go:194-197 | A parsed amount is always within the int64 range. A failure is a NumError that names `Atoi` and carries the whole input string. |
| `Strconv.AtoiCharacterization` | finished/chaincode_finished.go:194 | `Atoi` succeeds exactly on strings of an optional sign and at least one decimal digit whose value fits in int64. It then returns that value. A decimal string outside int64 gives a range error. |
| `Strconv.AtoiItoa` | finished/chaincode_finished.go:194 | Round trip: `Atoi` reads back every int64 that `Itoa` formats. |
| `Ledger.RouteInvoke` | finished/chaincode_finished.go:94-105 | Invoke's switch is the inverse of the entry names. A known name selects the one entry with that name. Any other name selects no entry. |
| `Ledger.RouteQuery` | finished/chaincode_finished.go:117-124 | Query's switch: a known name selects the one track entry with that name. Any other name selects none. |
| `Ledger.Plan` | finished/chaincode_finished.go:77-232 | Each invoke entry checks its argument count first, with its own message, and never reads the store. After the count check only `donate` can fail, and only when `Atoi` fails. Only `init` writes nothing. Any write goes to the key `TargetKey` names. |
| `Ledger.Commit` | finished/chaincode_finished.go:151-155 | The single PutState. It yields no payload. A rejection or a failed put returns its error and leaves the store unchanged. A successful put overwrites exactly one key. |
| `Ledger.InvokeSpec` | finished/chaincode_finished.go:90-110 | Invoke never returns a payload, and every error leaves the store unchanged. An unknown name gives "Received unknown function invocation: " followed by the name. Every key other than the one `TargetKey` names keeps its value: `""` for the register entries, `args[0]` for donate, `args[1]` for assign. |
| `Ledger.Track` | finished/chaincode_finished.go:234-286 | A track entry succeeds exactly when it has one argument and GetState succeeds. It then returns what is stored under its key, or nothing. A failed read returns an error that embeds the key. A wrong count returns the entry's own message. |
| `Ledger.QuerySpec` | finished/chaincode_finished.go:113-129 | An unknown name gives "Received unknown function query: " followed by the name. Success means a known track entry with one argument, returning the value under that entry's key. |
| `LedgerProperties.WrongArgCountRejected` | finished/chaincode_finished.go:82-84 | A known invoke entry called with the wrong argument count returns its count error and leaves the store unchanged. |
| `LedgerProperties.DonateParseFailure` | finished/chaincode_finished.go:194-197 | If the amount fails `Atoi`, donate returns Atoi's error and the store is unchanged. |
| `LedgerProperties.DonateSuccess` | finished/chaincode_finished.go:191-208 | A successful donate changes only key `args[0]`. It sets that key to the encoded record with donator `args[0]`, project `args[1]`, the parsed money, index 0 and the transaction time. |
| `LedgerProperties.DonateIgnoresPrior` | finished/chaincode_finished.go:204 | What donate leaves under the donator's key does not depend on the previous store. |
| `LedgerProperties.AssignSuccess` | finished/chaincode_finished.go:219-231 | A successful assign changes only key `args[1]`, setting it to the timestamp's text. |
| `LedgerProperties.AssignIgnoresAmount` | finished/chaincode_finished.go:219-227 | The third argument of assign is never parsed: any string there gives the same outcome. |
| `LedgerProperties.RegisterDonaterSuccess` | finished/chaincode_finished.go:131-156 | A successful registerDonater changes only the empty key. It sets it to the encoded donator named `args[0]`, with money 0, count 0 and no records. |
| `LedgerProperties.RegisterProfiteReceiverSuccess` | finished/chaincode_finished.go:158-181 | A successful registerProfiteReceiver changes only the empty key. It sets it to the encoded receiver named `args[0]`, with money 0. |
| `LedgerProperties.PutFailureReported` | finished/chaincode_finished.go:151-154 | When an entry writes and PutState fails, the host's error is returned and the store is unchanged. |
| `LedgerProperties.TrackByName` | finished/chaincode_finished.go:242-249 | trackproject and trackdonator return the value stored under their argument, or nothing. |
| `LedgerProperties.TrackReceiverIgnoresName` | finished/chaincode_finished.go:253-267 | trackreceiver gives the same answer for every argument: the value under the empty key. |
| `LedgerProperties.RunFrame` | finished/chaincode_finished.go:90-110 | Over any sequence of invocations, a key that no call targets keeps its value. |
| `LedgerProperties.RegistrationTargets` | finished/chaincode_finished.go:131-181 | Register calls target no key but the empty one. |
| `LedgerProperties.RegisteredNamesNotFound` | finished/chaincode_finished.go:131-181 | After any number of registrations, no non-empty name gains or loses a value. trackdonator answers for such a name exactly as before. |
| `LedgerProperties.DonationsDoNotAccumulate` | finished/chaincode_finished.go:183-209 | After registering "alice" and two donations of 50 and 30, trackdonator("alice") returns only the last record (30, index 0). The empty key holds the zeroed donator. |
| `Chaincode.SimpleChaincode.Init` | finished/chaincode_finished.go:77-87 | Init returns no payload. It fails with "Incorrect number of arguments. Expecting 2" exactly when it does not have two arguments. |
| `Chaincode.SimpleChaincode.Invoke` | finished/chaincode_finished.go:90-110 | The switch and the handler calls together give exactly `InvokeSpec`'s payload, error and new store. |
| `Chaincode.SimpleChaincode.Query` | finished/chaincode_finished.go:113-129 | Gives exactly `QuerySpec`'s payload and error, and modifies nothing. |
| `Chaincode.SimpleChaincode.RegisterDonater` | finished/chaincode_finished.go:131-156 | The count check, the timestamp read and the PutState under the unassigned name give exactly `Commit` of `Plan(RegisterDonater)`. |
| `Chaincode.SimpleChaincode.RegisterProfiteReceiver` | finished/chaincode_finished.go:158-181 | Gives exactly `Commit` of `Plan(RegisterProfiteReceiver)`. |
| `Chaincode.SimpleChaincode.Donate` | finished/chaincode_finished.go:183-209 | Count check, then Atoi, then one PutState under the record's donator. Gives exactly `Commit` of `Plan(Donate)`. |
| `Chaincode.SimpleChaincode.Assign` | finished/chaincode_finished.go:211-232 | Count check, then one PutState of the timestamp text under `args[1]`. Gives exactly `Commit` of `Plan(Assign)`. |
| `Chaincode.SimpleChaincode.TrackProject` | finished/chaincode_finished.go:234-250 | Gives exactly `Track(TrackProject)` on the stub's store, and modifies nothing. |
| `Chaincode.SimpleChaincode.TrackReceiver` | finished/chaincode_finished.go:252-268 | Reads the unassigned (empty) name. Gives exactly `Track(TrackReceiver)`, and modifies nothing. |
| `Chaincode.SimpleChaincode.TrackDonator` | finished/chaincode_finished.go:270-286 | Gives exactly `Track(TrackDonator)` on the stub's store, and modifies nothing. |

## Left out

- Process start-up (`main`, `shim.Start`), the logger and the `fmt` tracing: they are I/O only.
- The bytes `binary.Write` produces are not modelled. They are the `encode`
  field of a `Ledger.Codec` value that the chaincode object holds. Go's
  `binary.Write` refuses structs with string fields and writes nothing, and the
  code discards that error. An `encode` that returns empty bytes for every
  entity is one instance of the model.
- The text of `Timestamp.String()` is not modelled. It is the `show` field of
  the codec. The timestamp itself comes from the host (`Tx.timestamp`).
- `GetTxTimestamp`'s ignored error and the nil dereference that would follow
  are not modelled. The model's host always supplies a timestamp.
- Host failures are per-transaction inputs (`Tx.putFault`, `Tx.getFault`). The
  model assumes a failed PutState changes nothing. Host rules such as refusing
  an empty key appear only as such a failure.
- `Strconv.Atoi` assumes Go's `int` is 64 bits wide. It omits the value Go
  returns alongside an error, which `donate` discards, and the text of
  `NumError.Error()`.
- Go's distinction between a nil and an empty byte slice is not modelled. A
  missing key reads as `None`, and an empty stored value as `Some([])`.
- Init's unused locals are not modelled: nothing reads them.
- The `Project` entity is declared but never built by any entry point.
- Host consensus, transaction ordering and concurrency are not modelled.
  Transactions apply one after another (`Ledger.Run`).
- The aggregate invariants of the intended design are not modelled, because
  the code does not implement them. These are donor totals, record indexes,
  receiver balances, conservation of money and keying each entity by its own
  name.
