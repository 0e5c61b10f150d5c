# Election contract, modelled in Dafny

A Hyperledger Fabric chaincode that keeps elections in the ledger's world
state, one key per election id. `ElectionContract` offers five transactions:

- `electionExists` is a query.
- `createElection` requires that the id is not yet stored.
- `readElection`, `updateElection` and `deleteElection` require that it is.

Each of the four guarded transactions checks existence, applies its guard (throwing
"The election <id> already exists" or "The election <id> does not exist"),
and then writes or deletes at most once.

The model has four modules:

- `Assets` (`assets.dfy`) holds the `Election` record (id, name,
  description) and the properties JSON.stringify writes for it.
- `Contract` (`election_contract.dfy`) holds the world state, the errors
  and the transactions. Each transaction is a pure transition function
  (`Create`, `Read`, `Update`, `Delete`) whose contract states what the
  transaction promises. The class `ElectionContract` holds the world state
  as a `ledger` field. Its methods do the same steps as the TypeScript
  methods, and each is proved equal to the transition function or
  predicate that specifies it. The
  queries change nothing; the other three methods modify only `ledger`.
- `Lifecycle` (`lifecycle.dfy`) runs histories of calls from an empty
  world state. It proves that an election exists exactly when some call
  created it and no later call deleted it. It also proves an invariant of
  a world state written only by the contract: every stored object carries
  its own key as its `id` property. So reading never meets a value that
  is not a flat object of string properties.
- `Scenarios` (`scenarios.dfy`) holds read-after-write lemmas and the unit
  tests' fixture, with the outcomes the code gives on it. A client method
  drives one election through the class.

How the stored bytes are modelled. A ledger value is a `Blob`:

- `Object(fields)` is bytes that JSON.parse turns into a flat object of
  string properties. JSON text of an object is never empty, so such a value
  always counts as existing.
- `Opaque(size)` is any other bytes: bytes JSON.parse rejects, or whose
  value is not a flat object of string properties. `Opaque(0)` is the empty buffer,
  which is also what getState returns for a key that is not stored.

An empty value therefore counts as absent, as `electionExists` decides.
Stored, non-empty bytes that JSON.parse rejects, or whose value is not a
flat object of string properties, make read and update fail with
`Corrupt(id)`. The code throws on the first kind. readElection returns
values of the second kind without error. updateElection throws on `null`
and primitives, and succeeds on arrays and on objects with non-string
properties. See "Left out".

Two behaviours of the code are easy to miss, and the model follows the
code:

- `createElection` stores the id inside the value as well as using it as
  the key.
- `updateElection` patches the parsed object, so every stored property
  other than name and description survives, including a missing `id`.

The unit tests expect `putState` payloads holding only `name`. The code
writes `id`, `name` and `description` on create, and adds `description` on
update. `Scenarios.FixtureCreate` and `Scenarios.FixtureUpdate` state what
the code writes.

## Model

| member | source | states |
|---|---|---|
| Contract.ElectionContract.ElectionExists | contracts/src/election-contract.ts:13-16 | the answer is true exactly when getState yields non-empty bytes under the id; absent and zero-length both count as not existing, and nothing is modified |
| Contract.ElectionContract.CreateElection | contracts/src/election-contract.ts:19-31 | ends exactly as `Create` on the old world state; on rejection the world state is left as it was (no write) |
| Contract.ElectionContract.ReadElection | contracts/src/election-contract.ts:35-43 | returns what `Read` gives on the current world state and modifies nothing |
| Contract.ElectionContract.UpdateElection | contracts/src/election-contract.ts:46-57 | ends exactly as `Update` on the old world state; on rejection the world state is left as it was (no write) |
| Contract.ElectionContract.DeleteElection | contracts/src/election-contract.ts:60-66 | ends exactly as `Delete` on the old world state; on rejection nothing is deleted |
| Assets.ToFields | contracts/src/assets/election.ts:9-21 | an Election is written as exactly three properties, id, name and description, each holding the field of that name; the candidates list is commented out and so never written |
| Contract.Message | contracts/src/election-contract.ts:20-23 | the message a failed guard throws begins with "The election <id> " and ends with "already exists" for create, "does not exist" for read, update and delete (lines 38, 49, 63) |
| Contract.GetState | contracts/src/election-contract.ts:14 | getState yields the bytes stored under the id, and the empty buffer when nothing is stored there |
| Contract.Exists | contracts/src/election-contract.ts:13-16 | an election exists iff its key is stored and the bytes there are non-empty; an object always is, so only absent or zero-length values count as missing |
| Contract.Create | contracts/src/election-contract.ts:19-31 | fails iff the election exists, with AlreadyExists(id); otherwise the key id holds exactly the object {id, name, description}, the election now exists, and every other key is untouched |
| Contract.Read | contracts/src/election-contract.ts:35-43 | fails with NotFound(id) iff the election does not exist, and with Corrupt(id) iff it exists but its bytes are not a flat object of string properties; otherwise returns the stored object unchanged |
| Contract.Update | contracts/src/election-contract.ts:46-57 | fails with NotFound(id) when absent and Corrupt(id) when its bytes are not a flat object of string properties; otherwise the object under id gets the new name and description, keeps every other property (id included, or its absence) as it was, and no other key changes |
| Contract.Delete | contracts/src/election-contract.ts:60-66 | fails with NotFound(id) iff the election does not exist; otherwise only the key id is removed and the election no longer exists |
| Contract.MessageNamesElection | contracts/src/election-contract.ts:21-22 | the message of a failed guard contains the election id and "already exists" or "does not exist" |
| Lifecycle.ApplyExistence | contracts/src/election-contract.ts:13-66 | after one call, the election exists if the call was a create of its id, is absent if it was a delete of its id, and is as before otherwise |
| Lifecycle.ExistenceHistory | contracts/src/election-contract.ts:19-66 | from an empty world state, an election exists iff some call created it and no later call deleted it |
| Lifecycle.ApplyKeepsWellFormed | contracts/src/election-contract.ts:24-56 | every call keeps the invariant that each stored value is an object whose id property is its key |
| Lifecycle.RunKeepsWellFormed | contracts/src/election-contract.ts:19-66 | every history of calls keeps that invariant |
| Lifecycle.ReadAfterHistory | contracts/src/election-contract.ts:35-43 | on a world state built by the contract from empty, read succeeds iff the election was created and not deleted since, fails only with NotFound, and returns an object whose id is the key |
| Scenarios.CreateTwice | contracts/src/election-contract.ts:20-30 | a second create of the same id fails with AlreadyExists and the value the first one wrote stays |
| Scenarios.ReadAfterCreate | contracts/src/election-contract.ts:24-42 | reading a freshly created election returns exactly {id, name, description} |
| Scenarios.UpdateAfterCreate | contracts/src/election-contract.ts:46-56 | after create then update, read returns {id, new name, new description}: the id is unchanged |
| Scenarios.DeleteThenNotFound | contracts/src/election-contract.ts:60-65 | after a delete the election does not exist and read, update and delete of it fail with NotFound |
| Scenarios.FixtureExists | contracts/src/election-contract.spec.ts:42-48 | on the tests' world state, 1001 exists and 1003 does not |
| Scenarios.FixtureCreate | contracts/src/election-contract.spec.ts:54-61 | creating 1003 writes {id, name, description}; creating 1001 fails with AlreadyExists |
| Scenarios.FixtureMessages | contracts/src/election-contract.spec.ts:60-98 | the messages for the tests' failing calls are exactly "The election 1001 already exists" and "The election 1003 does not exist" |
| Scenarios.FixtureRead | contracts/src/election-contract.spec.ts:67-73 | reading 1001 returns the stored object; reading 1003 fails with NotFound |
| Scenarios.FixtureUpdate | contracts/src/election-contract.spec.ts:79-86 | updating 1001 keeps its name-only object's shape plus the new name and description; updating 1003 fails with NotFound |
| Scenarios.FixtureDelete | contracts/src/election-contract.spec.ts:92-99 | deleting 1001 removes only that key; deleting 1003 fails with NotFound |

## Left out

- The Fabric runtime is not modelled: the decorators, the `Contract` base class, and `Context` with its stub, client identity and logging. The stub's world state is the `ledger` field.
- `async`/`Promise` are not modelled. Every call runs to completion before the next, so the model is synchronous.
- Concurrent invocations are not modelled. The race between the existence check and the write belongs to the platform's transaction ordering.
- The JSON text and the `Buffer` encoding are not modelled. A stored value is either the parsed object or opaque bytes of a given length.
- Contract.Read: bytes that parse to a JSON value other than an object (a number, `null`) are returned by readElection without error; the model folds them into `Opaque` and reports `Corrupt`. Objects whose properties are not strings are not modelled either.
- Contract.Update: updateElection succeeds in the code on a stored JSON array (setting name and description on it is legal, and JSON.stringify writes the array back) and on an object with non-string properties (such as a `candidates` list, kept on write-back); the model holds both as `Opaque`, reports `Corrupt` and writes nothing.
- Contract.Message: the message of the error JSON.parse throws for a corrupt value is not modelled.
- contracts/src/assets/candidate.ts is not part of this model: the asset's field that would use it is commented out.
- The unit tests' exact `putState` byte strings are not modelled, because they disagree with what the code writes.
