# Multisig message preparation and the token owners cache

A Dafny model of two parts of a TON wallet client.

- **Multisig wallet messages** (`multisig.dfy`, module `Multisig`). The wallet's address is computed from
  its state init: the code template of its type, with the owner's public key inserted into the data. A
  deploy message goes to that address in the default workchain, carries the state init and calls
  `constructor`. A transfer is planned against the account's current state. A frozen account is an
  error. An uninitialised account must be deployed first. Any other account gets a `sendTransaction`
  call to sign. Both calls carry the headers `time`, `expire` and `pubkey`. An unsigned message exposes
  the hash to sign. `Sign` fills the signature into the payload and attaches it as the body. It is a
  function on a value, so it never changes the unsigned message and can be repeated.
- **Owners cache** (`owners_cache.dfy`, module `Owners`, class `OwnersCache`). The cache maps token
  wallets to their owners. That map is persisted as a list of address-string pairs under the key
  `owners_cache`. A second map, held only in memory, caches each root token contract's state and
  detected wallet version. The cache can be loaded strictly or leniently, and `save` writes the map
  back. `resolve_owners` answers from the cache and fetches what is missing.
  `check_recipient_wallet` derives an owner's token wallet under a root contract and checks that it
  exists.

`base.dfy` (module `Base`) holds the shared value types. These are Option/Result, the fixed-width
integers, cells and internal addresses. `collaborators.dfy` (module `External`) models what the cache is
handed. The transport answers from a fixed function of the address and logs every request. The storage
is a map of records whose reads can fail. The address printer/parser and the token contract parsers are
function values.

Library calls the code delegates to are modelled as function-typed fields of a datatype that is passed
in. These are cell hashing, ABI encoding, `fill_sign`, address parsing and printing, and token-version
detection. Nothing is assumed about them, except where a lemma says so: the save/load round trip
requires that parsing a printed address gives it back.

Points of the code's behaviour that the contracts make explicit:

- Only `add_entry` and `add_owners_list` save. `resolve_owners` and `check_recipient_wallet` change
  the owners map without saving; their contracts state that storage is unchanged.
- A repeated `resolve_owners` fetches again every wallet whose first resolution failed.
  `ResolveOwnersIdempotent` proves that the answers are the same and that exactly those wallets are
  fetched again.
- `resolve_owners` never overwrites a cached owner, since it fetches only uncached wallets.
  `add_entry`, `add_owners_list` and `check_token_wallet` insert and overwrite.
- Only a root token contract the transport reports as missing gives `InvalidRootTokenContract`. A
  `guess_details` failure propagates its own error (`TokenContractUnreadable` here).
- The deploy `constructor` call passes an owners array that holds the public key as its only element,
  with one required confirmation.

## Model

| member | source | states |
|---|---|---|
| `Multisig.PrepareStateInit` | src/contracts/wallet/multisig.rs:170-189 | the state init keeps the template's code; its data is the template's data (an empty cell when absent) with the public key inserted |
| `Multisig.ComputeContractAddress` | src/contracts/wallet/multisig.rs:155-168 | the address's workchain is the argument and its account id is the hash of the wallet's state init |
| `Multisig.AccountIdIgnoresWorkchain` | src/contracts/wallet/multisig.rs:163-167 | the account id does not depend on the workchain; two addresses of one wallet are equal iff their workchains are |
| `Multisig.PrepareDeploy` | src/contracts/wallet/multisig.rs:16-64 | success iff the ABI encoding of `constructor` succeeds; the message goes to `ComputeContractAddress(.., DEFAULT_WORKCHAIN)`, carries the state init, has no body yet and keeps `expire_at`; hash and payload are the encoder's |
| `Multisig.PrepareTransfer` | src/contracts/wallet/multisig.rs:66-117 | `AccountIsFrozen` iff the account is frozen; `DeployFirst` iff it is uninitialised; otherwise a body-serialisation or encoding error, or `Sign` of a message to the account's own address with no state init and `expire_at` kept |
| `Multisig.PlanningPrecedesEncoding` | src/contracts/wallet/multisig.rs:75-81 | for a frozen or uninitialised account the outcome does not depend on the library, the clock, the destination, the amount or the body: nothing is encoded |
| `Multisig.CallHeader` | src/contracts/wallet/multisig.rs:46-52 | the header has exactly the keys `time`, `expire`, `pubkey`, holding the clock, `expire_at` and the public key |
| `Multisig.HeaderMatchesAbi` | src/contracts/wallet/multisig.rs:99-105 | the header's keys are exactly the ABI's header parameters and each value has its parameter's type |
| `Multisig.ConstructorArgs` | src/contracts/wallet/multisig.rs:38-43 | the constructor gets an owners array holding only the public key, and 1 required confirmation |
| `Multisig.ConstructorArgsMatchAbi` | src/contracts/wallet/multisig.rs:38-43 | the constructor arguments conform, position by position, to the ABI's `constructor` inputs |
| `Multisig.SendTransactionArgs` | src/contracts/wallet/multisig.rs:88-96 | arguments in order: destination, the amount widened to 128 bits with its value kept, bounce, flags 3, the serialised body |
| `Multisig.SendTransactionArgsMatchAbi` | src/contracts/wallet/multisig.rs:88-96 | the transfer arguments conform, position by position, to the ABI's `sendTransaction` inputs |
| `Multisig.TimestampMillisAsU64` | src/contracts/wallet/multisig.rs:45 | the `as u64` cast keeps a non-negative clock and wraps a negative one modulo 2^64 |
| `Multisig.ExternalInbound` | src/contracts/wallet/multisig.rs:83-86 | an inbound external message to the given destination, without state init or body |
| `Multisig.UnsignedMultisigMessage.Sign` | src/contracts/wallet/multisig.rs:132-143 | succeeds iff `fill_sign` does; the signed message is the stored one with the filled payload as body, and `expire_at` is kept |
| `Multisig.SignOnlySetsBody` | src/contracts/wallet/multisig.rs:132-143 | two signatures of one unsigned message give messages equal to it except for the body, with equal expiry; equal signatures give equal messages |
| `Multisig.PreparedHashIsSigningHash` | src/contracts/wallet/multisig.rs:128-130 | `hash()` (`UnsignedMultisigMessage.Hash`) and the payload of a prepared deploy or transfer are the signing hash and payload the encoder computed over that call and header |
| `Multisig.SignedDeployMessage` | src/contracts/wallet/multisig.rs:54-63 | a signed deploy goes to the computed address, carries the state init and a body, and keeps `expire_at` |
| `Multisig.SignedTransferMessage` | src/contracts/wallet/multisig.rs:107-116 | a signed transfer exists only for an active account, goes to its address, has no state init, carries a body and keeps `expire_at` |
| `Owners.ParseAddress` | src/core/owners_cache/mod.rs:48-49 | succeeds iff the text parses, with the parsed address; else the error names the text |
| `Owners.DecodeItems` | src/core/owners_cache/mod.rs:46-52 | succeeds iff every pair parses (`DecodeItem`: token wallet first, then owner), giving the pairs in order; a failure is the error of some pair all of whose predecessors parse |
| `Owners.Extend` | src/core/owners_cache/mod.rs:171-178 | the keys are the old keys plus the pairs' keys; keys not in the pairs keep their values; the last pair for a key gives its value |
| `Owners.DecodeRecord` | src/core/owners_cache/mod.rs:42-52 | no record gives the empty map; a failing read or unparsable record is an error; a pair list loads iff every address parses, into the map the pairs build in order |
| `Owners.EncodeOwners` | src/core/owners_cache/mod.rs:184-210 | the list has one printed pair (`Entry`: both addresses printed, token wallet first) per map entry, as many pairs as entries, and every pair is an entry of the map |
| `Owners.SavedOwnersDecode` | src/core/owners_cache/mod.rs:180-213 | when printed addresses parse back, decoding any encoding of a map gives that map |
| `Owners.ExtendAgrees` | src/core/owners_cache/mod.rs:52 | building a map from pairs that agree with a map `m` gives a map that agrees with `m` |
| `Owners.PersistedReloads` | src/core/owners_cache/mod.rs:42-52 | after a save, reading and decoding the stored record gives the cache's owners map |
| `Owners.OwnersCache.Load` | src/core/owners_cache/mod.rs:31-61 | succeeds iff the stored record decodes; the new cache holds the decoded owners and no root states; else the decoding error |
| `Owners.OwnersCache.LoadUnchecked` | src/core/owners_cache/mod.rs:63-77 | never fails: the decoded owners, or an empty map on any failure; no root states |
| `Owners.OwnersCache.GetOwner` | src/core/owners_cache/mod.rs:161-163 | `Some` iff the wallet is cached, with its cached owner; a read that changes neither map |
| `Owners.OwnersCache.Save` | src/core/owners_cache/mod.rs:180-214 | the record under `owners_cache` becomes an encoding of the owners map; no other record changes |
| `Owners.OwnersCache.AddEntry` | src/core/owners_cache/mod.rs:165-169 | the owners map is the old one with this entry set (overwriting), and it is persisted |
| `Owners.OwnersCache.AddOwnersList` | src/core/owners_cache/mod.rs:171-178 | the owners map is the old one extended by the pairs in order (later pairs win), and it is persisted |
| `Owners.FetchedOwner` | src/core/owners_cache/mod.rs:139-146 | a wallet resolves iff the transport finds its contract and its version and details parse, to the owner the details name |
| `Owners.OwnersCache.ResolveOwners` | src/core/owners_cache/mod.rs:122-159 | the answer is `ResolvedOwners` of the distinct wallets and the old cache; the cache gains exactly the answers; each uncached wallet is fetched exactly once and nothing else; storage unchanged |
| `Owners.ResolvedOwnersMeaning` | src/core/owners_cache/mod.rs:132-153 | answers only for wallets asked about; cached wallets get their cached owner; an uncached one is answered iff it resolves; recording answers never overwrites a cached owner |
| `Owners.ResolveOwnersIdempotent` | src/core/owners_cache/mod.rs:130-137 | resolving again after recording gives the same answers; the second round fetches exactly the wallets that failed the first time |
| `Owners.RootEntryFrom` | src/core/owners_cache/mod.rs:96-107 | `InvalidRootTokenContract` iff the transport says the root does not exist; a transport error propagates; success iff the root exists and its version is detected |
| `Owners.WalletExistence` | src/core/owners_cache/mod.rs:230-233 | `Exists(token_wallet)` iff the transport finds it, `NotExists` iff it reports it missing, an error iff the transport fails |
| `Owners.OwnersCache.CheckTokenWallet` | src/core/owners_cache/mod.rs:217-234 | if the wallet address derives, it is recorded as owned by the owner before one existence fetch, whatever that fetch returns; otherwise an error and nothing changes; storage unchanged |
| `Owners.OwnersCache.CheckRecipientWallet` | src/core/owners_cache/mod.rs:79-118 | a cached root is not fetched; an uncached root is fetched once; if it is missing (`InvalidRootTokenContract`), the fetch fails or its version is not detected, nothing is cached or recorded; otherwise its entry is cached before the wallet check; storage unchanged |
| `Owners.CheckRecipientWalletTwice` | src/core/owners_cache/mod.rs:84-94 | the first check keeps the earlier requests and adds at most one (root cached) or two (root uncached); once it has succeeded, the second check adds exactly its own derived wallet, never the root |

## Left out

- Asynchrony, the `RwLock`s and the resolver `Semaphore` are not modelled. Every operation runs alone to
  completion, so the concurrency bound, lock holding and interleavings are not captured. `resolve_owners`
  is a loop over the distinct wallets in an arbitrary order; the order is unobservable in its result.
  The semaphore is never closed, so acquiring a permit never fails. A semaphore of size 0, which would
  block forever, is not captured.
- The JSON text of the stored record is not modelled. A record is either a list of string pairs or
  text that does not deserialise to one (`Unparsable`).
- Address printing and parsing, the TVM cell hashing and BOC parsing, `insert_pubkey`,
  `create_unsigned_call`, `fill_sign`, body serialisation and the contract code and ABI blobs are
  library calls; they are function values with no assumed behaviour. The `constructor`,
  `sendTransaction` and header parameter lists of the SafeMultisigWallet ABI are written out as
  constants, since the ABI blob is not part of this model.
- Token-wallet version detection and address derivation (`guess_details`, `get_version`,
  `get_details`, `get_wallet_address`) are defined outside this model and are function values here.
  `TokenWalletVersion` is an opaque tag.
- The wall clock (`Utc::now()`) is a parameter.
- `DEFAULT_WORKCHAIN` is defined outside this model; it is 0 here.
- Calls the source unwraps with `trust_me` are total here. These are the ABI function lookup, state
  init parsing, key insertion, state init hashing and save's serialisation; their panics are not modelled.
- Addresses are `AddrStd` without anycast. `AddrVar` addresses are not modelled.
- The transport gives the same answer for an address throughout a run. State changes on chain between
  two requests are not modelled.
- `StateInit` keeps only its code and data. The template's `split_depth`, `special` and `library`
  fields, which the code passes through unchanged, are not modelled. `Message` keeps only its
  destination, state init and body. The external-inbound header's `src` and `import_fee`, which the
  code leaves at their defaults, are not modelled.
