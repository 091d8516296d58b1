# Model of the Orbs node core and crypto SDK

This project models four connected parts of the Orbs network in Dafny and proves what they are for.

1. **Addresses.** The Base58 codec of the C++ SDK is modelled as the in-place conversions it is, on
   arrays, and proved against a reference that reads the bytes as one number and writes it in the
   other base. Both round trips, the buffer sizes and the shortcuts `high` and `length` follow. On top
   of it stand the printed address with its fixed length and its validator. `Digits`, `Base58`,
   `CryptoAddress`; `Hex` and `RawAddress` for the node's own raw addresses.
2. **Execution.** The virtual machine runs each transaction on a fork of the set's cache and merges
   only what succeeds. It is proved to refine running the calls one after another on a single map.
   A contract call is any finite program of loads, stores and branches that succeeds, is rejected or
   crashes; the Kin ATN token is one such contract. `StateKeys`, `CacheContents`, `StateCaches`,
   `Contracts`, `StateDiffs`, `CachedRuns`, `VirtualMachines`, `SetOutputs`, `KinAtn`,
   `KinAtnContract`, `ColonAccounts`.
3. **Replication.** A hash-linked block storage, its sync queue, paged replay, and a state storage
   that must equal the fold of all state diffs. `Replication`, `MadeChains` and `NodeRuns` join this with
   execution: when a synced store is what executing every committed transaction in turn leaves. `Chains`,
   `BlockStorages`, `BlockStorageSyncs`, `Paging`, `StateStorages`, `BlockBuilders`.
4. **Consensus and pools.** Stub consensus as a step system over a network that drops, repeats and
   reorders messages, and the life of a transaction in the two pools under two expiry clocks.
   `ClusterProgress` says when the cluster can go on; `ClusterReplication` and `CommittedOnce` join
   these with the rest. `StubConsensuses`, `TransactionPools`.

Objects that the program updates in place are classes whose methods are proved against functions of
their contents; what the program promises is then proved about those functions, over all runs.
`dafny verify dfyconfig.toml` checks everything.

## What turned out not to hold

Each of these is stated with the exact condition under which the code does meet the property.

- A raw address survives its text form only with an ASCII network byte (`RawAddress.RawRoundTrip`),
  and a cache key only if in addition no colon is in it (`StateKeys.CacheKeyRoundTrip`).
- The state diff of a set is right if and only if no successful call wrote a key with a colon
  (`VirtualMachines.VirtualMachine.ProcessTransactionSet`). The store of a node is what executing all
  committed calls leaves under the same condition (`NodeRuns.StoreIsExecutionIff`,
  `ClusterReplication.EveryNodeReplicatesIff`). An account name with a colon is enough to break it: a
  transfer to `x:y` overwrites the balance of `x` (`ColonAccounts.ColonTransferOverwrites`).
- A transfer conserves the sum of all balances if and only if nobody pays themselves
  (`KinAtn.TransferKeeps`).
- The token stays sound under the calls it means to offer, but the processor runs whatever method the
  payload names. The exact conditions under which a call of one of its helper methods keeps it sound
  are those of `KinAtn.SetBalanceKeepsIff`, `KinAtn.SetPoolBalanceKeepsIff` and
  `KinAtn.ReduceFromPoolKeepsIff`.
- A committed transaction that is valid can become pending again, and be committed in a second block, if
  and only if its pending lifetime outlasts its committed entry, for which it must be stamped later than
  its commit when the lifespans are equal (`TransactionPools.CommittedMayReturnIff`,
  `CommittedOnce.CommittedTwiceIff`).
- The leader broadcasts a block even if its own commit failed. Chains may then diverge if and only if
  it was the leader's pool that did not answer, the block is signed as the nodes require, and there is
  a node besides the leader (`StubConsensuses.MayDivergeIff`); reloading the leader's storage at once
  heals it (`StubConsensuses.RestartHeals`).
- A stored block can be lost: one whose report to the transaction pool failed stays on disk without
  being the last block, and a different next block replaces it. Nothing else makes a stored block
  change (`BlockStorages.StoredOnlyGrowsIff`).
- The comment at `client/crypto-sdk/lib/address.cpp:183` gives the virtual chain ID 6 bytes; the code
  takes 3, and so does the model. The version field of an address is read as a number and its
  failure ignored, so more than `00` is accepted (`CryptoAddress.AcceptedIsPrintIffVersion`,
  `CryptoAddress.VersionTextIsLoose`).

## Assumptions

- The float factors that size the Base58 buffers are read as the exact rationals 138/100 and 733/1000.
- SHA256, RIPEMD160, CRC32, the block hash and the transaction hash are function parameters, those of
  addresses with a fixed output length. Where agreement is claimed the alternative is a collision. A
  transaction's hash fixes its timestamp.
- The Base58 of the node (the npm package bs58) follows the same reference, without trimming spaces.
- Stored blocks come back from the database as they were written. JSON of whole numbers is a
  parameter that round trips where soundness of the token is claimed; what JavaScript computes from a
  pool that holds something else is a parameter as well.
- Claims about the token over whole runs assume that its calls are transfers, financing and calls that
  only read, such as `getBalance`; the processor itself would run any method a payload names.
- Contracts are registered under addresses with an ASCII network ID other than a colon.
- An `int` that a failed stream extraction leaves unset is a parameter of validation.
- One chain of awaits is one step: check then store, build then commit then broadcast, and receiving a
  block with the report that follows.
- Whether the pool acknowledges a block, whether a signature is valid, the time, and what a poll sees of
  the chain at each request are parameters.

## Model

| member | source | states |
|---|---|---|
| `Base58.Encode` | client/crypto-sdk/lib/base58.cpp:30-73 | The in-place conversion, with its `138/100` buffer and the `high` shortcut, yields the Base58 text of the byte string read as one number, leading zero bytes kept as `1`s. |
| `Base58.Decode` | client/crypto-sdk/lib/base58.cpp:76-139 | The in-place conversion, with its `733/1000` buffer and the `length` shortcut, yields the bytes of the text without outer spaces, or names its first character outside the alphabet. |
| `Base58.DecodeOfEncode` | client/crypto-sdk/lib/base58.cpp:30-139 | Every byte string survives encoding and decoding, and its text uses the alphabet only. |
| `Base58.EncodeOfDecode` | client/crypto-sdk/lib/base58.cpp:75-139 | Trimmed of outer spaces, a text decodes exactly when it is over the alphabet; encoding the result gives the trimmed text back. |
| `Base58.EncodeOfDecodeExactly` | client/crypto-sdk/lib/base58.cpp:98-139 | Without trimming: a text decodes exactly when it is over the alphabet, and encoding the result gives it back. |
| `Base58.OuterSpacesAreSkipped` | client/crypto-sdk/lib/base58.cpp:77-85 | Any number of spaces before and after a text changes nothing in what it decodes to. |
| `Base58.OnlySpacesAreRefused` | client/crypto-sdk/lib/base58.cpp:77-85 | A text of spaces only is refused at its first space. |
| `Base58.EncodedInjective` | client/crypto-sdk/lib/base58.cpp:30-73 | Different byte strings have different texts. |
| `Base58.EncodeSizeSuffices` | client/crypto-sdk/lib/base58.cpp:15-16 | `n * 138 / 100 + 1` Base58 digits hold every number of `n` bytes, for every `n`. |
| `Base58.DecodeSizeSuffices` | client/crypto-sdk/lib/base58.cpp:18-19 | `n * 733 / 1000 + 1` bytes hold every number of `n` Base58 digits, for every `n`. |
| `Base58.CountZeroes` | client/crypto-sdk/lib/base58.cpp:35-43 | Counts exactly the leading zero bytes. |
| `Base58.EncodeByte` | client/crypto-sdk/lib/base58.cpp:51-60 | Stopping at `high` is multiplying the whole buffer by 256 and adding a byte; the index never goes below 0, the carry ends at 0, and everything up to the new `high` is still zero. |
| `Base58.EncodeDigits` | client/crypto-sdk/lib/base58.cpp:62-72 | Skipping the zero digits left in the buffer writes the digits of its value, with no leading one beyond those counted. |
| `Base58.DecodeDigit` | client/crypto-sdk/lib/base58.cpp:110-121 | Rewriting only `length` bytes and what the carry needs is multiplying the whole buffer by 58 and adding a digit; the carry ends at 0. |
| `Base58.DecodeChars` | client/crypto-sdk/lib/base58.cpp:101-122 | The buffer holds the value of the characters read; reading stops exactly at the first one outside the alphabet. |
| `Base58.DecodeBytes` | client/crypto-sdk/lib/base58.cpp:124-138 | Copying from the first non-zero byte yields the bytes of the buffer's value after the counted zeroes. |
| `Base58.CountOnes` | client/crypto-sdk/lib/base58.cpp:87-95 | For a text over the alphabet, counts its leading zero digits. |
| `Base58.CarryTurn` | client/crypto-sdk/lib/base58.cpp:53-57 | One turn of a carry loop keeps the carry below the multiplier (256 or 58) and the balance between digits rewritten, carry and digits to come. |
| `Base58.CarrySpent` | client/crypto-sdk/lib/base58.cpp:59-59 | When no digit is left and the result fits the buffer, the carry is 0. |
| `Base58.CarryDone` | client/crypto-sdk/lib/base58.cpp:53-53 | Leaving the loop with carry 0 at or before `high` has multiplied the whole buffer: the digits not reached are zero. |
| `Digits.SizeSuffices` | client/crypto-sdk/lib/base58.cpp:15-19 | A rational bound `p/q` on a logarithm, checked once as `a^q <= b^p`, sizes the buffer for every length. |
| `Digits.ConvertRoundTrip` | client/crypto-sdk/lib/base58.cpp:30-139 | Changing base and back gives the same digits, leading zeros included. |
| `CryptoAddress.Address.Init` | client/crypto-sdk/lib/address.cpp:62-94 | Checks key length, chain ID and network ID in this order; otherwise the account ID is RIPEMD160 of SHA256 of the key, and the checksum the CRC32 of network, version, chain and account ID. |
| `CryptoAddress.Address.ToString` | client/crypto-sdk/lib/address.cpp:123-137 | Every initialised address prints to exactly 40 characters, and validation accepts the print. |
| `CryptoAddress.LengthByValue` | client/crypto-sdk/lib/address.cpp:31-32 | 27 bytes with a first byte that is not 0 print to 37 characters exactly when their value reaches `58^36`. |
| `CryptoAddress.LengthFromMsb` | client/crypto-sdk/lib/address.cpp:27-32 | 27 bytes whose first is at least 0x08 print to 37 characters. |
| `CryptoAddress.MsbIsTight` | client/crypto-sdk/lib/address.cpp:147-149 | A first byte makes all its 27-byte strings print to 37 characters if and only if it is at least 0x08. |
| `CryptoAddress.IsValid` | client/crypto-sdk/lib/address.cpp:151-208 | Accepts exactly the 40-character texts with a known network ID, a version text read as 0, and a tail that is the encoding of a chain ID in range, an account ID and the matching checksum. |
| `CryptoAddress.AcceptedDirectly` | client/crypto-sdk/lib/address.cpp:151-208 | The same with the tail written out: the Base58 text of three chain bytes with a first of at least 8, twenty account bytes, and the CRC32 of network, version 0, chain and account. |
| `CryptoAddress.VersionReadsZeroIff` | client/crypto-sdk/lib/address.cpp:167-170 | Exactly which two characters read as version 0: a failed extraction, a zero, or two spaces when the variable held 0 modulo 256. |
| `CryptoAddress.CanonicalTail` | client/crypto-sdk/lib/address.cpp:174-186 | A 37-character tail that decodes to 27 bytes with a chain ID in range is the encoding of those bytes: no space was trimmed from it. |
| `CryptoAddress.AcceptedIffTailDecodes` | client/crypto-sdk/lib/address.cpp:174-205 | Judging the decoded tail, as the code does, is judging whether any raw address encodes to it. |
| `CryptoAddress.TextIsAccepted` | client/crypto-sdk/lib/address.cpp:123-208 | The print of every raw address has 40 characters and is accepted. |
| `CryptoAddress.AcceptedIsPrintIffVersion` | client/crypto-sdk/lib/address.cpp:167-170 | An accepted text is the print of the address in its tail if and only if its version reads `00`. |
| `CryptoAddress.VersionTextIsLoose` | client/crypto-sdk/lib/address.cpp:167-170 | The version text `xy` is accepted too: a failed extraction reads as 0. |
| `RawAddress.RawRoundTrip` | projects/libs/core-library-typescript/src/common-library/address.ts:112-123 | A raw address survives encoding and decoding if and only if it is empty or its network byte is ASCII. |
| `RawAddress.DecodeOfEncode` | projects/libs/core-library-typescript/src/common-library/address.ts:112-123 | Everything after the network byte always comes back; a network byte outside ASCII comes back as the replacement character. |
| `RawAddress.NoColonAfterNetwork` | projects/libs/core-library-typescript/src/common-library/address.ts:112-116 | Only the network character of an encoded address can be a colon. |
| `Hex.HexOfByte` | projects/libs/core-library-typescript/src/common-library/address.ts:112-116 | Hex is two lower-case digits a byte, the high one first. |
| `Hex.HexIgnoresCase` | projects/libs/core-library-typescript/src/common-library/address.ts:118-123 | Reading hex takes either case. |
| `Hex.HexThenRest` | projects/libs/core-library-typescript/src/common-library/address.ts:118-123 | Reading hex inverts writing it and goes on with what follows. |
| `RawAddress.FromBufferThenToBuffer` | projects/libs/core-library-typescript/src/common-library/address.ts:77-104 | A buffer parses if and only if it has at least 29 bytes and its checksum fits it, with the version byte taken as 0 and the network byte as it reads in UTF-8; the address then serialises to exactly that buffer. |
| `RawAddress.ParseOutcome` | projects/libs/core-library-typescript/src/common-library/address.ts:77-104 | Parsing throws exactly when a read passes the end of the buffer and refuses exactly a checksum that does not fit; without validation it puts in the one that does. |
| `RawAddress.ToBufferThenFromBuffer` | projects/libs/core-library-typescript/src/common-library/address.ts:66-104 | A serialised address parses back to itself if and only if its network ID is one ASCII character, its chain ID three bytes in lower-case hex and its account ID 20 bytes. |
| `RawAddress.PrintsAsSdk` | projects/libs/core-library-typescript/src/common-library/address.ts:66-116 | For an ASCII network ID, the node's text of a serialised address is the text the SDK prints for the same key, chain and network. |
| `StateKeys.CacheKeyRoundTrip` | projects/libs/core-library-typescript/src/virtual-machine/state-cache.ts:48-57 | Decoding inverts encoding of a cache key if and only if the address is well formed (ASCII network ID other than a colon) and the key has no colon. |
| `StateKeys.DecodeOfEncoded` | projects/libs/core-library-typescript/src/virtual-machine/state-cache.ts:48-57 | Decoding a key that was encoded never fails; of a key with a colon it keeps what is before it. |
| `StateKeys.CacheKeyInjective` | projects/libs/core-library-typescript/src/virtual-machine/state-cache.ts:48-51 | On well-formed addresses and any keys, colons included, cache keys do not collide. |
| `StateKeys.CacheKeysCollide` | projects/libs/core-library-typescript/src/virtual-machine/state-cache.ts:48-51 | Addresses that differ only in a network byte outside ASCII share their cache keys. |
| `StateKeys.StoreKeyReads` | projects/libs/core-library-typescript/src/state-storage/kvstore.ts:53-56 | The hex before the first dot of a store key is its address and what stands after it the key. |
| `StateKeys.StoreKeyInjective` | projects/libs/core-library-typescript/src/state-storage/kvstore.ts:53-56 | Store keys do not collide, for any addresses and keys. |
| `StateCaches.ForkLaw` | projects/libs/core-library-typescript/src/virtual-machine/state-cache.ts:29-67 | Whatever is set on a fork, merging its modified keys gives the parent the cache of the fork (well-formed addresses, no colons). |
| `StateCaches.ForkLawIff` | projects/libs/core-library-typescript/src/virtual-machine/state-cache.ts:29-67 | For sets on well-formed addresses and a parent without colons, that holds if and only if no key set has a colon. |
| `CacheContents.MarksChanges` | projects/libs/core-library-typescript/src/virtual-machine/state-cache.ts:29-38 | A key ends up modified exactly when it was, or when some set on the way gave it a text other than its cached one. |
| `StateCaches.BlockCacheIsAllModified` | projects/libs/core-library-typescript/src/virtual-machine/state-cache.ts:29-38 | In a cache that began empty the modified keys are the cached keys. |
| `StateCaches.EachKeyOnce` | projects/libs/core-library-typescript/src/virtual-machine/state-cache.ts:40-46 | The modified keys come once each, with the value last set. |
| `CacheContents.MergeCompletes` | projects/libs/core-library-typescript/src/virtual-machine/state-cache.ts:59-67 | Copying the modified entries of a fork into its parent gives the cache of the fork. |
| `CacheContents.ForkRunStaysFork` | projects/libs/core-library-typescript/src/virtual-machine/state-cache.ts:29-61 | After any sets on a fork, its cache extends that of its parent and differs from it only in keys marked as modified. |
| `StateCaches.StateCache.Set` | projects/libs/core-library-typescript/src/virtual-machine/state-cache.ts:29-38 | Caches the text and marks the key exactly when marking is on and the text is a new one. |
| `StateCaches.StateCache.GetModifiedKeys` | projects/libs/core-library-typescript/src/virtual-machine/state-cache.ts:40-46 | Lists the decoded modified keys in the order first marked, with their cached texts. |
| `StateCaches.StateCache.Fork` | projects/libs/core-library-typescript/src/virtual-machine/state-cache.ts:59-61 | A new cache with the same texts and no modified keys. |
| `StateCaches.StateCache.Merge` | projects/libs/core-library-typescript/src/virtual-machine/state-cache.ts:63-67 | Sets the items one after another. |
| `VirtualMachines.VirtualMachine.ProcessTransactionSet` | projects/libs/core-library-typescript/src/virtual-machine/virtual-machine.ts:28-64 | Returns the output of the whole set, as the lemmas on `Processed` describe it. Fork/merge execution agrees with running the calls one after another on one map: receipts and unexpected errors are the same as long as no colon is written, and the diff lists exactly the keys written with their final values if and only if no colon was written. |
| `SetOutputs.OneEntry` | projects/libs/core-library-typescript/src/virtual-machine/virtual-machine.ts:33-64 | A set of one transaction runs its program on the state of the contract its header names: the receipt says whether it succeeded, a rejected one leaves no diff, an unexpected error is reported with its ID, and the diff of a successful one leads to the state it left, when it wrote no colon. |
| `SetOutputs.EntryInTurn` | projects/libs/core-library-typescript/src/virtual-machine/virtual-machine.ts:32-56 | In a longer set the i-th receipt names the i-th transaction and says whether its program, run on the contract its header names and on the state those before it left, succeeded; the next one starts from its state exactly if it did. (No colon written.) |
| `SetOutputs.FailureIsFirstCrash` | projects/libs/core-library-typescript/src/virtual-machine/virtual-machine.ts:44-56 | As long as no colon is written, a set fails exactly at the first transaction whose program throws unexpectedly on what those before it left, and the error names that one. |
| `SetOutputs.DiffNamesCalled` | projects/libs/core-library-typescript/src/virtual-machine/virtual-machine.ts:33-58 | Colons or not, every item of the diff belongs to the contract that the header of some successful transaction names. |
| `SetOutputs.UnregisteredFails` | projects/libs/core-library-typescript/src/virtual-machine/hard-coded-contracts/processor.ts:74-78 | A call of a contract that is not registered is reported as an unexpected error. |
| `VirtualMachines.VirtualMachine.ProcessTransaction` | projects/libs/core-library-typescript/src/virtual-machine/virtual-machine.ts:33-56 | One call on a fork is one step of the calls run on caches: merged when it succeeds, dropped with a receipt when it is rejected, reported when it fails unexpectedly. |
| `CachedRuns.RunCachedStands` | projects/libs/core-library-typescript/src/virtual-machine/contract-state-accessor.ts:40-60 | Running any contract on a cache over the storage ends as running it on the state itself does, and leaves a fork that stands for the state it leaves. |
| `CachedRuns.ReceiptsAgree` | projects/libs/core-library-typescript/src/virtual-machine/virtual-machine.ts:28-64 | For every list of calls: unless a colon was written, receipts and unexpected errors are those of sequential execution. |
| `CachedRuns.DiffIffPlain` | projects/libs/core-library-typescript/src/virtual-machine/virtual-machine.ts:28-64 | For every list of calls: the reported diff is the diff of sequential execution if and only if no colon was written. |
| `CachedRuns.DiffReachesFinalState` | projects/libs/core-library-typescript/src/virtual-machine/virtual-machine.ts:28-64 | Unless a colon was written, applying the reported diff to the storage gives the final state of sequential execution. |
| `CachedRuns.ColonKeyIsLost` | projects/libs/core-library-typescript/src/virtual-machine/state-cache.ts:48-57 | Applying the reported diff never changes a key with a colon, so a new value written to one is lost and the state reached is not that of sequential execution. |
| `CachedRuns.SetLoadsNothing` | projects/libs/core-library-typescript/src/virtual-machine/contract-state-accessor.ts:40-50 | A set whose calls find every key they read in the cache does the same whatever is stored. |
| `ColonAccounts.ColonTransferOverwrites` | projects/libs/core-library-typescript/src/virtual-machine/state-cache.ts:48-57 | A covered token transfer to `x:y` succeeds and debits the sender, but what is committed leaves `x:y` as it was and overwrites the balance of `x` with what `x:y` should have. |
| `CachedRuns.MergeStep` | projects/libs/core-library-typescript/src/virtual-machine/virtual-machine.ts:36-43 | Merging a call's fork keeps the cache of the set a picture of some state; it is the state after the call unless the call wrote a colon. |
| `CachedRuns.BlockDiff` | projects/libs/core-library-typescript/src/virtual-machine/virtual-machine.ts:58-58 | What the cache of a set reports as modified is the diff of the state it stands for. |
| `VirtualMachines.Execute` | projects/libs/core-library-typescript/src/virtual-machine/hard-coded-contracts/processor.ts:44-53 | Running a contract through its accessor changes the cache as running its program on the cache's contents does. |
| `VirtualMachines.RegistryIsWellFormed` | projects/libs/core-library-typescript/src/virtual-machine/hard-coded-contracts/hard-coded-smart-contract-registry.ts:33-47 | If contracts are registered under well-formed addresses, a call of any other address only throws, mangled addresses included. |
| `VirtualMachines.ContractStateAccessor.Load` | projects/libs/core-library-typescript/src/virtual-machine/contract-state-accessor.ts:40-50 | The cached text first, the stored one second. |
| `VirtualMachines.ContractStateAccessor.Store` | projects/libs/core-library-typescript/src/virtual-machine/contract-state-accessor.ts:57-61 | Sets the key of the own contract in the cache, and nothing else. |
| `Contracts.RunFrame` | projects/libs/core-library-typescript/src/virtual-machine/contract-state-accessor.ts:40-60 | A call changes keys of its own contract only, and only those it is recorded to have written. |
| `Contracts.RunSetFrame` | projects/libs/core-library-typescript/src/virtual-machine/virtual-machine.ts:32-56 | A run that does not crash has one receipt per call, and leaves every key it did not write alone. |
| `Contracts.RunSetAppend` | projects/libs/core-library-typescript/src/virtual-machine/virtual-machine.ts:32-56 | Running two lists of calls is running the second on the state the first leaves, with the written keys and the receipts of both. |
| `StateDiffs.ApplyDiffOfRun` | projects/libs/core-library-typescript/src/state-storage/state-storage.ts:100-107 | A diff of the keys a run wrote takes the state before the run to the state after it. |
| `KinAtnContract.KinAtnSmartContract.Transfer` | projects/libs/core-library-typescript/src/virtual-machine/hard-coded-contracts/registry/kinatn-smart-contract.ts:18-49 | On the cache, a transfer of a whole amount makes the checks in order and ends as stated for its program on the state, with the same writes. |
| `KinAtnContract.KinAtnSmartContract.FinanceAccount` | projects/libs/core-library-typescript/src/virtual-machine/hard-coded-contracts/registry/kinatn-smart-contract.ts:65-74 | On the cache, financing ends as stated for its program on the state. |
| `KinAtnContract.KinAtnSmartContract.ReduceFromPool` | projects/libs/core-library-typescript/src/virtual-machine/hard-coded-contracts/registry/kinatn-smart-contract.ts:55-63 | On the cache, the pool is read, started over when it is zero, read again and reduced. |
| `KinAtn.TransferComesTo` | projects/libs/core-library-typescript/src/virtual-machine/hard-coded-contracts/registry/kinatn-smart-contract.ts:18-49 | How a transfer of a whole amount ends, for all arguments and stored texts: it succeeds exactly when both arguments have the right types, the amount is positive, both balances are numbers, the sender has the amount and the recipient has room; it writes the sender first and the recipient second. |
| `KinAtn.FinanceComesTo` | projects/libs/core-library-typescript/src/virtual-machine/hard-coded-contracts/registry/kinatn-smart-contract.ts:55-74 | How financing ends for every stored pool, malformed ones included. |
| `KinAtn.RunTransfer` | projects/libs/core-library-typescript/src/virtual-machine/hard-coded-contracts/registry/kinatn-smart-contract.ts:18-49 | In a sound state a transfer is either covered and moves the amount, or rejected; it never crashes. |
| `KinAtn.TransferEffect` | projects/libs/core-library-typescript/src/virtual-machine/hard-coded-contracts/registry/kinatn-smart-contract.ts:18-49 | In a sound state a transfer succeeds exactly when its amount is positive, the sender has it and the recipient has room; the recipient then has that much more, the sender, if another, that much less, and every other key is untouched. Otherwise nothing changes. |
| `KinAtn.FinanceEffect` | projects/libs/core-library-typescript/src/virtual-machine/hard-coded-contracts/registry/kinatn-smart-contract.ts:55-74 | Financing in a sound state sets the balance to 10000 and takes 10000 from the pool, or from 20 billion when the pool is 0, and touches no other key. |
| `KinAtn.UnreadableAccounts` | projects/libs/core-library-typescript/src/virtual-machine/hard-coded-contracts/registry/kinatn-smart-contract.ts:18-49 | A balance that is no JSON is an unexpected error, one that is no number a rejection; either leaves the state alone. |
| `KinAtn.WrongArguments` | projects/libs/core-library-typescript/src/virtual-machine/hard-coded-contracts/registry/kinatn-smart-contract.ts:18-29 | Arguments of the wrong type and amounts that are not positive are rejected whatever is stored. |
| `KinAtn.UnreadablePool` | projects/libs/core-library-typescript/src/virtual-machine/hard-coded-contracts/registry/kinatn-smart-contract.ts:55-63 | A pool that is no JSON is an unexpected error; one that is no number is started over or reduced as JavaScript computes. |
| `KinAtn.TransferKeeps` | projects/libs/core-library-typescript/src/virtual-machine/hard-coded-contracts/registry/kinatn-smart-contract.ts:18-49 | A covered transfer keeps balances in 0..2^53-1 and the pool sound; it conserves the sum of all balances if and only if the sender is not the recipient. |
| `KinAtn.TransferTotal` | projects/libs/core-library-typescript/src/virtual-machine/hard-coded-contracts/registry/kinatn-smart-contract.ts:47-48 | A self-transfer creates exactly the amount paid; any other creates nothing. |
| `KinAtn.FinanceKeeps` | projects/libs/core-library-typescript/src/virtual-machine/hard-coded-contracts/registry/kinatn-smart-contract.ts:55-74 | Financing keeps the token sound, sets one balance to 10000 and takes 10000 from a pool that starts over at 20 billion. |
| `KinAtn.TokenRun` | projects/libs/core-library-typescript/src/virtual-machine/hard-coded-contracts/registry/kinatn-smart-contract.ts:18-74 | Over every run in which the token serves only transfers, financing and reads, mixed with any calls of other contracts, balances stay in 0..2^53-1 and the pool a multiple of 10000 between 0 and 20 billion less 10000; the sum of balances is unchanged while the token serves only transfers to others and reads. |
| `KinAtn.SetBalanceKeepsIff` | projects/libs/core-library-typescript/src/virtual-machine/hard-coded-contracts/processor.ts:88-88 | The payload may name any method: one outside call of `setBalance` succeeds, and keeps the token sound if and only if the text it stores is a whole number in 0..2^53-1. |
| `KinAtn.SetPoolBalanceKeepsIff` | projects/libs/core-library-typescript/src/virtual-machine/hard-coded-contracts/processor.ts:88-88 | One outside call of `setPoolBalance` keeps the token sound if and only if the text it stores is a multiple of 10000 between 0 and 20 billion less 10000. |
| `KinAtn.ReduceFromPoolKeepsIff` | projects/libs/core-library-typescript/src/virtual-machine/hard-coded-contracts/processor.ts:88-88 | One outside call of `reduceFromPool` keeps the token sound if and only if the pool it leaves is such a number. |
| `Chains.Agreement` | projects/libs/core-library-typescript/src/common-library/block-utils.ts:18-26 | Two linked chains with equal hashes at a height agree on header and body at every height up to it, or hold two blocks on which the hash collides. |
| `Chains.GenesisIsEmpty` | projects/libs/core-library-typescript/src/common-library/block-utils.ts:28-50 | The genesis block: height 0, version 0, no previous hash, nothing in it. |
| `Chains.NextBlockNamesLast` | projects/libs/core-library-typescript/src/common-library/block-utils.ts:41-50 | The next block carries the body, version 0, the hash of the last block and the height after it. |
| `Paging.PagingIsComplete` | projects/libs/core-library-typescript/src/common-library/block-utils.ts:71-87 | On a chain that stays as it is, every start and every positive limit hand over each later block exactly once, in order, and end; the full step past a short last page skips nothing. |
| `Paging.VisitedAreOnChain` | projects/libs/core-library-typescript/src/common-library/block-utils.ts:71-87 | While the chain grows between pages, only blocks of the chain are handed over. |
| `Paging.MapOverBlocks` | projects/libs/core-library-typescript/src/common-library/block-utils.ts:71-87 | The paging loop ends and feeds the function exactly the blocks visited, up to the first one refused. |
| `Paging.MapPages` | projects/libs/core-library-typescript/src/common-library/block-utils.ts:76-86 | The loop for a given positive limit feeds page after page to the function. |
| `Paging.MapPage` | projects/libs/core-library-typescript/src/common-library/block-utils.ts:81-83 | One page, block by block, until the function throws. |
| `BlockStorages.ChainOnlyGrows` | projects/libs/core-library-typescript/src/block-storage/block-storage.ts:48-156 | Over every run of loads and additions, rejected and half-reported blocks included, heights are 0 to last without a gap, each block names the hash of the one before, and no block of the chain in memory changes. |
| `BlockStorages.StoredOnlyGrowsIff` | projects/libs/core-library-typescript/src/block-storage/block-storage.ts:82-97 | Over every run, no block once in the database is lost or changed if and only if no block is added over a different one whose report to the pool failed. |
| `BlockStorages.StoredIsKeptIff` | projects/libs/core-library-typescript/src/block-storage/block-storage.ts:88-93 | The same for one step, from every state a run can reach. |
| `BlockStorages.UnreportedBlockIsReplaced` | projects/libs/core-library-typescript/src/block-storage/block-storage.ts:88-93 | The input on which a stored block is lost: a block whose report fails, followed by a different block. |
| `BlockStorages.AddedKeepsSane` | projects/libs/core-library-typescript/src/block-storage/block-storage.ts:82-97 | Adding extends the chain by the block exactly when nothing objects and the pool answers. |
| `BlockStorages.StoredAreChecked` | projects/libs/core-library-typescript/src/block-storage/block-storage.ts:82-156 | Over every run, every stored block has version 0 and, after the genesis block, a signature the storage accepts. |
| `BlockStorages.ObjectionIsFirst` | projects/libs/core-library-typescript/src/block-storage/block-storage.ts:130-156 | Each objection is raised exactly when its check fails and the ones before it pass; none exactly when all pass. |
| `BlockStorages.LoadShowsStored` | projects/libs/core-library-typescript/src/block-storage/block-storage.ts:48-72 | Loading makes every stored block visible, and writes only when nothing is stored. |
| `BlockStorages.BlockStorage.Load` | projects/libs/core-library-typescript/src/block-storage/block-storage.ts:48-72 | Writes the genesis block into an empty database, and makes the last block stored the last block known. |
| `BlockStorages.BlockStorage.VerifyNewBlock` | projects/libs/core-library-typescript/src/block-storage/block-storage.ts:130-156 | Reports the first objection: signature, version, nothing loaded, height, previous hash. |
| `BlockStorages.BlockStorage.AddBlock` | projects/libs/core-library-typescript/src/block-storage/block-storage.ts:82-97 | Leaves a rejected block out, and otherwise appends it; the last block moves only once the pool has answered. |
| `BlockStorages.BlockStorage.GetBlocks` | projects/libs/core-library-typescript/src/block-storage/block-storage.ts:105-120 | The blocks after a height, as many as the limit allows; an error before anything is loaded. |
| `BlockStorageSyncs.BlockStorageSync.AppendBlocks` | projects/libs/core-library-typescript/src/block-storage/block-storage-sync.ts:39-55 | Empties the queue, offers the storage the latest block of each height in ascending order, and grows its chain by exactly the longest linking run of the blocks received. |
| `BlockStorageSyncs.OfferedRun` | projects/libs/core-library-typescript/src/block-storage/block-storage-sync.ts:48-54 | Offering these blocks one by one, refused ones skipped, adds that run. |
| `BlockStorageSyncs.RunIsMaximal` | projects/libs/core-library-typescript/src/block-storage/block-storage-sync.ts:39-55 | Nothing received can follow that run. |
| `BlockStorageSyncs.RunIsTaken` | projects/libs/core-library-typescript/src/block-storage/block-storage-sync.ts:39-55 | Every block of the run is the last one received for its height and is accepted on the chain before it. |
| `BlockStorageSyncs.RunLinks` | projects/libs/core-library-typescript/src/block-storage/block-storage-sync.ts:48-54 | The chain extended by the run is linked. |
| `BlockStorageSyncs.AnyOrderSameRun` | projects/libs/core-library-typescript/src/block-storage/block-storage-sync.ts:39-55 | A valid segment received in any order, with repetitions and among stale blocks and blocks too far ahead, extends the chain by exactly the segment. |
| `BlockStorageSyncs.OfferedIsLatest` | projects/libs/core-library-typescript/src/block-storage/block-storage-sync.ts:40-44 | The blocks offered are in ascending height and are, for every height, the one received last. |
| `BlockStorageSyncs.CopyArray` | projects/libs/core-library-typescript/src/block-storage/block-storage-sync.ts:16-20 | Moves the queue over in reverse and leaves it empty. |
| `StateStorages.StateStorage.PollBlockStorage` | projects/libs/core-library-typescript/src/state-storage/state-storage.ts:77-98 | However the chain grows between pages, and also when a poll is cut short, the store is the fold of the diffs of blocks 1 to the height reached, which never falls. A poll throws if and only if the blocks handed over are not of the heights after its start, one by one; on a chain that stays as it is it reaches the end without an error. |
| `StateStorages.StateStorage.SyncPages` | projects/libs/core-library-typescript/src/state-storage/state-storage.ts:83-85 | The paging loop of a poll keeps the store in sync after every page, and takes what the paged replay hands over. |
| `StateStorages.StateStorage.SyncPage` | projects/libs/core-library-typescript/src/state-storage/state-storage.ts:83-85 | One page keeps the store in sync after every block. |
| `StateStorages.StateStorage.SyncNextBlock` | projects/libs/core-library-typescript/src/state-storage/state-storage.ts:100-111 | Takes the block exactly if it is of the next height, key by key; throws on any other and leaves the store alone. |
| `StateStorages.StateStorage.WaitForBlockState` | projects/libs/core-library-typescript/src/state-storage/state-storage.ts:65-75 | Returns exactly when one of the looks made before the timeout finds the height reached. |
| `StateStorages.PollsStayInSync` | projects/libs/core-library-typescript/src/state-storage/state-storage.ts:77-111 | Over every run of polls of a growing chain the store is the state of the height reached; each poll resumes from it. |
| `StateStorages.FoldTakesSequences` | projects/libs/core-library-typescript/src/state-storage/state-storage.ts:100-111 | Feeding blocks goes through if and only if they are of the heights after the last one, one by one. |
| `StateStorages.GrowthPastShortPageThrows` | projects/libs/core-library-typescript/src/state-storage/state-storage.ts:83-110 | A chain that grows past the full step of a page that was short makes the poll throw: blocks were skipped. |
| `StateStorages.FoldKeepsSync` | projects/libs/core-library-typescript/src/state-storage/state-storage.ts:81-85 | Fed blocks of the chain in any order, the store stays the state of the height reached. |
| `StateStorages.StoreDiffMirrors` | projects/libs/core-library-typescript/src/state-storage/state-storage.ts:104-106 | Storing a diff under store keys is applying it to the state. |
| `StateStorages.InMemoryKVStore.GetMany` | projects/libs/core-library-typescript/src/state-storage/kvstore.ts:19-29 | The keys asked for that are stored, with their values, and no others. |
| `Replication.ReplayIsExecution` | projects/libs/core-library-typescript/src/state-storage/state-storage.ts:100-107 | The diffs of a chain built by execution replay, at every height, the sequential execution of all its transactions from the empty state. |
| `Replication.SyncedStoreIsExecution` | projects/libs/core-library-typescript/src/state-storage/state-storage.ts:59-111 | A store synced to a height answers every key with what sequential execution left there. |
| `MadeChains.MadeReplaysIff` | projects/libs/core-library-typescript/src/consensus/block-builder.ts:67-82 | On every chain whose bodies the virtual machine made, the diffs up to a height lead where executing the calls up to it does if and only if these wrote no key with a colon. |
| `MadeChains.SyncedStoreIff` | projects/libs/core-library-typescript/src/state-storage/state-storage.ts:59-111 | A store synced to a height of such a chain answers every read with what executing the calls left there under exactly that condition. |
| `MadeChains.MadeIsBuilt` | projects/libs/core-library-typescript/src/consensus/block-builder.ts:67-82 | If no call wrote a colon, every block of such a chain tells what executing it on the state before did. |
| `Replication.NodesAgree` | projects/libs/core-library-typescript/src/state-storage/state-storage.ts:59-111 | Two nodes whose blocks at a height have equal hashes hold the same values once synced to it, or the hash collides. |
| `Replication.TokenOnChain` | projects/libs/core-library-typescript/src/virtual-machine/hard-coded-contracts/registry/kinatn-smart-contract.ts:18-94 | On a built chain on which the token served only transfers, financing and reads, it is sound in every synced store; while it served only transfers to others and reads, its balances sum to 0. |
| `NodeRuns.RunKeepsSync` | projects/libs/core-library-typescript/src/consensus/block-builder.ts:67-102 | Every interleaving of building blocks and polling them back, blocks built on a lagging store by calls that read nothing from it included, keeps the chain linked and the store the fold of its diffs, whatever was written. |
| `NodeRuns.RunReplicates` | projects/libs/core-library-typescript/src/consensus/block-builder.ts:67-102 | The diffs of the chain lead to the state of executing all committed calls in turn if and only if none of them wrote a colon; none of them then fails unexpectedly. |
| `NodeRuns.StoreIsExecutionIff` | projects/libs/core-library-typescript/src/consensus/block-builder.ts:67-132 | Once its store has caught up, a node answers every read with what all committed calls, run one after another from the empty state, left there, if and only if none of these calls wrote a key with a colon. |
| `NodeRuns.StoreIsPlain` | projects/libs/core-library-typescript/src/virtual-machine/state-cache.ts:48-57 | Whatever was committed, the store never holds a key with a colon. |
| `NodeRuns.OnePollCatchesUp` | projects/libs/core-library-typescript/src/state-storage/state-storage.ts:77-111 | After any run of builds and polls, one poll of the chain as it is brings the store up to the last block. |
| `BlockBuilders.BlockBuilder.BuildBlockFromPendingTransactions` | projects/libs/core-library-typescript/src/consensus/block-builder.ts:67-89 | Builds nothing exactly when nothing is pending and fails exactly when the virtual machine does; otherwise builds the next block on the last one, with what the virtual machine made of the first entries, all of them or as many as the size limit. |
| `BlockBuilders.CappedAreFirst` | projects/libs/core-library-typescript/src/consensus/block-builder.ts:67-70 | The entries taken are the first ones, as many as there are or the size limit, whichever is less. |
| `BlockBuilders.SignedVerifies` | projects/libs/core-library-typescript/src/common-library/block-utils.ts:52-69 | Whatever verifies the signatures its signer makes verifies a signed block against its hash and signatory. |
| `BlockBuilders.BodyIsExecuted` | projects/libs/core-library-typescript/src/consensus/block-builder.ts:67-82 | Unless a colon was written, such a body tells what executing its transactions on the state did. |
| `BlockBuilders.BlockBuilder.AppendNextBlock` | projects/libs/core-library-typescript/src/consensus/block-builder.ts:114-132 | Polling stops exactly when a block was built; the last block is fetched once and then cached. |
| `BlockBuilders.BuiltChainGrows` | projects/libs/core-library-typescript/src/consensus/block-builder.ts:67-89 | A built chain extended by a block executed on its last state is a built chain. |
| `StubConsensuses.PrefixSafety` | projects/libs/core-library-typescript/src/consensus/stub-consensus.ts:117-174 | With one leader whose pool acknowledges every block the nodes would take, every node's chain is a prefix of the leader's in every reachable state, whatever the network drops, repeats or reorders and whichever storages are reloaded. |
| `StubConsensuses.MayDivergeIff` | projects/libs/core-library-typescript/src/consensus/stub-consensus.ts:117-130 | In every state reached so, building a block makes it possible that some chain later is no prefix of the leader's, with the leader keeping up from then on, if and only if the leader's pool does not acknowledge the block, the block passes verification of signatures, and there is another node. |
| `StubConsensuses.FollowerOvertakes` | projects/libs/core-library-typescript/src/consensus/stub-consensus.ts:117-130 | After a failed commit of the leader, any follower that syncs and then receives the block holds the leader's chain and one block more. |
| `StubConsensuses.OvertakenAtStart` | projects/libs/core-library-typescript/src/consensus/stub-consensus.ts:117-130 | Two nodes that have just started are such a case. |
| `StubConsensuses.RestartHeals` | projects/libs/core-library-typescript/src/block-storage/block-storage.ts:48-72 | Reloading the leader's storage after its failed commit leads to the state in which its pool had answered, which is safe. |
| `StubConsensuses.OpenGateMeansFollowers` | projects/libs/core-library-typescript/src/consensus/stub-consensus.ts:83-105 | When the gate opens in a safe state, at least `clusterSize - 1 - 2 * acceptableUnsyncedNodes` other nodes hold exactly the leader's chain. |
| `StubConsensuses.GateCounts` | projects/libs/core-library-typescript/src/consensus/stub-consensus.ts:85-100 | The gate implies that many reports of the leader's height. |
| `StubConsensuses.GateToleratesIff` | projects/libs/core-library-typescript/src/consensus/stub-consensus.ts:83-100 | With enough reports the gate is open if and only if the nodes out of step are at most the acceptable number. |
| `StubConsensuses.GateNeedsReports` | projects/libs/core-library-typescript/src/consensus/stub-consensus.ts:83-90 | With fewer reports it is shut. |
| `StubConsensuses.GateBoundIsAttained` | projects/libs/core-library-typescript/src/consensus/stub-consensus.ts:83-105 | In every cluster with enough nodes there is a safe state with the gate open and exactly `clusterSize - 1 - 2 * acceptable` followers: some lag, some are silent. |
| `StubConsensuses.HeartbeatRepairs` | projects/libs/core-library-typescript/src/consensus/stub-consensus.ts:102-115 | With the gate shut, a heartbeat and one delivery bring a node that lacks only the last block to the leader's chain. |
| `StubConsensuses.RestartedLeaderWaits` | projects/libs/core-library-typescript/src/consensus/stub-consensus.ts:85-90 | A leader that has just restarted waits for reports. |
| `StubConsensuses.StubConsensus.AreEnoughNodesSynced` | projects/libs/core-library-typescript/src/consensus/stub-consensus.ts:84-100 | The counting loop answers yes exactly when at least `clusterSize - acceptable - 1` nodes reported and at most the acceptable number of them reported another height. |
| `StubConsensuses.StubConsensus.OnLeaderHeartbeatTick` | projects/libs/core-library-typescript/src/consensus/stub-consensus.ts:70-115 | Starts the builder when the gate is open, broadcasts the last block again when it is not, does nothing before the storage is loaded. |
| `StubConsensuses.DeliverKeepsSafe` | projects/libs/core-library-typescript/src/consensus/stub-consensus.ts:160-169 | A CommitBlock message, however old or often delivered, keeps every chain and every database inside the leader's chain. |
| `StubConsensuses.SyncKeepsSafe` | projects/libs/core-library-typescript/src/block-storage/block-storage-sync.ts:39-55 | So does appending any blocks that peers hold. |
| `ClusterReplication.EveryNodeReplicates` | projects/libs/core-library-typescript/src/consensus/stub-consensus.ts:117-174 | If every block built tells what executing its transactions on the leader's last state did, then in every reachable state every node's store, synced to any height of its chain, answers every read with what executing the leader's transactions up to that height left there. |
| `ClusterReplication.EveryNodeReplicatesIff` | projects/libs/core-library-typescript/src/consensus/stub-consensus.ts:117-174 | With bodies that the virtual machine made on the leader's last state, every node's store, synced to any height of its chain, answers every read with what executing the leader's transactions up to that height left there, if and only if none of these wrote a key with a colon. |
| `ClusterProgress.CanRecoverIff` | projects/libs/core-library-typescript/src/consensus/stub-consensus.ts:70-174 | From every safe state, heartbeats, synchronisation and deliveries alone can bring every node to the leader's chain and open the gate, if and only if the cluster has at least `clusterSize - acceptableUnsyncedNodes` nodes. |
| `TransactionPools.CommittedMayReturnIff` | projects/services/consensus-service-typescript/src/transaction-pool-service.ts:61-85 | A transaction that passes validation and is marked as committed can become pending again in some later run if and only if its timestamp plus the pending lifespan is later than its commit plus the committed lifespan. |
| `TransactionPools.ResubmissionIsRefused` | projects/services/consensus-service-typescript/src/transaction-pool-service.ts:61-85 | Stamped no later than its commit, with pending lifespan at most the committed one, a committed transaction submitted again is refused as committed or as expired. |
| `TransactionPools.PoolsStayDisjoint` | projects/services/consensus-service-typescript/src/transaction-pool-service.ts:61-85 | No transaction is ever in both pools. |
| `TransactionPools.ReceiptLasts` | projects/libs/core-library-typescript/src/transaction-pool/committed-transaction-pool.ts:43-60 | From marking on, over every run in which the entry does not expire and no receipt of that ID is marked again, the pool holds the very receipt that was last given for the ID, with the time of the marking. |
| `TransactionPools.ReceiptsKept` | projects/libs/core-library-typescript/src/transaction-pool/committed-transaction-pool.ts:54-60 | Entering receipts stores, for every ID, the last of them with that ID, unchanged. |
| `CommittedOnce.NoneCommittedTwice` | projects/libs/core-library-typescript/src/consensus/block-builder.ts:67-89 | With blocks built out of the pending pool and reported back to it, no transaction ID is in two blocks, provided that its pending lifetime does not outlast its committed entry. |
| `CommittedOnce.CommittedTwiceIff` | projects/libs/core-library-typescript/src/consensus/block-builder.ts:67-89 | A valid transaction in a block can be committed in a second block, built out of the pool, if and only if its pending lifetime outlasts its committed entry (the virtual machine taking it on its own). |
| `CommittedOnce.BuilderReports` | projects/libs/core-library-typescript/src/consensus/block-builder.ts:67-82 | What is built out of the first pending transactions is such a block. |
| `CommittedOnce.BlockIsPending` | projects/libs/core-library-typescript/src/consensus/block-builder.ts:67-82 | A block's receipts name different transactions, all of them pending when it was built. |
| `TransactionPools.TransactionPoolService.ValidateTransactionUnique` | projects/services/consensus-service-typescript/src/transaction-pool-service.ts:61-70 | Refuses a transaction that is in a pool, the pending one first. |
| `TransactionPools.TransactionPoolService.MarkCommittedTransactions` | projects/services/consensus-service-typescript/src/transaction-pool-service.ts:73-77 | Enters, for each ID, the last receipt given, unchanged, with the time of the call, and takes their transactions out of the pending pool. |
| `TransactionPools.TransactionPoolService.AddNewPendingTransaction` | projects/services/consensus-service-typescript/src/transaction-pool-service.ts:80-85 | Stores exactly the transactions that are new, not expired and valid, and says why another one is refused. |
| `TransactionPools.TransactionPoolService.GetTransactionStatus` | projects/services/consensus-service-typescript/src/transaction-pool-service.ts:94-100 | Pending before committed before not found, with the receipt of a committed one. |
| `TransactionPools.PendingTransactionPool.StorePendingTransaction` | projects/libs/core-library-typescript/src/transaction-pool/pending-transaction-pool.ts:87-104 | Refuses expired and then invalid transactions, and stores the others under their ID. |
| `TransactionPools.PendingTransactionPool.ClearExpiredTransactions` | projects/libs/core-library-typescript/src/transaction-pool/pending-transaction-pool.ts:65-74 | Drops exactly the transactions past their lifespan and counts them. |
| `TransactionPools.PendingTransactionPool.ClearCommittedTransactions` | projects/libs/core-library-typescript/src/transaction-pool/pending-transaction-pool.ts:80-85 | Drops exactly the transactions of the receipts. |
| `TransactionPools.CommittedTransactionPool.AddCommittedTransactions` | projects/libs/core-library-typescript/src/transaction-pool/committed-transaction-pool.ts:54-60 | Enters every receipt, unchanged, with the current time, over an older entry if there is one; all others stay. |
| `TransactionPools.CommittedTransactionPool.ClearExpiredTransactions` | projects/libs/core-library-typescript/src/transaction-pool/committed-transaction-pool.ts:43-52 | Drops exactly the entries past their lifespan and counts them. |

## Left out

- RawAddress.ToBufferThenFromBuffer: leaves out the network ID that is the Unicode replacement character, for which the outcome depends on the checksum function.
- Paging.MapOverBlocks: ends because the chain has some bound during one poll; a chain that grows faster than it is read is not modelled.
- StateStorages.StateStorage.WaitForBlockState: the heights seen at the looks are a parameter; polls that run while it waits are not interleaved.
- VirtualMachines.VirtualMachine.ProcessTransactionSet: the storage answers every read from one state; a read that times out is a crash of the call and not modelled apart.
- CachedRuns.ReceiptsAgree: says nothing about the receipts of a set in which a colon was written; that set is then described only by the calls run on caches.
- CryptoAddress.Address.Init: a method called after the constructor, because the original's constructor throws; the two constructors that take hex texts or an ED25519 key are not part of this model.
- BlockBuilders.BlockBuilder.AppendNextBlock: the order of pending transactions is an input; the pool's map order is not modelled.
- KinAtnContract.KinAtnSmartContract.Transfer: amounts are whole numbers; fractions, on which JavaScript's sums are rounded, are not modelled.
- KinAtn.TransferComesTo: the same holds for the program.
- KinAtn.TokenRun: calls of the token's own helper methods from outside are not among the requests; one such call is covered by the lemmas named under the failed properties.
- Replication.TokenOnChain: the same holds on a chain.
- ClusterReplication.EveryNodeReplicates: each node's state storage is any store in sync with its chain; its polls are modelled in `StateStorages` and `NodeRuns`.
- Return values of contract calls and read-only calls: they change no state.
- The subscription manager, the other sample contracts and their messages: each is one more program over the same loads and stores.
- BenchmarkConsensus: its safety rests on an external Raft library that is not part of this model.
- Crash points inside adding a block, other than a failed report to the pool: the code asks for serial calls.
- Interleavings inside one chain of awaits, such as two builders at once or a commit between the uniqueness check and the store.
- The subscription check and signature check inside the transaction validator: one predicate.
- gRPC, HTTP, gossip, LevelDB, files, logging, timers, startup checks and language bindings: input and output.
- The sync messages of the block storage service: what peers send is the queue that is appended, any blocks some peer holds.
