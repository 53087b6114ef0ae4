# ERC-20 balance-slot resolver

A Dafny model of the resolver in `src/erc20.rs` of reth-utils. Given a token
contract and a holder address, `get_erc20_balance_slot` works out which storage
cell holds the holder's `balanceOf` value. It does so in up to four steps:

1. **Cache fast path.** If the caller's cache knows the token's mapping
   declaration index `p`, the slot is `keccak256(pad32(holder) ++ be32(p))`.
   This is the Solidity storage-layout rule for a `mapping(address => uint256)`.
   No execution happens.
2. **Scan.** Otherwise one `balanceOf(holder)` call runs on the latest state.
   Every touched cell `(contract, key)` with `key >= 2^128` becomes a candidate.
3. **Single candidate or trials.**
   - Exactly one candidate is the answer.
   - Otherwise each candidate gets its own trial: its cell is set to
     `2^96 - 1` on a fresh latest state and `balanceOf` runs again.
   - The first trial with the strictly largest positive balance wins.
   - If no trial reports more than zero, the result is an error that lists the
     candidates.
4. **Index recovery.** `get_mapping_slot` tries indices 0 to 19 and returns the
   first one whose mapping key is the resolved slot.

The model is split into modules:

- `Bytes` (`bytes.dfy`): 256-bit words (`U256`), 20-byte addresses and 32-byte
  buffers (`B256`), with bytes as an integer newtype `0..255`. It defines
  big-endian (`ToBE`, `to_be_bytes`) and little-endian (`ToLE`, `as_le_slice`)
  conversions with their inverses, and `Pad32` (`Address::into_word`).
- `Executor` (`executor.dfy`): the EVM as an oracle. Class `Evm` holds a fixed
  function `run` from a call to its outcome and touched cells. A call is a token,
  a holder and at most one storage override. The class also keeps a log of
  every call made, which plays the part of a call counter.
  - Because `run` depends only on the call, each trial starts from an
    unmodified latest state.
  - `Balance` is the decoding rule: zero for a non-success or a short output.
- `Erc20` (`erc20.dfy`): the resolver.
  - The candidate filter and the fast path are functions.
  - `get_mapping_slot` is the method `GetMappingSlot`. The disambiguation loop
    is the method `Disambiguate`.
  - `get_erc20_balance_slot` is the method `GetErc20BalanceSlot`. It hands its
    post-scan part to `ResolveCandidates`.
  - Each method is proved against a specification function: `MappingIndex`,
    `Winner` (through `Leader`), `Resolve` and `CallsMade`.
  - keccak256 is a function parameter (`Hasher`) with no properties assumed.
  - Touched state is a sequence, so candidate order is whatever the oracle
    reports.
- `Erc20Properties` (`erc20_properties.dfy`): lemmas about the resolver's
  specification.
- `ByteOrders` (`byte_orders.dfy`): the two byte-order defects below, on concrete
  inputs, and the big-endian resolution that does not have them.

The code does not use one byte order throughout, and the model keeps the
code's behaviour:

- The single-candidate path searches for the index with the key's big-endian
  bytes (`src/erc20.rs:87-88`) but returns the key's little-endian bytes as
  the slot (`src/erc20.rs:91`).
- The multi-candidate path uses little-endian bytes for both
  (`src/erc20.rs:118-119`).

`ResolveWith` takes the byte orders as a parameter (`SlotEncoding`):

- `Resolve` is `ResolveWith(AS_WRITTEN, ...)`, and it is what the method
  implements.
- `ResolveWith(CANONICAL, ...)` is the all-big-endian variant.

Two further facts about the code that the model keeps:

- The single-candidate slot is the key's `as_le_slice` (`src/erc20.rs:91`),
  not the big-endian bytes its index search uses.
- Every call, scan and trials alike, goes through `get_erc20_balance` with the
  one caller address `0x…01` (`src/erc20.rs:150`), so a call is identified by
  the token, the holder and the override alone.

Being functions, `Resolve` and `CallsMade` are deterministic by construction.

## Model

| member | source | states |
|---|---|---|
| Bytes.ToBE | src/erc20.rs:87 | the 32 big-endian bytes of a word, which read back (most significant first) as the word |
| Bytes.ToLE | src/erc20.rs:91 | the 32 little-endian bytes of a word, which read back (least significant first) as the word |
| Bytes.WordFromBE | src/erc20.rs:160 | reading 32 bytes as a big-endian word is the inverse of `ToBE` |
| Bytes.Pad32Injective | src/erc20.rs:54 | `into_word` pads distinct holders to distinct words, so their mapping-key preimages differ |
| Bytes.BigEndianRoundTrip | src/erc20.rs:87 | any value below 256^n survives encoding to n big-endian bytes and reading back |
| Bytes.LittleEndianRoundTrip | src/erc20.rs:91 | any value below 256^n survives encoding to n little-endian bytes and reading back |
| Bytes.ToLEIsReversedToBE | src/erc20.rs:87-91 | the little-endian bytes of a word are its big-endian bytes reversed |
| Bytes.ToBEInjective | src/erc20.rs:55 | distinct words have distinct big-endian bytes |
| Bytes.ToLEInjective | src/erc20.rs:118 | distinct words have distinct little-endian bytes |
| Executor.DecodeU256 | src/erc20.rs:160 | non-validating `uint256` decode: it succeeds exactly when the output has at least 32 bytes, and gives the word whose big-endian bytes are the first 32 |
| Executor.Balance | src/erc20.rs:158-164 | the balance is 0 for a revert or halt, and 0 for an output that does not decode; otherwise it is the word in the first 32 bytes |
| Executor.Evm.GetErc20Balance | src/erc20.rs:139-165 | one `balanceOf` call is logged, and it returns the decoded balance and the touched cells of that call's execution |
| Erc20.AccountCandidates | src/erc20.rs:73-80 | a cell of one contract is kept exactly when its key was touched and is at least 2^128 |
| Erc20.MappingIndexFrom | src/erc20.rs:168-173 | the first index from i below 20 whose mapping key is the slot; none exactly when no index in [i, 20) matches |
| Erc20.MappingIndex | src/erc20.rs:167-176 | `Some(i)` only for i < 20 whose key `hash(pad32(user) ++ be32(i))` is the slot, with no smaller index matching; `None` exactly when no index in 0..20 matches |
| Erc20.GetMappingSlot | src/erc20.rs:167-176 | the counted loop with early return computes `MappingIndex` |
| Erc20.Leader | src/erc20.rs:96 | the running leader is always one of the trials seen so far |
| Erc20.Disambiguate | src/erc20.rs:96-114 | the loop returns the winning candidate (`Winner`), and it makes exactly one trial call per candidate, in order, overriding only that candidate's cell with 2^96 - 1 |
| Erc20.ResolveCandidates | src/erc20.rs:84-136 | after the scan, the result is the single candidate, the winner or the error, and the only calls are the trials (none for one candidate) |
| Erc20.ResolveOnMiss | src/erc20.rs:52-68 | on a cache miss the result is decided by the scan's candidates |
| Erc20.CallsOnMiss | src/erc20.rs:65-109 | on a cache miss the calls are the scan and then the trials |
| Erc20.GetErc20BalanceSlot | src/erc20.rs:46-137 | the resolver returns `Resolve` and logs exactly the calls `CallsMade` lists |
| Erc20Properties.CandidatesAreTouchedHighCells | src/erc20.rs:70-82 | a cell is a candidate exactly when the scan touched it and its key is at least 2^128 |
| Erc20Properties.LeaderLeadsPrefix | src/erc20.rs:111-113 | after n trials the leader reported a positive balance that beats every earlier one strictly and every later one weakly; with no leader, all n trials reported 0 |
| Erc20Properties.LeadsPrefixUnique | src/erc20.rs:111-113 | at most one trial leads a prefix, because ties go to the first seen |
| Erc20Properties.LeaderIsFirstStrictMax | src/erc20.rs:96-114 | the final leader is w exactly when w is the winner; there is none exactly when every trial reported 0 |
| Erc20Properties.CacheHitSkipsExecution | src/erc20.rs:52-62 | on a hit the result is the token, `hash(pad32(user) ++ be32(index))` and `Some(index)`, and no call is made |
| Erc20Properties.SingleCandidateSkipsTrials | src/erc20.rs:86-94 | one candidate gives its contract and its key's little-endian bytes, with the index searched for by the key's big-endian bytes; only the scan call runs |
| Erc20Properties.OneTrialPerCandidate | src/erc20.rs:102-109 | for k != 1 candidates, the scan is followed by exactly k trials, the i-th overriding only candidate i with 2^96 - 1 |
| Erc20Properties.WinnerIsResolved | src/erc20.rs:111-125 | the winning trial's cell is the result: its contract, its key's little-endian bytes as the slot, and the index searched for by those bytes |
| Erc20Properties.UnresolvedIffNoTrialPositive | src/erc20.rs:116-135 | for k != 1 candidates, the resolver fails exactly when every trial reported 0; the error names the holder, the token and all candidates; success means some trial wins |
| Erc20Properties.NoCandidateFails | src/erc20.rs:96-135 | with no candidate, the resolver fails after the scan alone, with an empty candidate list |
| Erc20Properties.ResolvedCellWasTouched | src/erc20.rs:68-125 | without a cache hit, the resolved cell is one the scan touched, its key is at least 2^128, and the slot is that key's little-endian bytes |
| Erc20Properties.RecoversDeclaredIndex | src/erc20.rs:167-176 | a slot built from index i < 20 gives i back when no smaller index hashes to the same slot |
| ByteOrders.PowerOrdersDiffer | src/erc20.rs:87-91 | no power 256^k below 2^256 is a byte palindrome: its big- and little-endian 32-byte forms differ at byte 31 - k |
| ByteOrders.MinSlotOrdersDiffer | src/erc20.rs:70 | the smallest candidate key, 2^128, has different big- and little-endian forms |
| ByteOrders.ZeroWordOrdersAgree | src/erc20.rs:87-91 | the zero word has the same bytes in either order |
| ByteOrders.AsWrittenSingleSlotDisagreesWithCache | src/erc20.rs:86-93 | as written, a single-candidate slot whose key is not a byte palindrome differs from the cache path's slot for the index it recovered |
| ByteOrders.SingleCandidateRoundTripCounterexample | src/erc20.rs:86-93 | as written, one touched cell that is the holder's entry of mapping 0 resolves to its little-endian bytes and index 0, but the cache path for index 0 gives its big-endian bytes |
| ByteOrders.CanonicalRoundTrip | src/erc20.rs:52-62 | with big-endian slots, feeding a recovered index back through the cache gives the same slot and index |
| ByteOrders.TwoCellTrials | src/erc20.rs:96-114 | two touched cells where only the first reacts to the fake balance: both are candidates and the first wins |
| ByteOrders.LittleEndianSearchMisses | src/erc20.rs:118-119 | searching with the little-endian bytes of a non-palindromic key planted at index 3 finds no index |
| ByteOrders.BigEndianSearchFinds | src/erc20.rs:167-176 | searching with the big-endian bytes of a key planted at index 3 finds index 3 |
| ByteOrders.MultiCandidateIndexCounterexample | src/erc20.rs:117-125 | as written, a winning cell that is the holder's entry of mapping 3 is returned with no index; the big-endian resolution returns index 3 |
| ByteOrders.CanonicalRecoversIndex | src/erc20.rs:117-119 | with big-endian slots, when the resolved key is the holder's entry of some mapping below index 20, an index at most that one is recovered |

## Left out

- The inside of `get_erc20_balance` (`src/erc20.rs:139-165`) is not modelled: building the EVM, replaying the transaction and revm's state. `Evm.run` stands for it. The caller address `0x…01` lives inside it. The panic of `evm.replay().unwrap()` is not modelled.
- The panic of `insert_account_storage(...).unwrap()` (`src/erc20.rs:105-107`) is not modelled: a trial's override always applies.
- Touched state: the oracle's touched accounts and keys are sequences, and nothing stops them from repeating an address or a key, which the code's `HashMap`s cannot. A cell listed twice counts as two candidates, so it goes down the trial path where the code would take the single-candidate path. The model's results hold for any oracle output, and they describe the code only for outputs without repeats.
- `config.get_latest_state()` and `src/config.rs` (database and provider setup) are not modelled. `Evm.run` is fixed for the whole resolution, so the latest state is assumed not to change between the scan and the trials.
- keccak256 is a parameter with no properties. No collision-freedom is assumed; `Erc20Properties.RecoversDeclaredIndex` states its no-collision assumption as a precondition.
- ABI encoding is modelled only as the concatenation of two 32-byte words. ABI decoding reads only the first 32 bytes of the output.
- `HashMap` hashing and iteration order are not modelled: touched contracts and keys come as sequences in the oracle's order. Serde `Serialize` is not modelled.
- The touched cells' values are not modelled, because the filter ignores them.
- The benchmark programs under `examples/` are not modelled (random addresses, timing, printing).
- Trials run one after another, as in the code. Running them concurrently is not modelled.

## Findings

| source | as written | input that shows it | evidently intended | confidence | as-written member | corrected member |
|---|---|---|---|---|---|---|
| src/erc20.rs:86-93 | the single-candidate path searches for the index with the key's big-endian bytes but returns its little-endian bytes as the slot, so the slot differs from `keccak256(pad32(user) ++ be32(index))`, which the cache path gives for the recovered index | one touched cell with key 2^128 that is the holder's entry of mapping 0 (`ByteOrders.MinSlotOrdersDiffer`) | return the big-endian bytes, so that resolving again with the recovered index in the cache gives the same slot | not executed | ByteOrders.SingleCandidateRoundTripCounterexample | ByteOrders.CanonicalRoundTrip |
| src/erc20.rs:117-119 | the multi-candidate path turns the winning key into little-endian bytes and searches for the index with them, so a genuine mapping entry's index is not found | two touched cells 2^128 and 2^128 + 1, where only the first reacts to the fake balance and is the holder's entry of mapping 3 | use the big-endian bytes for the slot and for the search, so that index 3 is found | not executed | ByteOrders.MultiCandidateIndexCounterexample | ByteOrders.CanonicalRecoversIndex |

The resolver method `GetErc20BalanceSlot` keeps the code's byte orders (`AS_WRITTEN`). The corrected behaviour is `ResolveWith(CANONICAL, ...)`, and the lemmas above prove its properties.
