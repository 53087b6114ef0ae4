/**
 * The ERC-20 balance-slot resolver: for a token and a holder, the storage
 * cell that holds the holder's `balanceOf` value.
 *
 * The specification functions (`Candidates`, `MappingIndex`, `Leader`, `ResolveWith`,
 * `CallsMade`) say what the resolver computes and which calls it makes; the
 * methods `GetMappingSlot` and `GetErc20BalanceSlot` are the step-by-step
 * procedures, proved against them.
 */
module Erc20 {
  import opened Wrappers
  import opened Bytes
  import opened Executor

  /** Token address to the declaration index of its balance mapping. */
  type MappingIndexCache = map<Address, U256>

  /** A storage cell: the contract and the key within its storage. */
  type Slot = (Address, U256)

  datatype Erc20BalanceSlot = Erc20BalanceSlot(address: Address, slot: B256, mappingSlot: Option<U256>)

  /** No trial singled out a cell; the candidates are reported for diagnosis. */
  datatype Error = Unresolved(user: Address, token: Address, touchedSlots: seq<Slot>)

  /** keccak256, left uninterpreted. */
  type Hasher = seq<Byte> -> B256

  /** 2^128: storage keys below it are not taken for mapping entries. */
  const MIN_SLOT: U256 := 0x1_0000_0000_0000_0000_0000_0000_0000_0000

  /** 2^96 - 1, written into a candidate cell during its trial. */
  const FAKE_BALANCE: U256 := 0xFFFF_FFFF_FFFF_FFFF_FFFF_FFFF

  /** Storage key of `m[user]` for `mapping(address => uint256) m` declared at
      `index`: the hash of the padded holder followed by the big-endian index. */
  function MappingKey(hash: Hasher, userWord: B256, index: U256): B256
  {
    hash(userWord + ToBE(index))
  }

  /** The cache hit, if the cache is present and knows the token. */
  function CacheLookup(cache: Option<MappingIndexCache>, token: Address): Option<U256>
  {
    if cache.Some? && token in cache.value then Some(cache.value[token]) else None
  }

  // ---------------------------------------------------------------------------
  // Candidate filter

  /** Was cell `s` touched by the execution that reported `touched`? */
  ghost predicate TouchedCell(touched: seq<TouchedAccount>, s: Slot)
  {
    exists j :: 0 <= j < |touched| && touched[j].address == s.0 && s.1 in touched[j].storage
  }

  /** The cells of one contract whose key is at least 2^128, in order. */
  function AccountCandidates(address: Address, keys: seq<U256>): (r: seq<Slot>)
    ensures forall s: Slot :: s in r <==> s.0 == address && s.1 in keys && s.1 >= MIN_SLOT
  {
    if keys == [] then []
    else
      (if keys[0] >= MIN_SLOT then [(address, keys[0])] else [])
      + AccountCandidates(address, keys[1..])
  }

  /** Every touched cell whose key is at least 2^128, contract by contract
      (see `Erc20Properties.CandidatesAreTouchedHighCells`). */
  function Candidates(touched: seq<TouchedAccount>): (r: seq<Slot>)
  {
    if touched == [] then []
    else AccountCandidates(touched[0].address, touched[0].storage) + Candidates(touched[1..])
  }

  // ---------------------------------------------------------------------------
  // Mapping-index recovery

  /** The first index from `i` below 20 whose mapping key is `storageSlot`. */
  function MappingIndexFrom(hash: Hasher, userWord: B256, storageSlot: B256, i: nat): (r: Option<U256>)
    requires i <= 20
    ensures r.Some? ==> i <= r.value < 20 && MappingKey(hash, userWord, r.value) == storageSlot
    ensures r.Some? ==> forall j: U256 :: i <= j < r.value ==> MappingKey(hash, userWord, j) != storageSlot
    ensures r.None? <==> forall j: U256 :: i <= j < 20 ==> MappingKey(hash, userWord, j) != storageSlot
    decreases 20 - i
  {
    if i == 20 then None
    else if MappingKey(hash, userWord, i) == storageSlot then Some(i)
    else MappingIndexFrom(hash, userWord, storageSlot, i + 1)
  }

  /** The smallest declaration index below 20 whose mapping key for the
      holder is `storageSlot`, if any. */
  function MappingIndex(hash: Hasher, userWord: B256, storageSlot: B256): (r: Option<U256>)
    ensures r.Some? ==> r.value < 20 && MappingKey(hash, userWord, r.value) == storageSlot
    ensures r.Some? ==> forall j: U256 :: j < r.value ==> MappingKey(hash, userWord, j) != storageSlot
    ensures r.None? <==> forall j: U256 :: j < 20 ==> MappingKey(hash, userWord, j) != storageSlot
  {
    MappingIndexFrom(hash, userWord, storageSlot, 0)
  }

  /** `get_mapping_slot`: tries indices 0 to 19 and stops at the first match. */
  method GetMappingSlot(hash: Hasher, userWord: B256, storageSlot: B256) returns (r: Option<U256>)
    ensures r == MappingIndex(hash, userWord, storageSlot)
  {
    var i: nat := 0;
    while i < 20
      invariant i <= 20
      invariant MappingIndexFrom(hash, userWord, storageSlot, i) == MappingIndex(hash, userWord, storageSlot)
    {
      if MappingKey(hash, userWord, i) == storageSlot {
        return Some(i);
      }
      i := i + 1;
    }
    return None;
  }

  // ---------------------------------------------------------------------------
  // Disambiguation trials

  /** The call of one candidate's trial: the candidate's cell set to the fake balance. */
  function TrialCall(token: Address, user: Address, c: Slot): Call
  {
    Call(token, user, Some(Override(c.0, c.1, FAKE_BALANCE)))
  }

  /** The call of the initial scan: no override. */
  function ScanCall(token: Address, user: Address): Call
  {
    Call(token, user, None)
  }

  function TrialCalls(token: Address, user: Address, cands: seq<Slot>): (r: seq<Call>)
    ensures |r| == |cands|
  {
    seq(|cands|, i requires 0 <= i < |cands| => TrialCall(token, user, cands[i]))
  }

  /** The balance each candidate's trial reports, in candidate order. */
  function TrialBalances(run: Call -> Execution, token: Address, user: Address, cands: seq<Slot>): (r: seq<U256>)
    ensures |r| == |cands|
  {
    seq<U256>(|cands|, i requires 0 <= i < |cands| => Balance(run(TrialCall(token, user, cands[i]))))
  }

  /** The balance to beat once `lead` leads: zero before any trial has won. */
  function LeadBalance(bs: seq<U256>, lead: Option<nat>): U256
    requires lead.Some? ==> lead.value < |bs|
  {
    match lead
    case Some(w) => bs[w]
    case None => 0
  }

  /** Trial w leads the first n trials: it reported a positive balance,
      strictly more than every earlier trial and at least every later one. */
  ghost predicate LeadsPrefix(bs: seq<U256>, n: nat, w: nat)
  {
    w < n <= |bs| && bs[w] > 0
    && (forall i :: 0 <= i < w ==> bs[i] < bs[w])
    && (forall i :: w < i < n ==> bs[i] <= bs[w])
  }

  /** Trial w wins: it leads all trials. */
  ghost predicate IsWinner(bs: seq<U256>, w: nat)
  {
    LeadsPrefix(bs, |bs|, w)
  }

  /** The trial leading after the first n: a trial takes the lead only by
      reporting strictly more than the current leader (or than zero). */
  function Leader(bs: seq<U256>, n: nat): (r: Option<nat>)
    requires n <= |bs|
    ensures r.Some? ==> r.value < n
  {
    if n == 0 then None
    else
      var prev := Leader(bs, n - 1);
      if bs[n - 1] > LeadBalance(bs, prev) then Some(n - 1) else prev
  }

  /** The candidate whose trial wins, if any trial reports more than zero. */
  function Winner(run: Call -> Execution, token: Address, user: Address, cands: seq<Slot>): Option<Slot>
  {
    match Leader(TrialBalances(run, token, user, cands), |cands|)
    case Some(w) => Some(cands[w])
    case None => None
  }

  /** The disambiguation loop of `get_erc20_balance_slot`: one trial per
      candidate, in order, each on the latest state with only that candidate's
      cell overridden; a trial takes the lead only with a strictly larger balance. */
  method Disambiguate(evm: Evm, token: Address, user: Address, touchedSlots: seq<Slot>)
    returns (bestSlot: Option<Slot>)
    modifies evm
    ensures bestSlot == Winner(evm.run, token, user, touchedSlots)
    ensures evm.calls == old(evm.calls) + TrialCalls(token, user, touchedSlots)
  {
    ghost var bs := TrialBalances(evm.run, token, user, touchedSlots);
    var bestBalance: U256 := 0;
    bestSlot := None;
    for i := 0 to |touchedSlots|
      invariant evm.calls == old(evm.calls) + TrialCalls(token, user, touchedSlots[..i])
      invariant Leader(bs, i).None? ==> bestSlot == None && bestBalance == 0
      invariant Leader(bs, i).Some? ==>
        bestSlot == Some(touchedSlots[Leader(bs, i).value]) && bestBalance == bs[Leader(bs, i).value]
    {
      var (contract, key) := touchedSlots[i];
      var balance, _ := evm.GetErc20Balance(token, user, Some(Override(contract, key, FAKE_BALANCE)));
      if balance > bestBalance {
        bestSlot, bestBalance := Some((contract, key)), balance;
      }
      assert TrialCalls(token, user, touchedSlots[..i + 1])
          == TrialCalls(token, user, touchedSlots[..i]) + [TrialCall(token, user, touchedSlots[i])];
    }
    assert touchedSlots[..|touchedSlots|] == touchedSlots;
  }

  // ---------------------------------------------------------------------------
  // The resolver

  datatype ByteOrder = Big | Little

  function Word(order: ByteOrder, x: U256): B256
  {
    match order
    case Big => ToBE(x)
    case Little => ToLE(x)
  }

  /** The byte order each path uses to turn a storage key into a 32-byte
      slot: for the index search and for the slot returned on the
      single-candidate path, and for both on the multi-candidate path. */
  datatype SlotEncoding = SlotEncoding(singleSearch: ByteOrder, singleSlot: ByteOrder, multi: ByteOrder)

  /** The byte orders `get_erc20_balance_slot` uses. */
  const AS_WRITTEN: SlotEncoding := SlotEncoding(Big, Little, Little)

  /** Big-endian throughout, the order in which a hash digest names a slot. */
  const CANONICAL: SlotEncoding := SlotEncoding(Big, Big, Big)

  /** The fast path: the slot computed from a cached mapping index. */
  function FromMappingIndex(hash: Hasher, token: Address, user: Address, index: U256): Erc20BalanceSlot
  {
    Erc20BalanceSlot(token, MappingKey(hash, Pad32(user), index), Some(index))
  }

  /** The resolution from the candidates of the initial scan. */
  function FromCandidates(enc: SlotEncoding, run: Call -> Execution, hash: Hasher, token: Address,
                          user: Address, cands: seq<Slot>): Result<Erc20BalanceSlot, Error>
  {
    var userWord := Pad32(user);
    if |cands| == 1 then
      var (contract, key) := cands[0];
      Ok(Erc20BalanceSlot(contract, Word(enc.singleSlot, key),
                          MappingIndex(hash, userWord, Word(enc.singleSearch, key))))
    else
      match Winner(run, token, user, cands)
      case None => Err(Unresolved(user, token, cands))
      case Some((contract, key)) =>
        var slot := Word(enc.multi, key);
        Ok(Erc20BalanceSlot(contract, slot, MappingIndex(hash, userWord, slot)))
  }

  /** The candidates the initial scan yields. */
  function ScanCandidates(run: Call -> Execution, token: Address, user: Address): seq<Slot>
  {
    Candidates(run(ScanCall(token, user)).touched)
  }

  /** What the resolver returns, given the latest state's executor `run`. */
  function ResolveWith(enc: SlotEncoding, run: Call -> Execution, hash: Hasher, token: Address,
                       user: Address, cache: Option<MappingIndexCache>): Result<Erc20BalanceSlot, Error>
  {
    match CacheLookup(cache, token)
    case Some(index) => Ok(FromMappingIndex(hash, token, user, index))
    case None => FromCandidates(enc, run, hash, token, user, ScanCandidates(run, token, user))
  }

  /** What `get_erc20_balance_slot` returns. */
  function Resolve(run: Call -> Execution, hash: Hasher, token: Address, user: Address,
                   cache: Option<MappingIndexCache>): Result<Erc20BalanceSlot, Error>
  {
    ResolveWith(AS_WRITTEN, run, hash, token, user, cache)
  }

  /** The executor calls the resolver makes, in order. */
  function CallsMade(run: Call -> Execution, token: Address, user: Address,
                     cache: Option<MappingIndexCache>): seq<Call>
  {
    if CacheLookup(cache, token).Some? then []
    else
      var cands := ScanCandidates(run, token, user);
      if |cands| == 1 then [ScanCall(token, user)]
      else [ScanCall(token, user)] + TrialCalls(token, user, cands)
  }

  /** The part of `get_erc20_balance_slot` after the initial scan: the
      single-candidate branch, or the disambiguation loop and its outcome. */
  method ResolveCandidates(evm: Evm, hash: Hasher, token: Address, user: Address, touchedSlots: seq<Slot>)
    returns (r: Result<Erc20BalanceSlot, Error>)
    modifies evm
    ensures r == FromCandidates(AS_WRITTEN, evm.run, hash, token, user, touchedSlots)
    ensures evm.calls == old(evm.calls) + (if |touchedSlots| == 1 then [] else TrialCalls(token, user, touchedSlots))
  {
    var userWord := Pad32(user);
    if |touchedSlots| == 1 {
      var mappingSlot := GetMappingSlot(hash, userWord, ToBE(touchedSlots[0].1));
      return Ok(Erc20BalanceSlot(touchedSlots[0].0, ToLE(touchedSlots[0].1), mappingSlot));
    }

    var bestSlot := Disambiguate(evm, token, user, touchedSlots);
    match bestSlot
    case Some((address, key)) =>
      var storageSlot := ToLE(key);
      var mappingSlot := GetMappingSlot(hash, userWord, storageSlot);
      r := Ok(Erc20BalanceSlot(address, storageSlot, mappingSlot));
    case None =>
      r := Err(Unresolved(user, token, touchedSlots));
  }

  /** When the cache misses, the resolver's result is the resolution from
      the scan's candidates. */
  lemma ResolveOnMiss(run: Call -> Execution, hash: Hasher, token: Address, user: Address,
                      cache: Option<MappingIndexCache>)
    requires !(cache.Some? && token in cache.value)
    ensures Resolve(run, hash, token, user, cache)
         == FromCandidates(AS_WRITTEN, run, hash, token, user, ScanCandidates(run, token, user))
  {
    assert CacheLookup(cache, token) == None;
  }

  /** When the cache misses, the scan and then the trials are the resolver's
      calls. */
  lemma CallsOnMiss(run: Call -> Execution, token: Address, user: Address,
                    cache: Option<MappingIndexCache>, before: seq<Call>, trials: seq<Call>)
    requires !(cache.Some? && token in cache.value)
    requires var cands := ScanCandidates(run, token, user);
      trials == if |cands| == 1 then [] else TrialCalls(token, user, cands)
    ensures before + [ScanCall(token, user)] + trials == before + CallsMade(run, token, user, cache)
  {
    assert CacheLookup(cache, token) == None;
    assert CallsMade(run, token, user, cache) == [ScanCall(token, user)] + trials;
    AppendAssociative(before, [ScanCall(token, user)], trials);
  }

  lemma AppendAssociative<T>(a: seq<T>, b: seq<T>, c: seq<T>)
    ensures a + b + c == a + (b + c)
  {
  }

  /** `get_erc20_balance_slot`. */
  method GetErc20BalanceSlot(evm: Evm, hash: Hasher, token: Address, user: Address,
                             cache: Option<MappingIndexCache>)
    returns (r: Result<Erc20BalanceSlot, Error>)
    modifies evm
    ensures r == Resolve(evm.run, hash, token, user, cache)
    ensures evm.calls == old(evm.calls) + CallsMade(evm.run, token, user, cache)
  {
    if cache.Some? && token in cache.value {
      var index := cache.value[token];
      var slot := MappingKey(hash, Pad32(user), index);
      return Ok(Erc20BalanceSlot(token, slot, Some(index)));
    }

    var _, touched := evm.GetErc20Balance(token, user, None);
    var touchedSlots := Candidates(touched);
    r := ResolveCandidates(evm, hash, token, user, touchedSlots);
    ResolveOnMiss(evm.run, hash, token, user, cache);
    CallsOnMiss(evm.run, token, user, cache, old(evm.calls),
                if |touchedSlots| == 1 then [] else TrialCalls(token, user, touchedSlots));
  }
}
