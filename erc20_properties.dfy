/**
 * What the resolver guarantees, stated over its specification in module
 * Erc20: the fast path, the candidate count, the trials, the winner and the
 * error, and the recovery of a mapping declaration index.
 */
module Erc20Properties {
  import opened Wrappers
  import opened Bytes
  import opened Executor
  import opened Erc20

  // ---------------------------------------------------------------------------
  // The candidate filter

  /** The candidates are exactly the touched cells whose key is at least 2^128. */
  lemma {:induction false} CandidatesAreTouchedHighCells(touched: seq<TouchedAccount>)
    ensures forall s: Slot :: s in Candidates(touched) <==> TouchedCell(touched, s) && s.1 >= MIN_SLOT
  {
    if touched != [] {
      var head := AccountCandidates(touched[0].address, touched[0].storage);
      var rest := Candidates(touched[1..]);
      CandidatesAreTouchedHighCells(touched[1..]);
      assert Candidates(touched) == head + rest;
      forall s: Slot | TouchedCell(touched[1..], s) ensures TouchedCell(touched, s) {
        var j :| 0 <= j < |touched[1..]| && touched[1..][j].address == s.0 && s.1 in touched[1..][j].storage;
        assert touched[j + 1] == touched[1..][j];
      }
      forall s: Slot | TouchedCell(touched, s) && s.1 >= MIN_SLOT ensures s in head + rest {
        var j :| 0 <= j < |touched| && touched[j].address == s.0 && s.1 in touched[j].storage;
        if j > 0 {
          assert touched[1..][j - 1] == touched[j];
          assert TouchedCell(touched[1..], s);
        }
      }
    }
  }

  // ---------------------------------------------------------------------------
  // The trial leader

  lemma {:induction false} LeaderLeadsPrefix(bs: seq<U256>, n: nat)
    requires n <= |bs|
    ensures Leader(bs, n).Some? ==> LeadsPrefix(bs, n, Leader(bs, n).value)
    ensures Leader(bs, n).None? ==> forall i :: 0 <= i < n ==> bs[i] == 0
  {
    if n > 0 {
      LeaderLeadsPrefix(bs, n - 1);
    }
  }

  lemma LeadsPrefixUnique(bs: seq<U256>, n: nat, v: nat, w: nat)
    requires LeadsPrefix(bs, n, v) && LeadsPrefix(bs, n, w)
    ensures v == w
  {
  }

  /** The leader after all trials is the one winner if there is one, and
      there is none exactly when every trial reported zero. */
  lemma LeaderIsFirstStrictMax(bs: seq<U256>)
    ensures forall w: nat :: Leader(bs, |bs|) == Some(w) <==> IsWinner(bs, w)
    ensures Leader(bs, |bs|).None? <==> forall i :: 0 <= i < |bs| ==> bs[i] == 0
  {
    LeaderLeadsPrefix(bs, |bs|);
    forall w: nat | IsWinner(bs, w) ensures Leader(bs, |bs|) == Some(w) {
      if Leader(bs, |bs|).Some? {
        LeadsPrefixUnique(bs, |bs|, Leader(bs, |bs|).value, w);
      }
    }
  }

  // ---------------------------------------------------------------------------
  // The resolver

  /** A cached index is used as is: the slot is the mapping key of the holder
      at that index, owned by the token, and no call is made. */
  lemma CacheHitSkipsExecution(run: Call -> Execution, hash: Hasher, token: Address, user: Address,
                               cache: Option<MappingIndexCache>)
    requires cache.Some? && token in cache.value
    ensures Resolve(run, hash, token, user, cache)
         == Ok(Erc20BalanceSlot(token, hash(Pad32(user) + ToBE(cache.value[token])), Some(cache.value[token])))
    ensures CallsMade(run, token, user, cache) == []
  {
  }

  /** One candidate is the answer as it stands: its contract, its key in
      little-endian order, the index searched for with its key in big-endian
      order, and no trial. */
  lemma SingleCandidateSkipsTrials(run: Call -> Execution, hash: Hasher, token: Address, user: Address,
                                   cache: Option<MappingIndexCache>)
    requires !(cache.Some? && token in cache.value)
    requires |ScanCandidates(run, token, user)| == 1
    ensures var c := ScanCandidates(run, token, user)[0];
      Resolve(run, hash, token, user, cache)
        == Ok(Erc20BalanceSlot(c.0, ToLE(c.1), MappingIndex(hash, Pad32(user), ToBE(c.1))))
    ensures CallsMade(run, token, user, cache) == [ScanCall(token, user)]
  {
  }

  /** Any other number of candidates runs one trial per candidate, in order,
      each on the latest state with only that candidate's cell set to the fake
      balance. */
  lemma OneTrialPerCandidate(run: Call -> Execution, token: Address, user: Address,
                             cache: Option<MappingIndexCache>)
    requires !(cache.Some? && token in cache.value)
    requires |ScanCandidates(run, token, user)| != 1
    ensures var cands := ScanCandidates(run, token, user);
      && |CallsMade(run, token, user, cache)| == |cands| + 1
      && CallsMade(run, token, user, cache)[0] == Call(token, user, None)
      && forall i :: 0 <= i < |cands| ==>
           CallsMade(run, token, user, cache)[i + 1]
             == Call(token, user, Some(Override(cands[i].0, cands[i].1, FAKE_BALANCE)))
  {
  }

  /** With several (or no) candidates, the winning trial decides: the result
      is its cell, with its key in little-endian order both as the slot and
      for the index search. */
  lemma WinnerIsResolved(run: Call -> Execution, hash: Hasher, token: Address, user: Address,
                         cache: Option<MappingIndexCache>, w: nat)
    requires !(cache.Some? && token in cache.value)
    requires |ScanCandidates(run, token, user)| != 1
    requires IsWinner(TrialBalances(run, token, user, ScanCandidates(run, token, user)), w)
    ensures var c := ScanCandidates(run, token, user)[w];
      Resolve(run, hash, token, user, cache)
        == Ok(Erc20BalanceSlot(c.0, ToLE(c.1), MappingIndex(hash, Pad32(user), ToLE(c.1))))
  {
    LeaderIsFirstStrictMax(TrialBalances(run, token, user, ScanCandidates(run, token, user)));
  }

  /** With several (or no) candidates, the resolver fails exactly when no
      trial reported a positive balance, and the error lists the candidates;
      otherwise some trial wins. */
  lemma UnresolvedIffNoTrialPositive(run: Call -> Execution, hash: Hasher, token: Address, user: Address,
                                     cache: Option<MappingIndexCache>)
    requires !(cache.Some? && token in cache.value)
    requires |ScanCandidates(run, token, user)| != 1
    ensures var cands := ScanCandidates(run, token, user);
      var bs := TrialBalances(run, token, user, cands);
      Resolve(run, hash, token, user, cache).Err? <==> forall i :: 0 <= i < |bs| ==> bs[i] == 0
    ensures var cands := ScanCandidates(run, token, user);
      Resolve(run, hash, token, user, cache).Err? ==>
        Resolve(run, hash, token, user, cache).error == Unresolved(user, token, cands)
    ensures var cands := ScanCandidates(run, token, user);
      Resolve(run, hash, token, user, cache).Ok? ==>
        exists w: nat :: IsWinner(TrialBalances(run, token, user, cands), w)
  {
    LeaderIsFirstStrictMax(TrialBalances(run, token, user, ScanCandidates(run, token, user)));
  }

  /** No candidate at all: the resolver fails after the scan alone. */
  lemma NoCandidateFails(run: Call -> Execution, hash: Hasher, token: Address, user: Address,
                         cache: Option<MappingIndexCache>)
    requires !(cache.Some? && token in cache.value)
    requires ScanCandidates(run, token, user) == []
    ensures Resolve(run, hash, token, user, cache) == Err(Unresolved(user, token, []))
    ensures CallsMade(run, token, user, cache) == [ScanCall(token, user)]
  {
  }

  /** Without a cache hit, the resolved cell is one the scan touched, with a
      key of at least 2^128, and the slot is that key in little-endian order. */
  lemma ResolvedCellWasTouched(run: Call -> Execution, hash: Hasher, token: Address, user: Address,
                               cache: Option<MappingIndexCache>)
    requires !(cache.Some? && token in cache.value)
    requires Resolve(run, hash, token, user, cache).Ok?
    ensures var r := Resolve(run, hash, token, user, cache).value;
      exists key: U256 ::
        && TouchedCell(run(ScanCall(token, user)).touched, (r.address, key))
        && key >= MIN_SLOT
        && r.slot == ToLE(key)
  {
    var cands := ScanCandidates(run, token, user);
    var r := Resolve(run, hash, token, user, cache).value;
    var c: Slot;
    if |cands| == 1 {
      c := cands[0];
    } else {
      var w := Leader(TrialBalances(run, token, user, cands), |cands|).value;
      c := cands[w];
    }
    assert c in cands;
    CandidatesAreTouchedHighCells(run(ScanCall(token, user)).touched);
    assert r.address == c.0 && r.slot == ToLE(c.1);
  }

  // ---------------------------------------------------------------------------
  // Mapping-index recovery

  /** A slot built from index i below 20 gives i back, provided no smaller
      index hashes to the same slot. */
  lemma RecoversDeclaredIndex(hash: Hasher, user: Address, i: nat)
    requires i < 20
    requires forall j: nat :: j < i ==> MappingKey(hash, Pad32(user), j) != MappingKey(hash, Pad32(user), i)
    ensures MappingIndex(hash, Pad32(user), MappingKey(hash, Pad32(user), i)) == Some(i)
  {
    var r := MappingIndex(hash, Pad32(user), MappingKey(hash, Pad32(user), i));
    assert r.Some?;
  }
}
