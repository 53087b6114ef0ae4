/**
 * The two byte orders of `get_erc20_balance_slot`.
 *
 * The fast path names a slot by its hash digest, which is the storage key in
 * big-endian order.  As written, the single-candidate path returns the key in
 * little-endian order, and the multi-candidate path both returns and searches
 * for the key in little-endian order.  The lemmas below exhibit, on concrete
 * inputs, that a slot resolved by trial is then not the slot the cache path
 * gives for the recovered index, and that the index of a genuine mapping
 * entry is missed; and they prove that the big-endian resolution
 * (`ResolveWith(CANONICAL, ...)`) has neither defect.
 */
module ByteOrders {
  import opened Wrappers
  import opened Bytes
  import opened Executor
  import opened Erc20

  // ---------------------------------------------------------------------------
  // 2^128 is not a byte palindrome

  function Zeros(n: nat): (r: seq<Byte>)
    ensures |r| == n
  {
    seq(n, _ => 0)
  }

  lemma {:induction false} BigEndianOfZero(n: nat)
    ensures BigEndian(0, n) == Zeros(n)
  {
    if n > 0 {
      BigEndianOfZero(n - 1);
    }
  }

  lemma {:induction false} LittleEndianOfZero(n: nat)
    ensures LittleEndian(0, n) == Zeros(n)
  {
    if n > 0 {
      LittleEndianOfZero(n - 1);
    }
  }

  lemma {:induction false} BigEndianOfPower(k: nat, n: nat)
    requires n > 0
    ensures BigEndian(Pow256(k), n + k) == Zeros(n - 1) + [1] + Zeros(k)
  {
    if k == 0 {
      BigEndianOfZero(n - 1);
      assert BigEndian(1, n) == BigEndian(0, n - 1) + [1];
    } else {
      var y := Pow256(k - 1);
      assert Pow256(k) / 256 == y && Pow256(k) % 256 == 0;
      BigEndianOfPower(k - 1, n);
      assert BigEndian(Pow256(k), n + k) == BigEndian(y, n + k - 1) + [0];
      assert Zeros(n - 1) + [1] + Zeros(k) == Zeros(n - 1) + [1] + Zeros(k - 1) + [0];
    }
  }

  lemma {:induction false} LittleEndianOfPower(k: nat, n: nat)
    requires n > 0
    ensures LittleEndian(Pow256(k), n + k) == Zeros(k) + [1] + Zeros(n - 1)
  {
    if k == 0 {
      LittleEndianOfZero(n - 1);
      assert LittleEndian(1, n) == [1] + LittleEndian(0, n - 1);
    } else {
      var y := Pow256(k - 1);
      assert Pow256(k) / 256 == y && Pow256(k) % 256 == 0;
      LittleEndianOfPower(k - 1, n);
      assert LittleEndian(Pow256(k), n + k) == [0] + LittleEndian(y, n + k - 1);
      assert Zeros(k) + [1] + Zeros(n - 1) == [0] + (Zeros(k - 1) + [1] + Zeros(n - 1));
    }
  }

  lemma MinSlotIsPow256()
    ensures Pow256(16) == MIN_SLOT
  {
    assert Pow256(4) == 0x1_0000_0000;
    Pow256Add(4, 4);
    Pow256Add(8, 8);
  }

  lemma BigEndianPowerByte(k: nat, n: nat)
    requires n > 0
    ensures BigEndian(Pow256(k), n + k)[n - 1] == 1
  {
    BigEndianOfPower(k, n);
    assert (Zeros(n - 1) + [1] + Zeros(k))[n - 1] == 1;
  }

  lemma LittleEndianPowerByte(k: nat, n: nat, j: nat)
    requires n > 0 && j < n + k && j != k
    ensures LittleEndian(Pow256(k), n + k)[j] == 0
  {
    LittleEndianOfPower(k, n);
    var s := Zeros(k) + [1] + Zeros(n - 1);
    if j < k {
      assert s[j] == Zeros(k)[j];
    } else {
      assert s[j] == Zeros(n - 1)[j - k - 1];
    }
  }

  /** No power 256^k that fits a word is a byte palindrome: its byte 31 - k
      is 1 most significant first and 0 least significant first. */
  lemma PowerOrdersDiffer(x: U256, k: nat)
    requires k < 32 && x == Pow256(k)
    ensures ToBE(x) != ToLE(x)
  {
    BigEndianPowerByte(k, 32 - k);
    LittleEndianPowerByte(k, 32 - k, 31 - k);
    assert ToBE(x)[31 - k] != ToLE(x)[31 - k];
  }

  /** The key 2^128 reads differently in the two byte orders. */
  lemma MinSlotOrdersDiffer()
    ensures ToBE(MIN_SLOT) != ToLE(MIN_SLOT)
  {
    MinSlotIsPow256();
    PowerOrdersDiffer(MIN_SLOT, 16);
  }

  lemma ZeroWordOrdersAgree()
    ensures ToBE(0) == ToLE(0)
  {
    BigEndianOfZero(32);
    LittleEndianOfZero(32);
  }

  // ---------------------------------------------------------------------------
  // Concrete collaborators

  /** A hash under which the holder's entry of the mapping declared at
      `index` is the storage key `key`, and every other preimage hashes to
      slot 0: what keccak256 gives for a real mapping entry, as far as the
      resolver can tell. */
  function PlantedHash(user: Address, index: U256, key: U256): Hasher
  {
    (b: seq<Byte>) => if b == Pad32(user) + ToBE(index) then ToBE(key) else ToBE(0)
  }

  /** A token whose `balanceOf` touches one cell of its own, `key`. */
  function OneCellToken(token: Address, key: U256): Call -> Execution
  {
    (c: Call) => Execution(Halt, [TouchedAccount(token, [key])])
  }

  /** A token whose `balanceOf` touches two cells of its own, `balanceKey`
      and `otherKey`, and returns the fake balance only when `balanceKey`
      holds it; every other call halts. */
  function TwoCellToken(token: Address, balanceKey: U256, otherKey: U256): Call -> Execution
  {
    (c: Call) =>
      if c.cellOverride == Some(Override(token, balanceKey, FAKE_BALANCE))
      then Execution(Success(ToBE(FAKE_BALANCE)), [TouchedAccount(token, [balanceKey, otherKey])])
      else Execution(Halt, [TouchedAccount(token, [balanceKey, otherKey])])
  }

  lemma PaddedWordsDiffer(user: Address, i: U256, j: U256)
    requires i != j
    ensures Pad32(user) + ToBE(i) != Pad32(user) + ToBE(j)
  {
    assert (Pad32(user) + ToBE(i))[32..] == ToBE(i);
    assert (Pad32(user) + ToBE(j))[32..] == ToBE(j);
  }

  // ---------------------------------------------------------------------------
  // Finding 1: a single-candidate slot is not the cache path's slot

  /** As written: whenever the single candidate's key is not a byte
      palindrome and its index is recovered, resolving again with that index
      cached gives a different slot. */
  lemma AsWrittenSingleSlotDisagreesWithCache(run: Call -> Execution, hash: Hasher, token: Address, user: Address)
    requires |ScanCandidates(run, token, user)| == 1
    requires ToBE(ScanCandidates(run, token, user)[0].1) != ToLE(ScanCandidates(run, token, user)[0].1)
    requires Resolve(run, hash, token, user, None).Ok?
    requires Resolve(run, hash, token, user, None).value.mappingSlot.Some?
    ensures var first := Resolve(run, hash, token, user, None).value;
      var again := Resolve(run, hash, token, user, Some(map[token := first.mappingSlot.value]));
      again.Ok? && again.value.slot != first.slot
  {
  }

  /** As written, on a concrete token: its one touched cell has key `key`
      (2^128, say: `MinSlotOrdersDiffer`) and is the holder's entry of the
      mapping declared first.  The trial path returns the key's little-endian
      bytes, the cache path for the recovered index its big-endian bytes. */
  lemma SingleCandidateRoundTripCounterexample(token: Address, user: Address, key: U256)
    requires key >= MIN_SLOT
    ensures Resolve(OneCellToken(token, key), PlantedHash(user, 0, key), token, user, None)
         == Ok(Erc20BalanceSlot(token, ToLE(key), Some(0)))
    ensures Resolve(OneCellToken(token, key), PlantedHash(user, 0, key), token, user, Some(map[token := 0]))
         == Ok(Erc20BalanceSlot(token, ToBE(key), Some(0)))
  {
    var run := OneCellToken(token, key);
    var hash := PlantedHash(user, 0, key);
    var touched := [TouchedAccount(token, [key])];
    assert run(ScanCall(token, user)).touched == touched;
    assert [key][1..] == [];
    assert AccountCandidates(token, [key]) == [(token, key)];
    assert touched[1..] == [];
    assert Candidates(touched) == [(token, key)];
    assert ScanCandidates(run, token, user) == [(token, key)];
    assert MappingKey(hash, Pad32(user), 0) == ToBE(key);
    assert MappingIndex(hash, Pad32(user), ToBE(key)) == Some(0);
    assert Resolve(run, hash, token, user, None)
        == FromCandidates(AS_WRITTEN, run, hash, token, user, [(token, key)]);
  }

  /** Corrected: with big-endian slots throughout, a resolved slot whose index
      is recovered is exactly the slot the cache path gives for that index. */
  lemma CanonicalRoundTrip(run: Call -> Execution, hash: Hasher, token: Address, user: Address)
    requires ResolveWith(CANONICAL, run, hash, token, user, None).Ok?
    requires ResolveWith(CANONICAL, run, hash, token, user, None).value.mappingSlot.Some?
    ensures var first := ResolveWith(CANONICAL, run, hash, token, user, None).value;
      ResolveWith(CANONICAL, run, hash, token, user, Some(map[token := first.mappingSlot.value]))
        == Ok(Erc20BalanceSlot(token, first.slot, first.mappingSlot))
  {
    var cands := ScanCandidates(run, token, user);
    var first := ResolveWith(CANONICAL, run, hash, token, user, None).value;
    assert first.mappingSlot == MappingIndex(hash, Pad32(user), first.slot) by {
      if |cands| != 1 {
        var w := Winner(run, token, user, cands);
        assert w.Some?;
      }
    }
  }

  // ---------------------------------------------------------------------------
  // Finding 2: the multi-candidate path misses the mapping index

  lemma TwoCellCandidates(token: Address, user: Address, key: U256)
    requires key >= MIN_SLOT && key + 1 < TWO_POW_256
    ensures ScanCandidates(TwoCellToken(token, key, key + 1), token, user) == [(token, key), (token, key + 1)]
  {
    var run := TwoCellToken(token, key, key + 1);
    var keys := [key, key + 1];
    var touched := [TouchedAccount(token, keys)];
    assert run(ScanCall(token, user)).touched == touched;
    assert keys[1..] == [key + 1] && keys[1..][1..] == [];
    assert AccountCandidates(token, keys[1..]) == [(token, key + 1)];
    assert AccountCandidates(token, keys) == [(token, key), (token, key + 1)];
    assert touched[1..] == [];
    assert Candidates(touched) == [(token, key), (token, key + 1)];
  }

  lemma TwoCellPlantedTrial(token: Address, user: Address, key: U256, other: U256)
    ensures Balance(TwoCellToken(token, key, other)(TrialCall(token, user, (token, key)))) == FAKE_BALANCE
  {
    var e := TwoCellToken(token, key, other)(TrialCall(token, user, (token, key)));
    assert e.result == Success(ToBE(FAKE_BALANCE));
    ToBEInjective(Balance(e), FAKE_BALANCE);
  }

  lemma TwoCellOtherTrial(token: Address, user: Address, key: U256, other: U256)
    requires key != other
    ensures Balance(TwoCellToken(token, key, other)(TrialCall(token, user, (token, other)))) == 0
  {
    var c := TrialCall(token, user, (token, other));
    assert c.cellOverride != Some(Override(token, key, FAKE_BALANCE));
  }

  lemma TwoCellBalances(token: Address, user: Address, key: U256)
    requires key + 1 < TWO_POW_256
    ensures TrialBalances(TwoCellToken(token, key, key + 1), token, user, [(token, key), (token, key + 1)])
         == [FAKE_BALANCE, 0]
  {
    var bs := TrialBalances(TwoCellToken(token, key, key + 1), token, user, [(token, key), (token, key + 1)]);
    TwoCellPlantedTrial(token, user, key, key + 1);
    TwoCellOtherTrial(token, user, key, key + 1);
    assert bs[0] == FAKE_BALANCE;
    assert bs[1] == 0;
  }

  lemma TwoCellTrials(token: Address, user: Address, key: U256)
    requires key >= MIN_SLOT && key + 1 < TWO_POW_256
    ensures ScanCandidates(TwoCellToken(token, key, key + 1), token, user) == [(token, key), (token, key + 1)]
    ensures Winner(TwoCellToken(token, key, key + 1), token, user, [(token, key), (token, key + 1)])
         == Some((token, key))
  {
    TwoCellCandidates(token, user, key);
    TwoCellBalances(token, user, key);
    var bs: seq<U256> := [FAKE_BALANCE, 0];
    assert Leader(bs, 1) == Some(0);
    assert Leader(bs, 2) == Some(0);
  }

  lemma LittleEndianSearchMisses(user: Address, key: U256)
    requires key != 0 && ToBE(key) != ToLE(key)
    ensures MappingIndex(PlantedHash(user, 3, key), Pad32(user), ToLE(key)) == None
  {
    ZeroWordOrdersAgree();
    assert ToLE(key) != ToLE(0);
  }

  lemma BigEndianSearchFinds(user: Address, key: U256)
    requires key != 0
    ensures MappingIndex(PlantedHash(user, 3, key), Pad32(user), ToBE(key)) == Some(3)
  {
    var hash := PlantedHash(user, 3, key);
    assert MappingKey(hash, Pad32(user), 3) == ToBE(key);
    forall j: nat | j < 3 ensures MappingKey(hash, Pad32(user), j) != ToBE(key) {
      PaddedWordsDiffer(user, j, 3);
    }
  }

  /** As written, on a concrete token with two cells, `key` and `key + 1`,
      where only the trial of `key` (2^128, say: `MinSlotOrdersDiffer`)
      returns the fake balance, and `key` is the holder's entry of the
      mapping declared at index 3: the index search looks for the key's
      little-endian bytes and finds nothing, while the big-endian resolution
      finds index 3. */
  lemma MultiCandidateIndexCounterexample(token: Address, user: Address, key: U256)
    requires key >= MIN_SLOT && key + 1 < TWO_POW_256
    requires ToBE(key) != ToLE(key)
    ensures Resolve(TwoCellToken(token, key, key + 1), PlantedHash(user, 3, key), token, user, None)
         == Ok(Erc20BalanceSlot(token, ToLE(key), None))
    ensures ResolveWith(CANONICAL, TwoCellToken(token, key, key + 1), PlantedHash(user, 3, key), token, user, None)
         == Ok(Erc20BalanceSlot(token, ToBE(key), Some(3)))
  {
    TwoCellTrials(token, user, key);
    LittleEndianSearchMisses(user, key);
    BigEndianSearchFinds(user, key);
  }

  /** Corrected: when the resolved cell's key is the holder's entry of the
      mapping declared at some index below 20, an index is recovered, and it
      is at most that one. */
  lemma CanonicalRecoversIndex(run: Call -> Execution, hash: Hasher, token: Address, user: Address,
                               key: U256, i: nat)
    requires ResolveWith(CANONICAL, run, hash, token, user, None).Ok?
    requires ResolveWith(CANONICAL, run, hash, token, user, None).value.slot == ToBE(key)
    requires i < 20 && MappingKey(hash, Pad32(user), i) == ToBE(key)
    ensures var r := ResolveWith(CANONICAL, run, hash, token, user, None).value;
      r.mappingSlot.Some? && r.mappingSlot.value <= i
  {
    var cands := ScanCandidates(run, token, user);
    var r := ResolveWith(CANONICAL, run, hash, token, user, None).value;
    assert r.mappingSlot == MappingIndex(hash, Pad32(user), r.slot) by {
      if |cands| != 1 {
        var w := Winner(run, token, user, cands);
        assert w.Some?;
      }
    }
  }
}
