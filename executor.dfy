/**
 * The EVM as the resolver sees it: one `balanceOf(user)` call to a token,
 * run on the latest chain state with at most one storage cell overridden,
 * reports the call's outcome and the storage cells it touched.  What runs
 * inside the EVM is not modelled; `Evm.run` stands for it.
 */
module Executor {
  import opened Wrappers
  import opened Bytes

  /** The storage keys one execution touched in one contract, in the order
      the touched-state map yields them; the cells' values are not needed. */
  datatype TouchedAccount = TouchedAccount(address: Address, storage: seq<U256>)

  datatype Outcome = Success(output: seq<Byte>) | Revert(output: seq<Byte>) | Halt

  datatype Execution = Execution(result: Outcome, touched: seq<TouchedAccount>)

  /** One storage cell of `contract` set to `value` on top of the latest state. */
  datatype Override = Override(contract: Address, key: U256, value: U256)

  /** `balanceOf(user)` sent to `token` from the fixed caller address, on the
      latest state with `cellOverride` applied when present. */
  datatype Call = Call(token: Address, user: Address, cellOverride: Option<Override>)

  /** ABI-decodes a `uint256` return value without validation: the first
      32 bytes, big-endian; fewer than 32 bytes is a decode failure. */
  function DecodeU256(output: seq<Byte>): (r: Option<U256>)
    ensures r.Some? <==> |output| >= 32
    ensures r.Some? ==> ToBE(r.value) == output[..32]
  {
    if |output| < 32 then None else Some(WordFromBE(output[..32]))
  }

  /** The balance `get_erc20_balance` reports for an execution: the decoded
      output of a successful call, and zero for a revert, a halt or an output
      that does not decode. */
  function Balance(e: Execution): (r: U256)
    ensures !e.result.Success? ==> r == 0
    ensures e.result.Success? && |e.result.output| < 32 ==> r == 0
    ensures e.result.Success? && |e.result.output| >= 32 ==> ToBE(r) == e.result.output[..32]
  {
    match e.result
    case Success(output) =>
      (match DecodeU256(output)
       case Some(v) => v
       case None => 0)
    case _ => 0
  }

  /** The executor with the log of every call made to it. */
  class Evm {
    /** The outcome of each call on the latest state: it depends on the call
        alone, so no override carries over from one call to the next. */
    const run: Call -> Execution
    var calls: seq<Call>

    constructor (run: Call -> Execution)
      ensures this.run == run && calls == []
    {
      this.run := run;
      calls := [];
    }

    /** `get_erc20_balance`: runs `balanceOf(user)` on `token` and returns
        the decoded balance with the touched state. */
    method GetErc20Balance(token: Address, user: Address, cellOverride: Option<Override>)
      returns (balance: U256, touched: seq<TouchedAccount>)
      modifies this
      ensures calls == old(calls) + [Call(token, user, cellOverride)]
      ensures balance == Balance(run(Call(token, user, cellOverride)))
      ensures touched == run(Call(token, user, cellOverride)).touched
    {
      var call := Call(token, user, cellOverride);
      calls := calls + [call];
      var execution := run(call);
      balance := Balance(execution);
      touched := execution.touched;
    }
  }
}
