/**
 * The two EVM helpers the compiled authentication controller hands to the
 * deployment loop: `buildUserOp`, which prepares a zero-value self-transfer,
 * and the closure made by `createBoundSendSponsoredOp`, which forwards an
 * operation to the sponsorship engine and returns its hash. The loop calls
 * `buildUserOp` but never the closure: it calls `sendTransactionWithGasSponsorship`
 * directly with its own chain (dist/utils/blockchainDeploy.js:36), so the
 * closure's members describe a helper that is passed along and never run.
 */
module EvmOperations {
  import opened Js
  import opened ChainRegistry
  import opened GasSponsorship

  /** The provider's answers while building: the gas estimate and the fee data. */
  datatype BuildIo = BuildIo(gasEstimate: Result<nat>, feeData: Result<Option<nat>>)

  /**
   * `buildUserOp(walletAddress, chain)`: after the RPC check, a self-transfer of
   * value "0" with calldata "0x", the gas price (or 1 gwei) and the estimate, as
   * decimal strings.
   */
  function BuildUserOp(t: Tables, deployMainnet: Option<string>, wallet: string, chain: string,
                       io: BuildIo): (r: Result<UserOp>)
    ensures ConfiguredRpc(t, deployMainnet, chain).Err? ==> r == Err(ConfiguredRpc(t, deployMainnet, chain).message)
    ensures r.Ok? ==> io.gasEstimate.Ok? && io.feeData.Ok?
  {
    match ConfiguredRpc(t, deployMainnet, chain)
    case Err(m) => Err(m)
    case Ok(_) =>
      match io.gasEstimate
      case Err(m) => Err(m)
      case Ok(estimate) =>
        match io.feeData
        case Err(m) => Err(m)
        case Ok(reported) =>
          Ok(UserOp(Some(wallet), None, Some("0x"), None, Some("0"),
                    Some(DecimalString(GasPrice(reported))), Some(DecimalString(estimate))))
  }

  /**
   * A built operation is a zero-value self-transfer whose price and limit
   * strings read back as the price used (the provider's or 1 gwei) and the estimate.
   */
  lemma BuiltOpIsSelfTransfer(t: Tables, deployMainnet: Option<string>, wallet: string, chain: string,
                              io: BuildIo)
    requires BuildUserOp(t, deployMainnet, wallet, chain, io).Ok?
    ensures var op := BuildUserOp(t, deployMainnet, wallet, chain, io).value;
            op.to == Some(wallet) && op.data == Some("0x") && op.value == Some("0")
            && op.gasPrice.Some? && AllDigits(op.gasPrice.value)
            && DigitsValue(op.gasPrice.value) == GasPrice(io.feeData.value)
            && op.gasLimit.Some? && AllDigits(op.gasLimit.value)
            && DigitsValue(op.gasLimit.value) == io.gasEstimate.value
  {
    DigitsValueOfDecimalString(GasPrice(io.feeData.value));
    DigitsValueOfDecimalString(io.gasEstimate.value);
  }

  /**
   * Fed to the sponsorship engine, a built operation for a non-empty wallet
   * passes the field check and is relayed to the wallet itself with value 0.
   */
  lemma BuiltOpRelaysToWallet(cx: SponsorContext, t: Tables, deployMainnet: Option<string>, wallet: string,
                              chain: string, io: BuildIo)
    requires BuildUserOp(t, deployMainnet, wallet, chain, io).Ok? && wallet != ""
    requires ProviderUrl(cx).Ok?
    ensures var op := BuildUserOp(t, deployMainnet, wallet, chain, io).value;
            Prepare(cx, op) == Ok(Prepared(wallet, "0x", "0")) && RelayValue("0") == Ok(0)
  {
  }

  /**
   * What the bound closure returns once the sponsored send has answered: its
   * error unchanged, an error when neither hash is truthy, or `hash || userOpHash`.
   */
  function BoundResult(sponsored: Result<TxHandle>): (r: Result<string>)
    ensures sponsored.Err? ==> r == Err(sponsored.message)
    ensures r.Ok? ==> r.value != "" && (r.value == sponsored.value.hash || r.value == sponsored.value.userOpHash)
  {
    match sponsored
    case Err(m) => Err(m)
    case Ok(h) =>
      if h.hash == "" && h.userOpHash == "" then Err("No transaction hash returned from sponsored operation")
      else Ok(Or(Some(h.hash), Some(h.userOpHash)).value)
  }

  /**
   * The sponsorship context the closure calls the engine with: the compiled
   * paymaster, and the chain left at its default, Base, whatever chain the
   * closure itself was given.
   */
  function BoundContext(t: Tables, deployMainnet: Option<string>, env: Env, funder: string): SponsorContext
  {
    SponsorContext(Paymaster(true), t, deployMainnet, env, Base, funder)
  }

  /** The closure's outcome, given the user's balance and code on the ledger. */
  function BoundSend(t: Tables, deployMainnet: Option<string>, env: Env, funder: string, evmAddress: string,
                     op: UserOp, chain: string, balance: nat, code: string, io: SponsorIo): (r: Result<string>)
    ensures ConfiguredRpc(t, deployMainnet, chain).Err? ==> r == Err(ConfiguredRpc(t, deployMainnet, chain).message)
  {
    match ConfiguredRpc(t, deployMainnet, chain)
    case Err(m) => Err(m)
    case Ok(_) => BoundResult(Sponsor(BoundContext(t, deployMainnet, env, funder), op, evmAddress, balance, code, io).result)
  }

  /**
   * Once its own RPC check passes, the closure's errors are the engine's errors
   * for Base: a Celo operation is sponsored with Base's configuration.
   */
  lemma BoundSendSponsorsOnBase(t: Tables, deployMainnet: Option<string>, env: Env, funder: string,
                                evmAddress: string, op: UserOp, chain: string, balance: nat, code: string,
                                io: SponsorIo)
    requires ConfiguredRpc(t, deployMainnet, chain).Ok?
    ensures var r := BoundSend(t, deployMainnet, env, funder, evmAddress, op, chain, balance, code, io);
            r.Err? ==> r.message == "No transaction hash returned from sponsored operation"
                       || StartsWith(r.message, "Failed to send transaction with gas sponsorship on " + Base + ": ")
    ensures var r := BoundSend(t, deployMainnet, env, funder, evmAddress, op, chain, balance, code, io);
            var s := Sponsor(BoundContext(t, deployMainnet, env, funder), op, evmAddress, balance, code, io);
            r.Ok? ==> s.result.Ok? && r.value == s.result.value.hash && r.value != ""
  {
    var cx := BoundContext(t, deployMainnet, env, funder);
    var s := Sponsor(cx, op, evmAddress, balance, code, io);
    ErrorsAreWrapped(cx, op, evmAddress, balance, code, io);
    assert BoundSend(t, deployMainnet, env, funder, evmAddress, op, chain, balance, code, io) == BoundResult(s.result);
  }

  /** The closure returned by `createBoundSendSponsoredOp`, run against a ledger. */
  method BoundSendSponsoredOp(ledger: Ledger, t: Tables, deployMainnet: Option<string>, env: Env, funder: string,
                              evmAddress: string, op: UserOp, chain: string, io: SponsorIo)
    returns (r: Result<string>)
    modifies ledger
    ensures r == BoundSend(t, deployMainnet, env, funder, evmAddress, op, chain,
                           old(ledger.Balance(evmAddress)), old(ledger.CodeAt(evmAddress)), io)
    ensures ConfiguredRpc(t, deployMainnet, chain).Err? ==> ledger.sent == old(ledger.sent)
  {
    var rpc := ConfiguredRpc(t, deployMainnet, chain);
    if rpc.Err? {
      return Err(rpc.message);
    }
    var result := ledger.SendWithGasSponsorship(BoundContext(t, deployMainnet, env, funder), op, evmAddress, io);
    r := BoundResult(result);
  }
}
