/**
 * The gas-sponsorship engine: `sendTransactionWithGasSponsorship` with its
 * top-up helper (`fundUserWallet` / `fundMerchantWallet`), in the two variants
 * the repository carries (the chain-aware paymaster utility and the older
 * "pimlico" utility with a fixed RPC default), each with its compiled copy.
 *
 * The chain behind the provider is an abstract ledger: balances and deployed
 * code per address, and the transactions the funder account has submitted.
 * Everything the provider or the wallet SDK answers (gas estimates, fee data,
 * submission, receipts) is an input of the call.
 */
module GasSponsorship {
  import opened Js
  import opened ChainRegistry

  /** `BigInt(1000000000)`: 1 gwei, used when the provider reports no gas price. */
  const FallbackGasPrice: nat := 1000000000

  /** G_transaction in Appendix G of the Ethereum Yellow Paper: the gas of a plain value transfer. */
  const TransferGas: nat := 21000

  /** The gas limit given to a top-up whose target has code. */
  const ContractFundingGas: nat := 100000

  /** What `getCode` answers for an account without code. */
  const EmptyCode := "0x"

  /** The RPC URL the pimlico variant falls back to when `RPC_URL` is unset. */
  const DefaultRpcUrl := "https://sepolia.base.org"

  /**
   * `Paymaster(false)` is the TypeScript paymaster utility, `Paymaster(true)` its
   * compiled copy (they differ only in the receipt field read after a top-up);
   * `Pimlico` is the pimlico utility, whose source and compiled copy agree.
   */
  datatype Variant = Paymaster(compiled: bool) | Pimlico

  /** The environment variable holding the funder's private key. */
  function KeyVariable(v: Variant): string
  {
    if v.Pimlico? then "FUNDER_PRIVATE_KEY" else "PAYMASTER_WALLET_PRIVATE_KEY"
  }

  /** The fields of a user operation the engine reads (all optional, as in an untyped object). */
  datatype UserOp = UserOp(
    to: Option<string>, target: Option<string>,
    data: Option<string>, callData: Option<string>,
    value: Option<string>,
    gasPrice: Option<string>, gasLimit: Option<string>)

  /** The value returned on success: both fields carry the relayed transaction's hash. */
  datatype TxHandle = TxHandle(hash: string, userOpHash: string)

  /**
   * A transaction the funder account submitted. A top-up carries its gas limit in
   * `gasLimit` (paymaster) or `gas` (pimlico); the relayed operation carries neither.
   */
  datatype Tx = Tx(from: string, to: string, data: Option<string>, value: nat,
                   gasLimit: Option<nat>, gas: Option<nat>)

  /** A mined transaction's receipt: `status` 1 is success, 0 is a revert. */
  datatype Receipt = Receipt(status: Option<int>, hash: Option<string>, transactionHash: Option<string>)

  /** The provider's answers during one top-up: the submission and the wait for its receipt. */
  datatype FundingIo = FundingIo(send: Result<string>, wait: Result<Option<Receipt>>)

  /** The provider's and wallet's answers during one sponsored send. */
  datatype SponsorIo = SponsorIo(
    gasEstimate: Result<nat>, feeData: Result<Option<nat>>,
    funding: FundingIo, relay: Result<string>)

  /** `feeData.gasPrice || BigInt(1000000000)`: an absent or zero price falls back to 1 gwei. */
  function GasPrice(reported: Option<nat>): (p: nat)
    ensures p > 0
    ensures reported.Some? && reported.value > 0 ==> p == reported.value
    ensures reported.None? || reported.value == 0 ==> p == FallbackGasPrice
  {
    match reported
    case Some(q) => if q != 0 then q else FallbackGasPrice
    case None => FallbackGasPrice
  }

  /**
   * The top-up a balance needs to cover `needed` wei of gas: none when the
   * balance already covers it, otherwise exactly the shortfall.
   */
  function TopUp(balance: nat, needed: nat): (r: Option<nat>)
    ensures r.Some? <==> balance < needed
    ensures r.Some? ==> r.value > 0 && balance + r.value == needed
  {
    if balance < needed then Some(needed - balance) else None
  }

  /** The gas limit of a top-up: a plain transfer for an account without code, more for a contract. */
  function FundingGasLimit(code: string): (g: nat)
    ensures g == TransferGas <==> code == EmptyCode
    ensures g == ContractFundingGas <==> code != EmptyCode
  {
    if code != EmptyCode then ContractFundingGas else TransferGas
  }

  /** The top-up transaction: `amount` wei from the funder to the target, with the chosen limit. */
  function FundingTx(v: Variant, funder: string, target: string, amount: nat, code: string): Tx
  {
    var limit := FundingGasLimit(code);
    if v.Pimlico? then Tx(funder, target, None, amount, None, Some(limit))
    else Tx(funder, target, None, amount, Some(limit), None)
  }

  /** The hash field a variant reads from a confirmed receipt. */
  function ReceiptHash(v: Variant, rc: Receipt): Option<string>
  {
    if v == Paymaster(false) then rc.transactionHash else rc.hash
  }

  /**
   * The outcome of a top-up: the string it returns, the transaction it submitted
   * (if any), and whether the chain confirmed the transfer.
   */
  datatype Funding = Funding(hash: string, submitted: Option<Tx>, credited: bool)

  /** `fundUserWallet` / `fundMerchantWallet`, which catch every failure. */
  function Fund(v: Variant, key: Option<string>, funder: string, target: string, amount: nat,
                code: string, io: FundingIo): (f: Funding)
    ensures !Present(key) || io.send.Err? ==> f == Funding("0x", None, false)
    ensures f.submitted.Some? <==> Present(key) && io.send.Ok?
    ensures f.submitted.Some? ==> f.submitted.value == FundingTx(v, funder, target, amount, code)
    ensures f.credited <==> f.submitted.Some? && io.wait.Ok? && io.wait.value.Some?
                            && io.wait.value.value.status == Some(1)
    ensures f.submitted.Some? && io.wait.Err? ==> f.hash == "0x"
    ensures f.submitted.Some? && io.wait.Ok? && (io.wait.value.None? || io.wait.value.value.status == Some(0))
            ==> f.hash == io.send.value
  {
    if !Present(key) then Funding("0x", None, false)
    else
      var tx := FundingTx(v, funder, target, amount, code);
      match io.send
      case Err(_) => Funding("0x", None, false)
      case Ok(txHash) =>
        match io.wait
        case Err(_) => Funding("0x", Some(tx), false)
        case Ok(None) => Funding(txHash, Some(tx), false)
        case Ok(Some(rc)) =>
          if rc.status == Some(0) then Funding(txHash, Some(tx), false)
          else Funding(Or(ReceiptHash(v, rc), Some(txHash)).value, Some(tx), rc.status == Some(1))
  }

  /**
   * A top-up never throws: it returns "0x", the submitted transaction's hash, or
   * (after a confirmation) the hash the receipt carries.
   */
  lemma FundReturnsAHash(v: Variant, key: Option<string>, funder: string, target: string,
                         amount: nat, code: string, io: FundingIo)
    ensures var f := Fund(v, key, funder, target, amount, code, io);
            f.hash == "0x"
            || (io.send.Ok? && f.hash == io.send.value)
            || (io.wait.Ok? && io.wait.value.Some? && ReceiptHash(v, io.wait.value.value) == Some(f.hash))
  {
  }

  /** The TypeScript paymaster reads `transactionHash` and the compiled copy reads `hash`. */
  lemma ConfirmedHashByVariant(key: Option<string>, funder: string, target: string, amount: nat,
                               code: string, txHash: string, rc: Receipt)
    requires Present(key) && rc.status == Some(1)
    requires rc.hash == Some("0xh") && rc.transactionHash.None?
    ensures Fund(Paymaster(false), key, funder, target, amount, code,
                 FundingIo(Ok(txHash), Ok(Some(rc)))).hash == txHash
    ensures Fund(Paymaster(true), key, funder, target, amount, code,
                 FundingIo(Ok(txHash), Ok(Some(rc)))).hash == "0xh"
  {
  }

  /** The fixed parameters of one sponsored send. */
  datatype SponsorContext = SponsorContext(
    variant: Variant, tables: Tables, deployMainnet: Option<string>, env: Env,
    chain: string, funder: string)

  /** The provider URL: the chain's `rpc` (paymaster) or `RPC_URL` with a fixed default (pimlico). */
  function ProviderUrl(cx: SponsorContext): (r: Result<string>)
    ensures cx.variant.Pimlico? ==> r == Ok(if Present(EnvVar(cx.env, "RPC_URL")) then cx.env["RPC_URL"] else DefaultRpcUrl)
  {
    if cx.variant.Pimlico? then Ok(Or(EnvVar(cx.env, "RPC_URL"), Some(DefaultRpcUrl)).value)
    else ConfiguredRpc(cx.tables, cx.deployMainnet, cx.chain)
  }

  /** The destination, calldata and value after the `to || target`, `data || callData`, `value || "0"` fallbacks. */
  datatype Prepared = Prepared(to: string, data: string, value: string)

  function Prepare(cx: SponsorContext, op: UserOp): (r: Result<Prepared>)
    ensures r.Ok? ==> ProviderUrl(cx).Ok?
    ensures r.Ok? ==> r.value.to != "" && r.value.data != "" && r.value.value != ""
    ensures ProviderUrl(cx).Ok? && (!Present(Or(op.to, op.target)) || !Present(Or(op.data, op.callData)))
            ==> r == Err("Missing 'to' or 'data' in userOp")
  {
    match ProviderUrl(cx)
    case Err(m) => Err(m)
    case Ok(_) =>
      var to := Or(op.to, op.target);
      var data := Or(op.data, op.callData);
      var value := Or(op.value, Some("0"));
      if !Present(to) || !Present(data) then Err("Missing 'to' or 'data' in userOp")
      else Ok(Prepared(to.value, data.value, value.value))
  }

  /** `BigInt(s)` for the decimal strings the model covers; anything else throws. */
  function ParseBigInt(s: string): (r: Result<nat>)
    ensures r.Ok? <==> s != "" && AllDigits(s)
  {
    if s != "" && AllDigits(s) then Ok(DigitsValue(s)) else Err("Cannot convert " + s + " to a BigInt")
  }

  /** `value === "0" ? BigInt(0) : BigInt(value)`. */
  function RelayValue(value: string): Result<nat>
  {
    if value == "0" then Ok(0) else ParseBigInt(value)
  }

  /** Every natural, written in decimal, is relayed as itself. */
  lemma RelayValueOfDecimal(n: nat)
    ensures RelayValue(DecimalString(n)) == Ok(n)
  {
    DigitsValueOfDecimalString(n);
  }

  /** The prefix every error leaving the engine carries. */
  function WrapPrefix(cx: SponsorContext): string
  {
    if cx.variant.Pimlico? then "Failed to send transaction with gas sponsorship: "
    else "Failed to send transaction with gas sponsorship on " + cx.chain + ": "
  }

  /**
   * The whole outcome of a sponsored send: the value returned or the wrapped
   * error, the top-up if one was attempted, and the relayed transaction if it was
   * submitted.
   */
  datatype Sponsorship = Sponsorship(result: Result<TxHandle>, funding: Option<Funding>, relayed: Option<Tx>)

  function Fail(cx: SponsorContext, funding: Option<Funding>, message: string): (s: Sponsorship)
    ensures s.result.Err? && StartsWith(s.result.message, WrapPrefix(cx)) && s.relayed.None?
  {
    assert (WrapPrefix(cx) + message)[..|WrapPrefix(cx)|] == WrapPrefix(cx);
    Sponsorship(Err(WrapPrefix(cx) + message), funding, None)
  }

  /** The gas the operation needs, once estimate and fee data are in. */
  function Needed(io: SponsorIo): nat
    requires io.gasEstimate.Ok? && io.feeData.Ok?
  {
    io.gasEstimate.value * GasPrice(io.feeData.value)
  }

  /** The top-up step: `fundUserWallet` for the shortfall when the balance is below the gas needed. */
  function TopUpFunding(cx: SponsorContext, evmAddress: string, balance: nat, code: string, io: SponsorIo)
    : Option<Funding>
    requires io.gasEstimate.Ok? && io.feeData.Ok?
  {
    match TopUp(balance, Needed(io))
    case None => None
    case Some(shortfall) =>
      Some(Fund(cx.variant, EnvVar(cx.env, KeyVariable(cx.variant)), cx.funder, evmAddress, shortfall, code, io.funding))
  }

  /** What follows the top-up: the key check, the value conversion and the relayed send. */
  function Relay(cx: SponsorContext, p: Prepared, funding: Option<Funding>, io: SponsorIo): (s: Sponsorship)
    ensures s.result.Ok? ==> s.result.value.hash == s.result.value.userOpHash && s.relayed.Some?
    ensures s.relayed.Some? ==> s.result.Ok?
    ensures s.funding == funding
  {
    var key := EnvVar(cx.env, KeyVariable(cx.variant));
    if !Present(key) then Fail(cx, funding, KeyVariable(cx.variant) + " not set. Cannot send transaction.")
    else
      match RelayValue(p.value)
      case Err(m) => Fail(cx, funding, m)
      case Ok(amount) =>
        match io.relay
        case Err(m) => Fail(cx, funding, m)
        case Ok(h) => Sponsorship(Ok(TxHandle(h, h)), funding, Some(Tx(cx.funder, p.to, Some(p.data), amount, None, None)))
  }

  /** `sendTransactionWithGasSponsorship`, given the user's balance and code on the ledger. */
  function Sponsor(cx: SponsorContext, op: UserOp, evmAddress: string, balance: nat, code: string,
                   io: SponsorIo): (s: Sponsorship)
    ensures s.result.Ok? ==> s.result.value.hash == s.result.value.userOpHash && s.relayed.Some?
    ensures s.relayed.Some? ==> s.result.Ok?
  {
    match Prepare(cx, op)
    case Err(m) => Fail(cx, None, m)
    case Ok(p) =>
      if io.gasEstimate.Err? then Fail(cx, None, io.gasEstimate.message)
      else if io.feeData.Err? then Fail(cx, None, io.feeData.message)
      else Relay(cx, p, TopUpFunding(cx, evmAddress, balance, code, io), io)
  }

  /** Every error leaving the engine is wrapped with the engine's prefix. */
  lemma ErrorsAreWrapped(cx: SponsorContext, op: UserOp, evmAddress: string, balance: nat, code: string,
                         io: SponsorIo)
    ensures var s := Sponsor(cx, op, evmAddress, balance, code, io);
            s.result.Err? ==> StartsWith(s.result.message, WrapPrefix(cx))
  {
  }

  /** The paymaster's configuration errors: no entry or no `rpc` key, and an empty `rpc`. */
  lemma PaymasterConfigErrors(cx: SponsorContext, op: UserOp, evmAddress: string, balance: nat,
                              code: string, io: SponsorIo)
    requires cx.variant.Paymaster?
    ensures var config := GetChainConfig(cx.tables, cx.deployMainnet, cx.chain);
            var s := Sponsor(cx, op, evmAddress, balance, code, io);
            (config.None? || !HasRpcKey(config.value) ==>
               s == Sponsorship(Err(WrapPrefix(cx) + ("No RPC URL for chain " + cx.chain)), None, None))
            && (config.Some? && HasRpcKey(config.value) && !Present(config.value.rpc) ==>
               s == Sponsorship(Err(WrapPrefix(cx) + ("RPC URL not configured for chain " + cx.chain)), None, None))
  {
  }

  /**
   * On a real table, Polkadot has no `rpc` key, an unknown name no entry, and an
   * inherited member no `rpc` key: all three fail the same way.
   */
  lemma PaymasterRejectsNonRpcChains(cx: SponsorContext, env: Env, op: UserOp, evmAddress: string,
                                     balance: nat, code: string, io: SponsorIo)
    requires cx.variant.Paymaster? && cx.tables == LoadTables(env)
    requires cx.chain == Polkadot || cx.chain !in Networks
    ensures Sponsor(cx, op, evmAddress, balance, code, io).result
            == Err(WrapPrefix(cx) + ("No RPC URL for chain " + cx.chain))
  {
    ConfiguredRpcCases(env, cx.deployMainnet, cx.chain);
    assert ProviderUrl(cx) == Err("No RPC URL for chain " + cx.chain);
  }

  /** The pimlico variant never fails on configuration, whatever the chain. */
  lemma PimlicoIgnoresChain(cx: SponsorContext, chain: string)
    requires cx.variant.Pimlico?
    ensures ProviderUrl(cx) == ProviderUrl(cx.(chain := chain)) && ProviderUrl(cx).Ok?
  {
  }

  /**
   * A missing destination or calldata fails before the ledger is consulted: the
   * outcome does not depend on the balance, the code or any provider answer,
   * and nothing is submitted.
   */
  lemma MissingFieldsFailFirst(cx: SponsorContext, op: UserOp, evmAddress: string,
                               b1: nat, c1: string, io1: SponsorIo,
                               b2: nat, c2: string, io2: SponsorIo)
    requires ProviderUrl(cx).Ok?
    requires !Present(Or(op.to, op.target)) || !Present(Or(op.data, op.callData))
    ensures Sponsor(cx, op, evmAddress, b1, c1, io1) == Sponsor(cx, op, evmAddress, b2, c2, io2)
    ensures Sponsor(cx, op, evmAddress, b1, c1, io1)
            == Sponsorship(Err(WrapPrefix(cx) + "Missing 'to' or 'data' in userOp"), None, None)
  {
  }

  /**
   * A top-up is attempted exactly when the preflight succeeded and the balance is
   * below `gasEstimate * gasPrice`, and it asks for exactly the shortfall.
   */
  lemma TopUpIffShort(cx: SponsorContext, op: UserOp, evmAddress: string, balance: nat,
                      code: string, io: SponsorIo)
    ensures var s := Sponsor(cx, op, evmAddress, balance, code, io);
            s.funding.Some? <==>
              Prepare(cx, op).Ok? && io.gasEstimate.Ok? && io.feeData.Ok? && balance < Needed(io)
    ensures var s := Sponsor(cx, op, evmAddress, balance, code, io);
            s.funding.Some? ==>
              s.funding.value == Fund(cx.variant, EnvVar(cx.env, KeyVariable(cx.variant)), cx.funder,
                                      evmAddress, Needed(io) - balance, code, io.funding)
  {
  }

  /** A confirmed top-up brings the balance to exactly the gas needed. */
  lemma ConfirmedTopUpCoversGas(cx: SponsorContext, op: UserOp, evmAddress: string, balance: nat,
                                code: string, io: SponsorIo)
    requires Sponsor(cx, op, evmAddress, balance, code, io).funding.Some?
    requires Sponsor(cx, op, evmAddress, balance, code, io).funding.value.credited
    ensures var f := Sponsor(cx, op, evmAddress, balance, code, io).funding.value;
            f.submitted.Some? && balance + f.submitted.value.value == Needed(io)
  {
    TopUpIffShort(cx, op, evmAddress, balance, code, io);
  }

  /**
   * Without the funder key nothing is submitted at all (the top-up fails silently
   * on the same variable) and the send fails with the key's name.
   */
  lemma MissingKeySubmitsNothing(cx: SponsorContext, op: UserOp, evmAddress: string, balance: nat,
                                 code: string, io: SponsorIo)
    requires !Present(EnvVar(cx.env, KeyVariable(cx.variant)))
    requires Prepare(cx, op).Ok? && io.gasEstimate.Ok? && io.feeData.Ok?
    ensures var s := Sponsor(cx, op, evmAddress, balance, code, io);
            s.result == Err(WrapPrefix(cx) + (KeyVariable(cx.variant) + " not set. Cannot send transaction."))
            && s.relayed.None?
            && (s.funding.None? || s.funding.value.submitted.None?)
  {
  }

  /** A successful send relays the operation from the funder, to the prepared destination, with the parsed value. */
  lemma RelayedFromFunder(cx: SponsorContext, op: UserOp, evmAddress: string, balance: nat,
                          code: string, io: SponsorIo)
    requires Sponsor(cx, op, evmAddress, balance, code, io).result.Ok?
    ensures var s := Sponsor(cx, op, evmAddress, balance, code, io);
            var p := Prepare(cx, op).value;
            Prepare(cx, op).Ok? && io.relay.Ok?
            && s.result.value == TxHandle(io.relay.value, io.relay.value)
            && s.relayed == Some(Tx(cx.funder, p.to, Some(p.data), RelayValue(p.value).value, None, None))
  {
  }

  /** The funding transactions a sponsorship submitted, in order. */
  function Submitted(s: Sponsorship): seq<Tx>
  {
    FundingSubmitted(s.funding) + (if s.relayed.Some? then [s.relayed.value] else [])
  }

  /** The top-up transaction, if one was submitted. */
  function FundingSubmitted(funding: Option<Funding>): seq<Tx>
  {
    if funding.Some? && funding.value.submitted.Some? then [funding.value.submitted.value] else []
  }

  /**
   * The chain as the engine sees it. Balances are in wei; an address without
   * code reads as "0x"; `sent` lists what the funder account submitted.
   */
  class Ledger {
    var balances: map<string, nat>
    var code: map<string, string>
    var sent: seq<Tx>

    constructor(balances: map<string, nat>, code: map<string, string>)
      ensures this.balances == balances && this.code == code && sent == []
    {
      this.balances := balances;
      this.code := code;
      sent := [];
    }

    /** `provider.getBalance(address)`. */
    function Balance(address: string): nat
      reads this
    {
      if address in balances then balances[address] else 0
    }

    /** `provider.getCode(address)`. */
    function CodeAt(address: string): string
      reads this
    {
      if address in code then code[address] else EmptyCode
    }

    /** `fundUserWallet` / `fundMerchantWallet`: a confirmed top-up credits the target. */
    method FundWallet(v: Variant, key: Option<string>, funder: string, target: string, amount: nat,
                      io: FundingIo) returns (hash: string)
      modifies this
      ensures var f := Fund(v, key, funder, target, amount, old(CodeAt(target)), io);
              hash == f.hash
              && sent == old(sent) + (if f.submitted.Some? then [f.submitted.value] else [])
              && balances == (if f.credited then old(balances)[target := old(Balance(target)) + amount]
                              else old(balances))
              && code == old(code)
    {
      if !Present(key) {
        return "0x";
      }
      var tx := FundingTx(v, funder, target, amount, CodeAt(target));
      if io.send.Err? {
        return "0x";
      }
      sent := sent + [tx];
      if io.wait.Err? {
        return "0x";
      }
      var receipt := io.wait.value;
      if receipt.Some? && receipt.value.status == Some(0) {
        return io.send.value;
      }
      if receipt.Some? && receipt.value.status == Some(1) {
        balances := balances[target := Balance(target) + amount];
      }
      hash := if receipt.Some? then Or(ReceiptHash(v, receipt.value), Some(io.send.value)).value
              else io.send.value;
    }

    /** `sendTransactionWithGasSponsorship` against this ledger. */
    method SendWithGasSponsorship(cx: SponsorContext, op: UserOp, evmAddress: string, io: SponsorIo)
      returns (r: Result<TxHandle>)
      modifies this
      ensures var s := Sponsor(cx, op, evmAddress, old(Balance(evmAddress)), old(CodeAt(evmAddress)), io);
              r == s.result
              && sent == old(sent) + Submitted(s)
              && balances == (if s.funding.Some? && s.funding.value.credited
                              then old(balances)[evmAddress := Needed(io)]
                              else old(balances))
              && code == old(code)
    {
      var prepared := Prepare(cx, op);
      if prepared.Err? {
        return Err(WrapPrefix(cx) + prepared.message);
      }
      var p := prepared.value;
      var balance := Balance(evmAddress);
      if io.gasEstimate.Err? {
        return Err(WrapPrefix(cx) + io.gasEstimate.message);
      }
      if io.feeData.Err? {
        return Err(WrapPrefix(cx) + io.feeData.message);
      }
      ghost var funding := TopUpFunding(cx, evmAddress, balance, CodeAt(evmAddress), io);
      ghost var s := Relay(cx, p, funding, io);
      assert s == Sponsor(cx, op, evmAddress, balance, CodeAt(evmAddress), io);
      TopUpIfShort(cx, evmAddress, io);
      r := RelayOperation(cx, p, funding, io);
      ConcatAssoc(old(sent), FundingSubmitted(funding), if s.relayed.Some? then [s.relayed.value] else []);
    }

    /** The top-up step: fund the user's wallet with the shortfall when the balance is below the gas needed. */
    method TopUpIfShort(cx: SponsorContext, evmAddress: string, io: SponsorIo)
      requires io.gasEstimate.Ok? && io.feeData.Ok?
      modifies this
      ensures var funding := TopUpFunding(cx, evmAddress, old(Balance(evmAddress)), old(CodeAt(evmAddress)), io);
              sent == old(sent) + FundingSubmitted(funding)
              && balances == (if funding.Some? && funding.value.credited then old(balances)[evmAddress := Needed(io)]
                              else old(balances))
              && code == old(code)
    {
      var balance := Balance(evmAddress);
      var gasNeeded := io.gasEstimate.value * GasPrice(io.feeData.value);
      var key := EnvVar(cx.env, KeyVariable(cx.variant));
      if balance < gasNeeded {
        var _ := FundWallet(cx.variant, key, cx.funder, evmAddress, gasNeeded - balance, io.funding);
      }
    }

    /** The part after the top-up: the key check, the value conversion and the funder's send. */
    method RelayOperation(cx: SponsorContext, p: Prepared, ghost funding: Option<Funding>, io: SponsorIo)
      returns (r: Result<TxHandle>)
      modifies this
      ensures var s := Relay(cx, p, funding, io);
              r == s.result
              && sent == old(sent) + (if s.relayed.Some? then [s.relayed.value] else [])
              && balances == old(balances) && code == old(code)
    {
      var key := EnvVar(cx.env, KeyVariable(cx.variant));
      if !Present(key) {
        return Err(WrapPrefix(cx) + (KeyVariable(cx.variant) + " not set. Cannot send transaction."));
      }
      var amount := RelayValue(p.value);
      if amount.Err? {
        return Err(WrapPrefix(cx) + amount.message);
      }
      if io.relay.Err? {
        return Err(WrapPrefix(cx) + io.relay.message);
      }
      sent := sent + [Tx(cx.funder, p.to, Some(p.data), amount.value, None, None)];
      r := Ok(TxHandle(io.relay.value, io.relay.value));
    }
  }
}
