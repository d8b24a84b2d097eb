/**
 * The multi-chain wallet activation loop, `deployWalletOnNetworks`, in its two
 * copies: the compiled one, which activates EVM wallets with a sponsored
 * self-transfer, and the TypeScript one, which activates them through
 * `deployWalletOnEVM`. Chains are attempted one at a time in input order; each
 * attempt writes one entry for its chain, and a failure becomes the entry
 * `"Error: " + message` without stopping the loop.
 *
 * Every SDK call of an attempt (building the user operation, the sponsored
 * send, the Hedera transfer, the Polkadot connection and transfer) is an input
 * `ChainIo`, one per iteration; the calls the attempt makes are returned as a
 * trace of `Effect`s.
 */
module BlockchainDeploy {
  import opened Js
  import opened ChainRegistry
  import GasSponsorship

  /** `Compiled` is the JavaScript build, `Source` the TypeScript file. */
  datatype Build = Compiled | Source

  /**
   * An entry of the results object: a string (an error, a hash, a receipt
   * status) or the `{hash, userOpHash}` object the sponsored send returns.
   */
  datatype Entry = Text(text: string) | Handle(hash: string, userOpHash: string)

  /**
   * The answers the SDKs give during one attempt. `userOp` is what the bound
   * `buildUserOp` answers (`EvmOperations.BuildUserOp`) and `sponsored` what
   * `sendTransactionWithGasSponsorship` answers (`GasSponsorship.Sponsor`, as
   * `EngineAnswer`); `None` is a falsy return, which that engine never gives
   * (`CompiledEvmWithEngine`). `polkadotApi` says whether
   * `api.tx.balances.transfer` exists on the connected API.
   */
  datatype ChainIo = ChainIo(
    userOp: Result<GasSponsorship.UserOp>,
    sponsored: Result<Option<GasSponsorship.TxHandle>>,
    evmDeploy: Result<string>,
    hederaStatus: Result<string>,
    polkadotApi: Result<bool>,
    polkadotSend: Result<string>,
    polkadotDisconnect: Result<()>)

  /** A call an attempt makes into an SDK, in the order it makes them. */
  datatype Effect =
    | BuildUserOp(wallet: string, chain: string)
    | SponsoredSend(op: GasSponsorship.UserOp, walletId: string, wallet: string, chain: string)
    | EvmDeploy(walletId: string, wallet: string, caip2: string, chainId: nat)
    | HederaTransfer(network: string, operatorDelta: int, wallet: string, walletDelta: int)
    | PolkadotConnect(nodeUrl: string)
    | PolkadotTransfer(signer: string, to: string, amount: nat)
    | PolkadotDisconnect

  /** The fixed arguments of one run of the loop. */
  datatype DeployContext = DeployContext(
    build: Build, tables: Tables, deployMainnet: Option<string>,
    walletId: string, wallet: string, polkadotMnemonic: string)

  /** The outcome of one attempt and the calls it made. */
  datatype Attempt = Attempt(outcome: Result<Entry>, effects: seq<Effect>)

  // Destructuring a configuration: a field the entry does not have reads as undefined.

  function Caip2Of(c: ChainConfig): Option<string>
  {
    if c.EvmConfig? then Some(c.caip2) else None
  }

  function ChainIdOf(c: ChainConfig): Option<nat>
  {
    if c.EvmConfig? then Some(c.chainId) else None
  }

  function RpcOf(c: ChainConfig): Option<string>
  {
    match c
    case EvmConfig(_, _, rpc) => rpc
    case HederaConfig(_, rpc) => rpc
    case _ => None
  }

  function NetworkOf(c: ChainConfig): Option<string>
  {
    if c.HederaConfig? then Some(c.network) else None
  }

  function NodeUrlOf(c: ChainConfig): Option<string>
  {
    if c.PolkadotConfig? then c.nodeUrl else None
  }

  /** `!chainId` is false for a present, non-zero id. */
  predicate TruthyId(id: Option<nat>)
  {
    id.Some? && id.value != 0
  }

  /** The EVM case: Base and Celo. */
  function EvmAttempt(cx: DeployContext, chain: string, config: ChainConfig, io: ChainIo): Attempt
  {
    var caip2 := Caip2Of(config);
    var chainId := ChainIdOf(config);
    match cx.build
    case Compiled =>
      if !Present(caip2) || !TruthyId(chainId) || !Present(RpcOf(config)) then
        Attempt(Err("Missing EVM config"), [])
      else
        var built := [BuildUserOp(cx.wallet, chain)];
        (match io.userOp
         case Err(m) => Attempt(Err(m), built)
         case Ok(op) =>
           var sent := built + [SponsoredSend(op, cx.walletId, cx.wallet, chain)];
           match io.sponsored
           case Err(m) => Attempt(Err(m), sent)
           case Ok(None) => Attempt(Err("Failed to get transaction hash"), sent)
           case Ok(Some(h)) => Attempt(Ok(Handle(h.hash, h.userOpHash)), sent))
    case Source =>
      if !Present(caip2) || !TruthyId(chainId) then Attempt(Err("Missing EVM config"), [])
      else
        var deploy := [EvmDeploy(cx.walletId, cx.wallet, caip2.value, chainId.value)];
        match io.evmDeploy
        case Err(m) => Attempt(Err(m), deploy)
        case Ok(h) => Attempt(Ok(Text(h)), deploy)
  }

  /** The Hedera case: a transfer of 1 tinybar from the operator to the wallet. */
  function HederaAttempt(cx: DeployContext, config: ChainConfig, io: ChainIo): Attempt
  {
    var network := NetworkOf(config);
    if !Present(network) then Attempt(Err("Missing Hedera config"), [])
    else
      var transfer := [HederaTransfer(network.value, -1, cx.wallet, 1)];
      match io.hederaStatus
      case Err(m) => Attempt(Err(m), transfer)
      case Ok(status) => Attempt(Ok(Text(status)), transfer)
  }

  /** The Polkadot case: connect, transfer 1 planck, disconnect after the send returns. */
  function PolkadotAttempt(cx: DeployContext, config: ChainConfig, io: ChainIo): Attempt
  {
    var nodeUrl := NodeUrlOf(config);
    if !Present(nodeUrl) then Attempt(Err("Missing Polkadot nodeUrl"), [])
    else
      var connect := [PolkadotConnect(nodeUrl.value)];
      match io.polkadotApi
      case Err(m) => Attempt(Err(m), connect)
      case Ok(hasTransfer) =>
        if !hasTransfer then Attempt(Err("Polkadot API balances pallet missing"), connect)
        else
          var transfer := connect + [PolkadotTransfer(cx.polkadotMnemonic, cx.wallet, 1)];
          match io.polkadotSend
          case Err(m) => Attempt(Err(m), transfer)
          case Ok(hash) =>
            var closed := transfer + [PolkadotDisconnect];
            match io.polkadotDisconnect
            case Err(m) => Attempt(Err(m), closed)
            case Ok(_) => Attempt(Ok(Text(hash)), closed)
  }

  /** One iteration's `try` block: look the chain up, then dispatch on its name. */
  function AttemptChain(cx: DeployContext, chain: string, io: ChainIo): (a: Attempt)
    ensures GetChainConfig(cx.tables, cx.deployMainnet, chain).None?
            ==> a == Attempt(Err("Unsupported blockchain network"), [])
    ensures GetChainConfig(cx.tables, cx.deployMainnet, chain).Some? && chain !in Networks
            ==> a == Attempt(Err("Blockchain not yet supported"), [])
  {
    var config := GetChainConfig(cx.tables, cx.deployMainnet, chain);
    if config.None? then Attempt(Err("Unsupported blockchain network"), [])
    else if chain == Base || chain == Celo then EvmAttempt(cx, chain, config.value, io)
    else if chain == Hedera then HederaAttempt(cx, config.value, io)
    else if chain == Polkadot then PolkadotAttempt(cx, config.value, io)
    else Attempt(Err("Blockchain not yet supported"), [])
  }

  /** The entry an attempt writes: its value, or the caught error's message after "Error: ". */
  function EntryOf(a: Attempt): (e: Entry)
    ensures a.outcome.Err? ==> e == Text("Error: " + a.outcome.message)
    ensures a.outcome.Ok? ==> e == a.outcome.value
  {
    match a.outcome
    case Ok(v) => v
    case Err(m) => Text("Error: " + m)
  }

  /** The results object after the loop has run over `chains`, iteration k seeing `io(k)`. */
  function Deployed(cx: DeployContext, chains: seq<string>, io: nat -> ChainIo): map<string, Entry>
  {
    if chains == [] then map[]
    else
      var k := |chains| - 1;
      SetProperty(Deployed(cx, chains[..k], io), chains[k], EntryOf(AttemptChain(cx, chains[k], io(k))))
  }

  /** Every SDK call the loop makes over `chains`, in order. */
  function Trace(cx: DeployContext, chains: seq<string>, io: nat -> ChainIo): seq<Effect>
  {
    if chains == [] then []
    else
      var k := |chains| - 1;
      Trace(cx, chains[..k], io) + AttemptChain(cx, chains[k], io(k)).effects
  }

  /**
   * `deployWalletOnNetworks`: the results object, and the SDK calls made on the
   * way, are those of attempting the chains one at a time in input order.
   */
  method DeployWalletOnNetworks(cx: DeployContext, chains: seq<string>, io: nat -> ChainIo)
    returns (results: map<string, Entry>, calls: seq<Effect>)
    ensures results == Deployed(cx, chains, io)
    ensures calls == Trace(cx, chains, io)
    ensures results.Keys == (set c | c in chains) - {"__proto__"}
  {
    results := map[];
    calls := [];
    var i := 0;
    while i < |chains|
      invariant 0 <= i <= |chains|
      invariant results == Deployed(cx, chains[..i], io)
      invariant calls == Trace(cx, chains[..i], io)
    {
      var chain := chains[i];
      var attempt := AttemptChain(cx, chain, io(i));
      DeployedStep(cx, chains, io, i);
      results := WriteEntry(results, chain, attempt);
      calls := calls + attempt.effects;
      i := i + 1;
    }
    assert chains[..|chains|] == chains;
    DeployedKeys(cx, chains, io);
  }

  /** `results[chain] = ...` after the `try` block, or with the message in its `catch`. */
  method WriteEntry(results: map<string, Entry>, chain: string, attempt: Attempt) returns (r: map<string, Entry>)
    ensures r == SetProperty(results, chain, EntryOf(attempt))
  {
    if attempt.outcome.Ok? {
      r := SetProperty(results, chain, attempt.outcome.value);
    } else {
      r := SetProperty(results, chain, Text("Error: " + attempt.outcome.message));
    }
  }

  /** One more iteration of the loop: the chain's entry written, its calls appended. */
  lemma DeployedStep(cx: DeployContext, chains: seq<string>, io: nat -> ChainIo, i: nat)
    requires i < |chains|
    ensures var a := AttemptChain(cx, chains[i], io(i));
            Deployed(cx, chains[..i + 1], io) == SetProperty(Deployed(cx, chains[..i], io), chains[i], EntryOf(a))
            && Trace(cx, chains[..i + 1], io) == Trace(cx, chains[..i], io) + a.effects
  {
    assert chains[..i + 1][..i] == chains[..i];
  }

  /** The elements of a non-empty sequence: those before its last, and its last. */
  lemma ElementsOfSnoc(s: seq<string>, k: nat)
    requires k + 1 == |s|
    ensures (set c | c in s) == (set c | c in s[..k]) + {s[k]}
  {
    assert s == s[..k] + [s[k]];
  }

  /** The keys of the results are the requested chains, except "__proto__". */
  lemma {:induction false} DeployedKeys(cx: DeployContext, chains: seq<string>, io: nat -> ChainIo)
    ensures Deployed(cx, chains, io).Keys == (set c | c in chains) - {"__proto__"}
  {
    if chains != [] {
      var k := |chains| - 1;
      DeployedKeys(cx, chains[..k], io);
      ElementsOfSnoc(chains, k);
    }
  }

  /**
   * A chain's entry is written by its last occurrence in the input: earlier
   * attempts on the same chain are overwritten, attempts on other chains leave it alone.
   */
  lemma {:induction false} LastAttemptWins(cx: DeployContext, chains: seq<string>, io: nat -> ChainIo, j: nat)
    requires j < |chains| && chains[j] != "__proto__"
    requires forall k :: j < k < |chains| ==> chains[k] != chains[j]
    ensures chains[j] in Deployed(cx, chains, io)
    ensures Deployed(cx, chains, io)[chains[j]] == EntryOf(AttemptChain(cx, chains[j], io(j)))
  {
    var k := |chains| - 1;
    if j < k {
      assert chains[..k][j] == chains[j];
      LastAttemptWins(cx, chains[..k], io, j);
    }
  }

  /**
   * Failures are isolated: a chain's entry depends only on the answers of the
   * iterations that attempted that chain.
   */
  lemma {:induction false} EntriesAreIsolated(cx: DeployContext, chains: seq<string>,
                                              io1: nat -> ChainIo, io2: nat -> ChainIo, c: string)
    requires forall k :: 0 <= k < |chains| && chains[k] == c ==> io1(k) == io2(k)
    ensures c in Deployed(cx, chains, io1) <==> c in Deployed(cx, chains, io2)
    ensures c in Deployed(cx, chains, io1) ==> Deployed(cx, chains, io1)[c] == Deployed(cx, chains, io2)[c]
  {
    if chains != [] {
      var k := |chains| - 1;
      forall i | 0 <= i < |chains[..k]| && chains[..k][i] == c
        ensures io1(i) == io2(i)
      {
        assert chains[i] == c;
      }
      EntriesAreIsolated(cx, chains[..k], io1, io2, c);
    }
  }

  /** Every failed attempt's entry is a string starting with "Error: ". */
  lemma ErrorEntryShape(cx: DeployContext, chain: string, io: ChainIo)
    requires AttemptChain(cx, chain, io).outcome.Err?
    ensures EntryOf(AttemptChain(cx, chain, io)).Text?
    ensures StartsWith(EntryOf(AttemptChain(cx, chain, io)).text, "Error: ")
  {
  }

  /** On the real tables, a name that is neither a network nor an inherited member is unsupported. */
  lemma UnsupportedChainEntry(cx: DeployContext, env: Env, chain: string, io: ChainIo)
    requires cx.tables == LoadTables(env) && chain !in Networks && !ObjectPrototypeKey(chain)
    ensures AttemptChain(cx, chain, io) == Attempt(Err("Unsupported blockchain network"), [])
    ensures EntryOf(AttemptChain(cx, chain, io)) == Text("Error: " + "Unsupported blockchain network")
  {
    UnsupportedDiffersFromUnconfigured(env, cx.deployMainnet, chain);
  }

  /**
   * An inherited name such as "constructor" has a truthy configuration, passes
   * the lookup check, and falls to the switch's default.
   */
  lemma InheritedChainEntry(cx: DeployContext, env: Env, chain: string, io: ChainIo)
    requires cx.tables == LoadTables(env) && ObjectPrototypeKey(chain)
    ensures AttemptChain(cx, chain, io) == Attempt(Err("Blockchain not yet supported"), [])
    ensures EntryOf(AttemptChain(cx, chain, io)) == Text("Error: " + "Blockchain not yet supported")
  {
    PrototypeNamesAreInherited(env, cx.deployMainnet, chain);
  }

  /** On the real tables, an EVM chain passes the compiled check exactly when its RPC variable is set and non-empty. */
  lemma EvmReadyIffRpc(cx: DeployContext, env: Env, chain: string)
    requires cx.tables == LoadTables(env) && chain in EvmNetworks
    ensures GetChainConfig(cx.tables, cx.deployMainnet, chain).Some?
    ensures EvmReady(cx, chain) <==> Present(RpcOf(GetChainConfig(cx.tables, cx.deployMainnet, chain).value))
    ensures var c := GetChainConfig(cx.tables, cx.deployMainnet, chain).value;
            c.EvmConfig? && Present(Caip2Of(c)) && TruthyId(ChainIdOf(c))
  {
    EvmChainIds(env, cx.deployMainnet, chain);
    EvmEntriesCarryCaip2(env, cx.deployMainnet, chain);
  }

  /**
   * The compiled EVM case needs `rpc`; the TypeScript one does not. With the RPC
   * variable unset, the compiled build records "Error: Missing EVM config" and
   * calls nothing, while the TypeScript build goes on to `deployWalletOnEVM`.
   */
  lemma EvmRpcRequirement(cx: DeployContext, env: Env, chain: string, io: ChainIo)
    requires cx.tables == LoadTables(env) && chain in EvmNetworks
    requires RpcOf(GetChainConfig(cx.tables, cx.deployMainnet, chain).value).None?
    ensures cx.build == Compiled ==> AttemptChain(cx, chain, io) == Attempt(Err("Missing EVM config"), [])
    ensures cx.build == Source ==>
              var c := GetChainConfig(cx.tables, cx.deployMainnet, chain).value;
              AttemptChain(cx, chain, io).effects == [EvmDeploy(cx.walletId, cx.wallet, c.caip2, c.chainId)]
  {
    EvmReadyIffRpc(cx, env, chain);
  }

  /**
   * A compiled EVM attempt that passes the configuration check builds the user
   * operation once, sends it sponsored, and records the returned object itself;
   * a falsy return is an error.
   */
  lemma CompiledEvmSuccess(cx: DeployContext, chain: string, io: ChainIo)
    requires cx.build == Compiled && EvmReady(cx, chain)
    requires io.userOp.Ok?
    ensures AttemptChain(cx, chain, io).effects
            == [BuildUserOp(cx.wallet, chain), SponsoredSend(io.userOp.value, cx.walletId, cx.wallet, chain)]
    ensures io.sponsored.Ok? && io.sponsored.value.Some? ==>
              EntryOf(AttemptChain(cx, chain, io))
              == Handle(io.sponsored.value.value.hash, io.sponsored.value.value.userOpHash)
    ensures io.sponsored == Ok(None) ==>
              EntryOf(AttemptChain(cx, chain, io)) == Text("Error: " + "Failed to get transaction hash")
  {
    ReadyChainTakesEvmCase(cx, chain, io);
  }

  /** The engine's outcome as the loop sees it: the returned object, or the error it throws. */
  function EngineAnswer(s: GasSponsorship.Sponsorship): (r: Result<Option<GasSponsorship.TxHandle>>)
    ensures r != Ok(None)
    ensures r.Err? <==> s.result.Err?
  {
    match s.result
    case Err(m) => Err(m)
    case Ok(h) => Ok(Some(h))
  }

  /**
   * With the sponsorship engine's own answer, a ready compiled EVM attempt
   * records the relayed hash in both fields of its entry, or the engine's
   * wrapped error as an `"Error: …"` entry; the falsy-return error never occurs.
   */
  lemma CompiledEvmWithEngine(cx: DeployContext, chain: string, io: ChainIo, scx: GasSponsorship.SponsorContext,
                              balance: nat, code: string, sio: GasSponsorship.SponsorIo)
    requires cx.build == Compiled && EvmReady(cx, chain)
    requires io.userOp.Ok?
    requires io.sponsored
             == EngineAnswer(GasSponsorship.Sponsor(scx, io.userOp.value, cx.wallet, balance, code, sio))
    ensures var s := GasSponsorship.Sponsor(scx, io.userOp.value, cx.wallet, balance, code, sio);
            (s.result.Ok? ==> EntryOf(AttemptChain(cx, chain, io)) == Handle(s.result.value.hash, s.result.value.hash))
            && (s.result.Err? ==> EntryOf(AttemptChain(cx, chain, io)) == Text("Error: " + s.result.message)
                                  && StartsWith(s.result.message, GasSponsorship.WrapPrefix(scx)))
  {
    var s := GasSponsorship.Sponsor(scx, io.userOp.value, cx.wallet, balance, code, sio);
    CompiledEvmSuccess(cx, chain, io);
    GasSponsorship.ErrorsAreWrapped(scx, io.userOp.value, cx.wallet, balance, code, sio);
  }

  lemma ReadyChainTakesEvmCase(cx: DeployContext, chain: string, io: ChainIo)
    requires EvmReady(cx, chain)
    ensures AttemptChain(cx, chain, io)
            == EvmAttempt(cx, chain, GetChainConfig(cx.tables, cx.deployMainnet, chain).value, io)
  {
  }

  /**
   * Hedera on the real tables: exactly one transfer, debiting the operator by 1
   * and crediting the wallet by 1 (net zero); the entry is the receipt status.
   */
  lemma HederaTransferNetsZero(cx: DeployContext, env: Env, io: ChainIo)
    requires cx.tables == LoadTables(env)
    ensures var a := AttemptChain(cx, Hedera, io);
            |a.effects| == 1 && a.effects[0].HederaTransfer?
            && a.effects[0].operatorDelta + a.effects[0].walletDelta == 0
            && a.effects[0].wallet == cx.wallet && a.effects[0].walletDelta == 1
    ensures io.hederaStatus.Ok? ==> EntryOf(AttemptChain(cx, Hedera, io)) == Text(io.hederaStatus.value)
  {
  }

  /**
   * Polkadot: the disconnect is called exactly when the send returned, and it is
   * the attempt's last call; on every earlier error path the API stays connected.
   * The transfer amount is 1, to the wallet.
   */
  lemma PolkadotDisconnectOnlyAfterSend(cx: DeployContext, chain: string, io: ChainIo)
    requires chain == Polkadot
    ensures var a := AttemptChain(cx, chain, io);
            PolkadotDisconnect in a.effects <==>
              (a.effects != [] && io.polkadotApi == Ok(true) && io.polkadotSend.Ok?)
    ensures var a := AttemptChain(cx, chain, io);
            PolkadotDisconnect in a.effects ==> a.effects[|a.effects| - 1] == PolkadotDisconnect
    ensures var a := AttemptChain(cx, chain, io);
            forall e :: e in a.effects && e.PolkadotTransfer? ==> e.amount == 1 && e.to == cx.wallet
  {
  }

  /** With the node URL variable unset, Polkadot records "Error: Missing Polkadot nodeUrl" and connects to nothing. */
  lemma PolkadotNeedsNodeUrl(cx: DeployContext, env: Env, io: ChainIo)
    requires cx.tables == LoadTables(env)
    requires !Present(NodeUrlOf(GetChainConfig(cx.tables, cx.deployMainnet, Polkadot).value))
    ensures AttemptChain(cx, Polkadot, io) == Attempt(Err("Missing Polkadot nodeUrl"), [])
  {
  }

  /** The number of `buildUserOp` calls in a trace. */
  function CountBuilds(calls: seq<Effect>): nat
  {
    if calls == [] then 0
    else CountBuilds(calls[..|calls| - 1]) + (if calls[|calls| - 1].BuildUserOp? then 1 else 0)
  }

  /** Whether iteration k is an EVM chain whose configuration passes the compiled check. */
  predicate EvmReady(cx: DeployContext, chain: string)
  {
    var config := GetChainConfig(cx.tables, cx.deployMainnet, chain);
    config.Some? && chain in EvmNetworks
    && Present(Caip2Of(config.value)) && TruthyId(ChainIdOf(config.value)) && Present(RpcOf(config.value))
  }

  function CountReady(cx: DeployContext, chains: seq<string>): nat
  {
    if chains == [] then 0
    else CountReady(cx, chains[..|chains| - 1]) + (if EvmReady(cx, chains[|chains| - 1]) then 1 else 0)
  }

  lemma {:induction false} CountBuildsAppend(a: seq<Effect>, b: seq<Effect>)
    ensures CountBuilds(a + b) == CountBuilds(a) + CountBuilds(b)
  {
    if b != [] {
      var k := |b| - 1;
      assert (a + b)[..|a + b| - 1] == a + b[..k];
      CountBuildsAppend(a, b[..k]);
    } else {
      assert a + b == a;
    }
  }

  /** A compiled attempt calls `buildUserOp` once if its chain is ready, and never otherwise. */
  lemma AttemptBuilds(cx: DeployContext, chain: string, io: ChainIo)
    requires cx.build == Compiled
    ensures CountBuilds(AttemptChain(cx, chain, io).effects) == if EvmReady(cx, chain) then 1 else 0
  {
    var a := AttemptChain(cx, chain, io);
    if EvmReady(cx, chain) {
      var b := BuildUserOp(cx.wallet, chain);
      assert CountBuilds([b]) == 1 by { assert [b][..0] == []; }
      if io.userOp.Ok? {
        var t := SponsoredSend(io.userOp.value, cx.walletId, cx.wallet, chain);
        assert a.effects == [b, t];
        assert [b, t][..1] == [b];
      } else {
        assert a.effects == [b];
      }
    } else {
      NoBuilds(a.effects);
    }
  }

  /** In the compiled build, `buildUserOp` is called once per EVM chain whose configuration passes. */
  lemma {:induction false} BuildUserOpOncePerReadyChain(cx: DeployContext, chains: seq<string>, io: nat -> ChainIo)
    requires cx.build == Compiled
    ensures CountBuilds(Trace(cx, chains, io)) == CountReady(cx, chains)
  {
    if chains != [] {
      var k := |chains| - 1;
      BuildUserOpOncePerReadyChain(cx, chains[..k], io);
      CountBuildsAppend(Trace(cx, chains[..k], io), AttemptChain(cx, chains[k], io(k)).effects);
      AttemptBuilds(cx, chains[k], io(k));
    }
  }

  lemma {:induction false} NoBuilds(calls: seq<Effect>)
    requires forall e :: e in calls ==> !e.BuildUserOp?
    ensures CountBuilds(calls) == 0
  {
    if calls != [] {
      assert forall e :: e in calls[..|calls| - 1] ==> e in calls;
      NoBuilds(calls[..|calls| - 1]);
    }
  }

  /**
   * The results object as evidently intended: a plain dictionary in which every
   * requested chain, "__proto__" included, gets its entry.
   */
  function DeployedIntended(cx: DeployContext, chains: seq<string>, io: nat -> ChainIo): map<string, Entry>
  {
    if chains == [] then map[]
    else
      var k := |chains| - 1;
      DeployedIntended(cx, chains[..k], io)[chains[k] := EntryOf(AttemptChain(cx, chains[k], io(k)))]
  }

  lemma {:induction false} DeployedIntendedKeys(cx: DeployContext, chains: seq<string>, io: nat -> ChainIo)
    ensures DeployedIntended(cx, chains, io).Keys == set c | c in chains
  {
    if chains != [] {
      var k := |chains| - 1;
      DeployedIntendedKeys(cx, chains[..k], io);
      ElementsOfSnoc(chains, k);
    }
  }

  /** Both agree whenever "__proto__" is not requested. */
  lemma {:induction false} DeployedAgreesWithIntended(cx: DeployContext, chains: seq<string>, io: nat -> ChainIo)
    requires "__proto__" !in chains
    ensures Deployed(cx, chains, io) == DeployedIntended(cx, chains, io)
  {
    if chains != [] {
      var k := |chains| - 1;
      assert chains[k] in chains;
      assert chains == chains[..k] + [chains[k]];
      DeployedAgreesWithIntended(cx, chains[..k], io);
    }
  }

  /** Requesting "__proto__" yields no entry at all: the write reaches the prototype setter. */
  lemma ProtoChainIsDropped(cx: DeployContext, io: nat -> ChainIo)
    ensures Deployed(cx, ["__proto__"], io) == map[]
    ensures "__proto__" in DeployedIntended(cx, ["__proto__"], io)
  {
    assert ["__proto__"][..0] == [];
  }
}
