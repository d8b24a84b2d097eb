/**
 * The chain registry: the `BlockchainNetwork` identifiers, the testnet and
 * mainnet configuration tables (whose RPC and node URLs are read from the
 * environment once, when the tables are built) and `getChainConfig`, which picks
 * a table by the `DEPLOY_MAINNET` flag at lookup time.
 */
module ChainRegistry {
  import opened Js

  const Base := "base"
  const Celo := "celo"
  const Hedera := "hedera"
  const Polkadot := "polkadot"

  /** The four values of the `BlockchainNetwork` enum. */
  const Networks: set<string> := {Base, Celo, Hedera, Polkadot}

  /** The EVM chains (CAIP-2 namespace eip155). */
  const EvmNetworks: set<string> := {Base, Celo}

  /** EIP-155 chain ids of the EVM entries. */
  const BaseSepoliaId: nat := 84532
  const CeloAlfajoresId: nat := 44787
  const BaseMainnetId: nat := 8453
  const CeloMainnetId: nat := 42220

  /**
   * A value read from a configuration table. `Inherited` is what a table read
   * yields for a name that is not an own key but a member of Object.prototype:
   * a truthy value with none of the configuration fields and no `rpc` key.
   */
  datatype ChainConfig =
    | EvmConfig(caip2: string, chainId: nat, rpc: Option<string>)
    | HederaConfig(network: string, rpc: Option<string>)
    | PolkadotConfig(nodeUrl: Option<string>)
    | Inherited(member: string)

  /** `'rpc' in config`: the EVM and Hedera entries have the key, possibly with an undefined value. */
  predicate HasRpcKey(c: ChainConfig)
  {
    c.EvmConfig? || c.HederaConfig?
  }

  /** The process environment: variable name to value; a missing name reads as undefined. */
  type Env = map<string, string>

  function EnvVar(env: Env, name: string): (r: Option<string>)
    ensures r.Some? <==> name in env
  {
    if name in env then Some(env[name]) else None
  }

  /** `"eip155:" + chainId`, the CAIP-2 identifier of an EVM chain. */
  function Caip2(chainId: nat): string
  {
    "eip155:" + DecimalString(chainId)
  }

  function TestnetConfigs(env: Env): (t: map<string, ChainConfig>)
    ensures t.Keys == Networks
  {
    map[
      Base := EvmConfig("eip155:84532", BaseSepoliaId, EnvVar(env, "BASE_TESTNET_RPC")),
      Celo := EvmConfig("eip155:44787", CeloAlfajoresId, EnvVar(env, "CELO_TESTNET_RPC")),
      Hedera := HederaConfig("testnet", EnvVar(env, "HEDERA_TESTNET_RPC")),
      Polkadot := PolkadotConfig(EnvVar(env, "POLKADOT_TESTNET_RPC"))
    ]
  }

  function MainnetConfigs(env: Env): (t: map<string, ChainConfig>)
    ensures t.Keys == Networks
  {
    map[
      Base := EvmConfig("eip155:8453", BaseMainnetId, EnvVar(env, "BASE_MAINNET_RPC")),
      Celo := EvmConfig("eip155:42220", CeloMainnetId, EnvVar(env, "CELO_MAINNET_RPC")),
      Hedera := HederaConfig("mainnet", EnvVar(env, "HEDERA_MAINNET_RPC")),
      Polkadot := PolkadotConfig(EnvVar(env, "POLKADOT_MAINNET_RPC"))
    ]
  }

  /** The two tables, as the module builds them from the environment when it is loaded. */
  datatype Tables = Tables(testnet: map<string, ChainConfig>, mainnet: map<string, ChainConfig>)

  function LoadTables(env: Env): Tables
  {
    Tables(TestnetConfigs(env), MainnetConfigs(env))
  }

  /** `table[chain]` on an object literal: an own key, else an inherited member, else undefined. */
  function ReadTable(table: map<string, ChainConfig>, chain: string): Option<ChainConfig>
  {
    if chain in table then Some(table[chain])
    else if ObjectPrototypeKey(chain) then Some(Inherited(chain))
    else None
  }

  /** `process.env.DEPLOY_MAINNET === 'true'`. */
  predicate MainnetSelected(deployMainnet: Option<string>)
  {
    deployMainnet == Some("true")
  }

  /** `getChainConfig(chain)`, with the flag's value at call time. */
  function GetChainConfig(t: Tables, deployMainnet: Option<string>, chain: string): (r: Option<ChainConfig>)
    ensures var table := if MainnetSelected(deployMainnet) then t.mainnet else t.testnet;
            (r.Some? <==> chain in table || ObjectPrototypeKey(chain))
            && (chain in table ==> r == Some(table[chain]))
  {
    if MainnetSelected(deployMainnet) then ReadTable(t.mainnet, chain) else ReadTable(t.testnet, chain)
  }

  /**
   * The check the EVM helpers make before opening a provider: the entry must
   * exist and have an `rpc` key, and the value must be a non-empty string.
   */
  function ConfiguredRpc(t: Tables, deployMainnet: Option<string>, chain: string): (r: Result<string>)
    ensures r.Ok? ==> r.value != ""
  {
    var config := GetChainConfig(t, deployMainnet, chain);
    if config.None? || !HasRpcKey(config.value) then Err("No RPC URL for chain " + chain)
    else if !Present(config.value.rpc) then Err("RPC URL not configured for chain " + chain)
    else Ok(config.value.rpc.value)
  }

  /**
   * On the real tables the RPC check passes exactly for Base, Celo and Hedera
   * with their RPC variable set and non-empty; Polkadot and unknown names have
   * no `rpc` key, and a known chain with the variable unset is "not configured".
   */
  lemma ConfiguredRpcCases(env: Env, deployMainnet: Option<string>, chain: string)
    ensures var r := ConfiguredRpc(LoadTables(env), deployMainnet, chain);
            r.Ok? <==> chain in {Base, Celo, Hedera}
                       && Present(GetChainConfig(LoadTables(env), deployMainnet, chain).value.rpc)
    ensures chain == Polkadot || (chain !in Networks)
            ==> ConfiguredRpc(LoadTables(env), deployMainnet, chain) == Err("No RPC URL for chain " + chain)
    ensures chain in {Base, Celo, Hedera} && !Present(GetChainConfig(LoadTables(env), deployMainnet, chain).value.rpc)
            ==> ConfiguredRpc(LoadTables(env), deployMainnet, chain) == Err("RPC URL not configured for chain " + chain)
  {
    if chain !in Networks && ObjectPrototypeKey(chain) {
      PrototypeNamesAreInherited(env, deployMainnet, chain);
    }
  }

  /** A configuration that belongs to a production network. */
  predicate IsMainnetEntry(c: ChainConfig)
  {
    match c
    case EvmConfig(_, id, _) => id == BaseMainnetId || id == CeloMainnetId
    case HederaConfig(network, _) => network == "mainnet"
    case PolkadotConfig(_) => false
    case Inherited(_) => false
  }

  /**
   * For Base, Celo and Hedera, the entry returned is a mainnet entry exactly when
   * `DEPLOY_MAINNET` is the string "true"; any other value, or none, selects testnet.
   */
  lemma MainnetIffFlagIsTrue(env: Env, deployMainnet: Option<string>, chain: string)
    requires chain in {Base, Celo, Hedera}
    ensures GetChainConfig(LoadTables(env), deployMainnet, chain).Some?
    ensures IsMainnetEntry(GetChainConfig(LoadTables(env), deployMainnet, chain).value)
            <==> deployMainnet == Some("true")
  {
  }

  /** Every EVM entry in either table carries `caip2 == "eip155:" + chainId`. */
  lemma {:induction false} EvmEntriesCarryCaip2(env: Env, deployMainnet: Option<string>, chain: string)
    requires GetChainConfig(LoadTables(env), deployMainnet, chain).Some?
    requires GetChainConfig(LoadTables(env), deployMainnet, chain).value.EvmConfig?
    ensures var c := GetChainConfig(LoadTables(env), deployMainnet, chain).value;
            c.caip2 == Caip2(c.chainId)
  {
    BaseCaip2();
    CeloTestnetCaip2();
    CeloMainnetCaip2();
  }

  /** The CAIP-2 identifiers the tables spell out are those of their chain ids. */
  lemma BaseCaip2()
    ensures Caip2(BaseMainnetId) == "eip155:8453" && Caip2(BaseSepoliaId) == "eip155:84532"
  {
    assert DecimalString(8) == "8";
    DecimalAppend(8, 4, "8", '4');
    DecimalAppend(84, 5, "84", '5');
    DecimalAppend(845, 3, "845", '3');
    DecimalAppend(8453, 2, "8453", '2');
  }

  lemma CeloTestnetCaip2()
    ensures Caip2(CeloAlfajoresId) == "eip155:44787"
  {
    assert DecimalString(4) == "4";
    DecimalAppend(4, 4, "4", '4');
    DecimalAppend(44, 7, "44", '7');
    DecimalAppend(447, 8, "447", '8');
    DecimalAppend(4478, 7, "4478", '7');
  }

  lemma CeloMainnetCaip2()
    ensures Caip2(CeloMainnetId) == "eip155:42220"
  {
    assert DecimalString(4) == "4";
    DecimalAppend(4, 2, "4", '2');
    DecimalAppend(42, 2, "42", '2');
    DecimalAppend(422, 2, "422", '2');
    DecimalAppend(4222, 0, "4222", '0');
  }

  /** Exactly Base and Celo resolve to EVM entries, with the four expected chain ids. */
  lemma EvmChainIds(env: Env, deployMainnet: Option<string>, chain: string)
    ensures var r := GetChainConfig(LoadTables(env), deployMainnet, chain);
            (r.Some? && r.value.EvmConfig?) <==> chain in EvmNetworks
    ensures var r := GetChainConfig(LoadTables(env), deployMainnet, chain);
            r.Some? && r.value.EvmConfig? ==>
              r.value.chainId == (if MainnetSelected(deployMainnet)
                                  then (if chain == Base then BaseMainnetId else CeloMainnetId)
                                  else (if chain == Base then BaseSepoliaId else CeloAlfajoresId))
  {
  }

  /**
   * Hedera entries carry network 'testnet' or 'mainnet' and an `rpc` key;
   * Polkadot entries carry only `nodeUrl` and no `rpc` key.
   */
  lemma HederaAndPolkadotShapes(env: Env, deployMainnet: Option<string>)
    ensures var h := GetChainConfig(LoadTables(env), deployMainnet, Hedera);
            h.Some? && h.value.HederaConfig? && HasRpcKey(h.value)
            && h.value.network in {"testnet", "mainnet"}
    ensures var p := GetChainConfig(LoadTables(env), deployMainnet, Polkadot);
            p.Some? && p.value.PolkadotConfig? && !HasRpcKey(p.value)
  {
  }

  /**
   * A name that is neither a network nor an Object.prototype member is
   * unsupported (undefined); a network is always found, even when its RPC or
   * node URL variable is unset, so "unsupported" and "not configured" differ.
   */
  lemma UnsupportedDiffersFromUnconfigured(env: Env, deployMainnet: Option<string>, chain: string)
    ensures chain !in Networks && !ObjectPrototypeKey(chain)
            ==> GetChainConfig(LoadTables(env), deployMainnet, chain).None?
    ensures chain in Networks ==> GetChainConfig(LoadTables(env), deployMainnet, chain).Some?
    ensures chain == Base && "BASE_TESTNET_RPC" !in env && !MainnetSelected(deployMainnet)
            ==> GetChainConfig(LoadTables(env), deployMainnet, chain) == Some(EvmConfig("eip155:84532", BaseSepoliaId, None))
  {
  }

  /** An Object.prototype member name reads as a truthy inherited value without an `rpc` key. */
  lemma PrototypeNamesAreInherited(env: Env, deployMainnet: Option<string>, chain: string)
    requires ObjectPrototypeKey(chain)
    ensures GetChainConfig(LoadTables(env), deployMainnet, chain) == Some(Inherited(chain))
    ensures !HasRpcKey(Inherited(chain))
  {
  }
}
