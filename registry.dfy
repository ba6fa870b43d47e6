/**
  The fixed table of networks the wallet connector can be bound to
  (`netlist` in src/components/WalletConnector.js). The table is never
  mutated; it is only indexed by the selected network index.
 */
module Registry {

  /** One entry of `netlist`. The source spells the chain id field `chaind`. */
  datatype NetworkDescriptor = NetworkDescriptor(
    chainId: nat,
    rpcUrl: string,
    blockUrl: string,
    chainName: string,
    chainNetName: string,
    chainSymbol: string,
    chainDecimals: nat)

  const ROPSTEN := NetworkDescriptor(
    3,
    "https://ropsten.infura.io/v3/9aa3d95b3bc440fa88ea12eaa4456161",
    "https://ropsten.etherscan.io/",
    "Ropsten Test Network",
    "RPS",
    "ETH",
    18)

  const BSC_TESTNET := NetworkDescriptor(
    97,
    "https://data-seed-prebsc-1-s1.binance.org:8545",
    "https://testnet.bscscan.com/",
    "Bnb Chain Test net",
    "RPS",
    "BNB",
    18)

  /** Index 0 is Ropsten, index 1 the BSC test network. */
  const NETLIST: seq<NetworkDescriptor> := [ROPSTEN, BSC_TESTNET]

  predicate ValidIndex(i: int) {
    0 <= i < |NETLIST|
  }

  /** Distinct registry entries have distinct chain ids, so a chain id names its entry. */
  lemma ChainIdsUnique(i: nat, j: nat)
    requires ValidIndex(i) && ValidIndex(j)
    ensures NETLIST[i].chainId == NETLIST[j].chainId <==> i == j
  {
  }
}
