/**
  The three connectors `setNet` builds for the selected network. A connector is
  represented by its kind and the configuration it is constructed with.
 */
module Connectors {
  import opened Registry

  const WALLETCONNECT_POLLING_INTERVAL := 12000

  datatype Connector =
    | WalletConnectConnector(rpc: map<nat, string>, qrcode: bool, pollingInterval: nat)
    | InjectedConnector(supportedChainIds: seq<nat>)
    | BscConnector(supportedChainIds: seq<nat>)

  /** Whether a connector is configured to accept the given chain id. */
  predicate Accepts(c: Connector, chainId: nat) {
    match c
    case WalletConnectConnector(rpc, _, _) => chainId in rpc
    case InjectedConnector(ids) => chainId in ids
    case BscConnector(ids) => chainId in ids
  }

  /** The WalletConnect connector: one RPC route, for the network's own chain id. */
  function WalletConnectFor(net: NetworkDescriptor): (c: Connector)
    ensures c.WalletConnectConnector? && c.qrcode
    ensures forall id :: Accepts(c, id) <==> id == net.chainId
    ensures net.chainId in c.rpc && c.rpc[net.chainId] == net.rpcUrl
  {
    WalletConnectConnector(map[net.chainId := net.rpcUrl], true, WALLETCONNECT_POLLING_INTERVAL)
  }

  /** The injected (browser wallet) connector, restricted to the network's chain id. */
  function InjectedFor(net: NetworkDescriptor): (c: Connector)
    ensures c.InjectedConnector?
    ensures forall id :: Accepts(c, id) <==> id == net.chainId
  {
    InjectedConnector([net.chainId])
  }

  /** The Binance Chain connector, restricted to the network's chain id. */
  function BscFor(net: NetworkDescriptor): (c: Connector)
    ensures c.BscConnector?
    ensures forall id :: Accepts(c, id) <==> id == net.chainId
  {
    BscConnector([net.chainId])
  }

  /**
    A connector built for registry entry `i` accepts the chain id of entry `j`
    only when `i == j`: after the network changes, no connector built for it
    accepts the previous network's chain.
   */
  lemma ScopedToOneNetwork(i: nat, j: nat)
    requires ValidIndex(i) && ValidIndex(j)
    ensures Accepts(WalletConnectFor(NETLIST[i]), NETLIST[j].chainId) <==> i == j
    ensures Accepts(InjectedFor(NETLIST[i]), NETLIST[j].chainId) <==> i == j
    ensures Accepts(BscFor(NETLIST[i]), NETLIST[j].chainId) <==> i == j
  {
    ChainIdsUnique(i, j);
  }
}
