/**
  Clients of WalletConnector that replay whole sessions from a fresh module
  state; their postconditions follow from the class's contracts alone.
 */
module Scenarios {
  import opened Wrappers
  import opened Registry
  import opened ChainIdHex
  import opened Transport
  import opened ActivationErrors
  import opened Connectors
  import opened Effects
  import opened Wallet

  /**
    On Ropsten, WalletConnect fails with an unsupported chain, the switch to "0x3"
    resolves, and the connector is activated a second time without a callback.
   */
  method UnsupportedChainRecovered(e: ActivationError) returns (effects: seq<Effect>, state: ProviderState)
    requires UnsupportedChainIdError in e.instanceOf
    ensures effects == [Activate(Some(WalletConnectFor(ROPSTEN)), true),
                        SwitchRequest("wallet_switchEthereumChain", "0x3"),
                        Activate(Some(WalletConnectFor(ROPSTEN)), false)]
    ensures state == Web3Wrapper
  {
    var w := new WalletConnector();
    w.SetNet(0);
    w.LoginWalletConnect(Some(e), true, true);
    RegistryPayloads();
    effects, state := w.log, w.providerState;
  }

  /** As above, but the switch request is rejected: no retry and no alert follow. */
  method UnsupportedChainSwitchRejected(e: ActivationError) returns (effects: seq<Effect>, state: ProviderState)
    requires UnsupportedChainIdError in e.instanceOf
    ensures effects == [Activate(Some(WalletConnectFor(ROPSTEN)), true), SwitchRequest("wallet_switchEthereumChain", "0x3")]
    ensures state == ConnectorValue(Some(WalletConnectFor(ROPSTEN)))
  {
    var w := new WalletConnector();
    w.SetNet(0);
    w.LoginWalletConnect(Some(e), true, false);
    RegistryPayloads();
    effects, state := w.log, w.providerState;
  }

  /** On the BSC test network the switch request carries "0x61". */
  method BscSwitchPayload(e: ActivationError) returns (effects: seq<Effect>)
    requires UnsupportedChainIdError in e.instanceOf
    ensures effects == [Activate(Some(BscFor(BSC_TESTNET)), true), SwitchRequest("wallet_switchEthereumChain", "0x61")]
  {
    var w := new WalletConnector();
    w.SetNet(1);
    w.LoginBsc(Some(e), true, false);
    RegistryPayloads();
    effects := w.log;
  }

  /** Before any `setNet` the connectors are absent: only the misconfiguration alert is shown. */
  method LoginBeforeSetNet(e: Option<ActivationError>) returns (effects: seq<Effect>, state: ProviderState)
    ensures effects == [Alert(MISCONFIGURED_ALERT)]
    ensures state == ConnectorValue(None)
  {
    var w := new WalletConnector();
    w.LoginWalletConnect(e, true, true);
    effects, state := w.log, w.providerState;
  }

  /** Without `window.ethereum`, `loginMetamask` only alerts. */
  method MetamaskMissing(accountsGranted: bool) returns (effects: seq<Effect>, state: ProviderState)
    ensures effects == [Alert(INSTALL_METAMASK_ALERT)]
    ensures state == EmptyState
  {
    var w := new WalletConnector();
    w.SetNet(0);
    w.LoginMetamask(false, accountsGranted);
    effects, state := w.log, w.providerState;
  }

  /**
    The read-only provider is built for Ropsten on first use and is still the
    Ropsten one after selecting the BSC test network.
   */
  method StaleDefaultProvider() returns (first: Provider, second: Provider)
    ensures first == second
    ensures second.endpoint == ROPSTEN.rpcUrl && second.timeout == DEFAULT_NODE_TIMEOUT
  {
    var w := new WalletConnector();
    first := w.GetDefaultProvider();
    w.SetNet(1);
    second := w.GetDefaultProvider();
  }

  /** Logging out reports success even when `deactivate` fails, and logs one deactivation. */
  method LogoutAfterFailure() returns (done: bool, effects: seq<Effect>)
    ensures done
    ensures effects == [Deactivate(Some(InjectedFor(ROPSTEN)))]
  {
    var w := new WalletConnector();
    w.SetNet(0);
    done := w.LogoutMetamask(true);
    effects := w.log;
  }

  /**
    `ethersProviderFrom` merges a caller's config into the shared defaults in
    place: a timeout passed once is the timeout of every later provider,
    including the read-only provider `getDefaultProvider` builds.
   */
  method ConfigPersistsIntoDefaultProvider(timeout: int) returns (first: Provider, later: Provider)
    ensures first.timeout == timeout
    ensures later.endpoint == ROPSTEN.rpcUrl && later.timeout == timeout
  {
    var w := new WalletConnector();
    first := w.EthersProviderFrom("http://node.example", Some(ProviderConfig(Some(timeout))));
    later := w.GetDefaultProvider();
  }
}
