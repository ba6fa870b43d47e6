/**
  The mutable state of src/components/WalletConnector.js and the functions that
  change it. The module-level variables (`netid`, the cached read-only
  `provider`, the three connectors, the shared default configuration) and the
  hook's React `provider` state are fields of one object; `activate`,
  `deactivate`, alerts and wallet requests are entries appended to `log`.
  Outcomes decided outside the file (whether `window.ethereum` exists, whether
  a wallet request resolves, the error `activate` reports) are parameters.
 */
module Wallet {
  import opened Wrappers
  import opened Registry
  import opened ChainIdHex
  import opened Transport
  import opened ActivationErrors
  import opened Connectors
  import opened Effects

  class WalletConnector {
    /** Index of the selected network in NETLIST. */
    var netid: nat
    /** The read-only provider cache filled by GetDefaultProvider. */
    var cachedProvider: Option<Provider>
    /** `defaultConfig.nodetimeout`, shared by every provider built. */
    var nodeTimeout: int
    var walletconnect: Option<Connector>
    var injected: Option<Connector>
    var bsc: Option<Connector>
    /** The hook's React `provider` state. */
    var providerState: ProviderState
    /** Every effect performed so far, oldest first. */
    var log: seq<Effect>

    /**
      The selected index is in range, and the connectors are either not built yet
      or all three built for the selected network.
     */
    ghost predicate Valid()
      reads this
    {
      && ValidIndex(netid)
      && ((walletconnect.None? && injected.None? && bsc.None?)
          || (walletconnect == Some(WalletConnectFor(NETLIST[netid]))
              && injected == Some(InjectedFor(NETLIST[netid]))
              && bsc == Some(BscFor(NETLIST[netid]))))
    }

    /** Module load and the hook's first render. */
    constructor ()
      ensures Valid()
      ensures netid == 0 && cachedProvider == None && nodeTimeout == DEFAULT_NODE_TIMEOUT
      ensures walletconnect == None && injected == None && bsc == None
      ensures providerState == EmptyState && log == []
    {
      netid := 0;
      cachedProvider := None;
      nodeTimeout := DEFAULT_NODE_TIMEOUT;
      walletconnect, injected, bsc := None, None, None;
      providerState := EmptyState;
      log := [];
    }

    /**
      `ethersProviderFrom`: merges `config` into the shared default configuration
      (in place) and builds a provider of the class the endpoint calls for.
     */
    method EthersProviderFrom(endpoint: string, config: Option<ProviderConfig>) returns (p: Provider)
      requires Valid()
      modifies this`nodeTimeout
      ensures Valid()
      ensures nodeTimeout == MergedTimeout(old(nodeTimeout), config)
      ensures p.endpoint == endpoint && p.timeout == nodeTimeout
      ensures p.providerClass == ProviderClassFor(endpoint)
    {
      nodeTimeout := MergedTimeout(nodeTimeout, config);
      var providerClass := ProviderClassFor(endpoint);
      p := Provider(providerClass, endpoint, nodeTimeout);
    }

    /**
      `getDefaultProvider`: builds the provider for the selected network on the first
      call only; every later call returns the cached one, whatever network is selected then.
     */
    method GetDefaultProvider() returns (p: Provider)
      requires Valid()
      modifies this`cachedProvider, this`nodeTimeout
      ensures Valid()
      ensures cachedProvider == Some(p)
      ensures nodeTimeout == old(nodeTimeout)
      ensures old(cachedProvider).Some? ==> p == old(cachedProvider).value
      ensures old(cachedProvider).None? ==>
        p == Provider(ProviderClassFor(NETLIST[netid].rpcUrl), NETLIST[netid].rpcUrl, nodeTimeout)
    {
      if cachedProvider.None? {
        var built := EthersProviderFrom(NETLIST[netid].rpcUrl, None);
        cachedProvider := Some(built);
      }
      p := cachedProvider.value;
    }

    /**
      `setNet(id)`: selects a network and rebuilds the three connectors for it.
      The read-only provider cache is left as it is.
     */
    method SetNet(id: nat)
      requires ValidIndex(id)
      modifies this`netid, this`walletconnect, this`injected, this`bsc
      ensures Valid()
      ensures netid == id
      ensures walletconnect == Some(WalletConnectFor(NETLIST[id]))
      ensures injected == Some(InjectedFor(NETLIST[id]))
      ensures bsc == Some(BscFor(NETLIST[id]))
      ensures cachedProvider == old(cachedProvider)
    {
      netid := id;
      walletconnect := Some(WalletConnectFor(NETLIST[netid]));
      injected := Some(InjectedFor(NETLIST[netid]));
      bsc := Some(BscFor(NETLIST[netid]));
    }

    /**
      `setupNetwork`: asks the wallet to switch to the selected chain. `hasEthereum`
      says whether `window.ethereum` exists, `switchSucceeds` whether the request resolves.
     */
    method SetupNetwork(hasEthereum: bool, switchSucceeds: bool) returns (ok: bool)
      requires Valid()
      modifies this`log, this`providerState
      ensures Valid()
      ensures ok == SetupNetworkResult(hasEthereum, switchSucceeds)
      ensures log == old(log) + SetupNetworkEffects(hasEthereum, NETLIST[netid].chainId)
      ensures providerState == if ok then Web3Wrapper else old(providerState)
    {
      if hasEthereum {
        log := log + [SwitchRequest(SWITCH_METHOD, SwitchPayload(NETLIST[netid].chainId))];
        if switchSucceeds {
          providerState := Web3Wrapper;
          ok := true;
        } else {
          ok := false;
        }
      } else {
        ok := false;
      }
    }

    /**
      `loginMetamask`: without `window.ethereum` it alerts and stops; otherwise it
      requests the accounts and, only when that succeeds, sets the Web3 provider
      and activates the injected connector without an error callback.
     */
    method LoginMetamask(hasEthereum: bool, accountsGranted: bool)
      requires Valid()
      modifies this`log, this`providerState
      ensures Valid()
      ensures log == old(log) + LoginMetamaskEffects(hasEthereum, accountsGranted, injected)
      ensures providerState == if hasEthereum && accountsGranted then Web3Wrapper else old(providerState)
    {
      if !hasEthereum {
        log := log + [Alert(INSTALL_METAMASK_ALERT)];
        return;
      }
      log := log + [RequestAccounts];
      if accountsGranted {
        providerState := Web3Wrapper;
        log := log + [Activate(injected, false)];
      }
    }

    /**
      `loginWallet(connector)`: activates the connector with the error callback, then
      sets the React provider to the connector; the callback, which runs afterwards,
      classifies `error` and either retries once through `setupNetwork` or alerts.
     */
    method LoginWallet(connector: Option<Connector>, error: Option<ActivationError>,
                       hasEthereum: bool, switchSucceeds: bool)
      requires Valid()
      modifies this`log, this`providerState
      ensures Valid()
      ensures log == old(log) + LoginWalletEffects(connector, error, hasEthereum, switchSucceeds, NETLIST[netid].chainId)
      ensures providerState == LoginWalletProviderState(connector, error, hasEthereum, switchSucceeds)
    {
      if connector.Some? {
        log := log + [Activate(connector, true)];
      } else {
        log := log + [Alert(MISCONFIGURED_ALERT)];
      }
      providerState := ConnectorValue(connector);
      if connector.Some? && error.Some? {
        var outcome := Classify(error.value);
        if outcome.SwitchNetwork? {
          var hasSetup := SetupNetwork(hasEthereum, switchSucceeds);
          if hasSetup {
            log := log + [Activate(connector, false)];
          }
        } else {
          log := log + [Alert(AlertText(outcome))];
        }
      }
    }

    /** `loginWalletConnect`: `loginWallet` on the WalletConnect connector. */
    method LoginWalletConnect(error: Option<ActivationError>, hasEthereum: bool, switchSucceeds: bool)
      requires Valid()
      modifies this`log, this`providerState
      ensures Valid()
      ensures log == old(log) + LoginWalletEffects(walletconnect, error, hasEthereum, switchSucceeds, NETLIST[netid].chainId)
      ensures providerState == LoginWalletProviderState(walletconnect, error, hasEthereum, switchSucceeds)
    {
      LoginWallet(walletconnect, error, hasEthereum, switchSucceeds);
    }

    /** `loginBSC`: `loginWallet` on the Binance Chain connector. */
    method LoginBsc(error: Option<ActivationError>, hasEthereum: bool, switchSucceeds: bool)
      requires Valid()
      modifies this`log, this`providerState
      ensures Valid()
      ensures log == old(log) + LoginWalletEffects(bsc, error, hasEthereum, switchSucceeds, NETLIST[netid].chainId)
      ensures providerState == LoginWalletProviderState(bsc, error, hasEthereum, switchSucceeds)
    {
      LoginWallet(bsc, error, hasEthereum, switchSucceeds);
    }

    /**
      The four logout functions pass a connector and an error callback to
      `deactivate` and return true. `deactivateFailed` stands for whatever
      `deactivate` reports; the return value does not depend on it.
     */
    method LogoutWalletConnector(deactivateFailed: bool) returns (done: bool)
      requires Valid()
      modifies this`log
      ensures Valid()
      ensures done
      ensures log == old(log) + [Deactivate(walletconnect)]
    {
      log := log + [Deactivate(walletconnect)];
      done := true;
    }

    method LogoutMetamask(deactivateFailed: bool) returns (done: bool)
      requires Valid()
      modifies this`log
      ensures Valid()
      ensures done
      ensures log == old(log) + [Deactivate(injected)]
    {
      log := log + [Deactivate(injected)];
      done := true;
    }

    method LogoutWalletConnect(deactivateFailed: bool) returns (done: bool)
      requires Valid()
      modifies this`log
      ensures Valid()
      ensures done
      ensures log == old(log) + [Deactivate(walletconnect)]
    {
      log := log + [Deactivate(walletconnect)];
      done := true;
    }

    method LogoutBsc(deactivateFailed: bool) returns (done: bool)
      requires Valid()
      modifies this`log
      ensures Valid()
      ensures done
      ensures log == old(log) + [Deactivate(bsc)]
    {
      log := log + [Deactivate(bsc)];
      done := true;
    }
  }
}
