# Wallet connector: network selection, connectors and login state machine

A model of `src/components/WalletConnector.js`. That file lets a dapp log in
through one of three wallet backends:
- MetaMask, through the injected `window.ethereum`;
- WalletConnect;
- the Binance Chain wallet.

It works on one of two test networks, Ropsten (chain id 3) and the BSC test
network (chain id 97). The model covers these parts:

- **Registry** (`registry.dfy`): the fixed `netlist` table. Chain ids are unique.
- **ChainIdHex** (`chain_id_hex.dfy`): the chain id sent with
  `wallet_switchEthereumChain` (EIP-3326). It is `"0x"` followed by
  `toString(16)`: lower-case digits with no padding. A parser is proved to be
  its inverse in both directions.
- **Transport** (`transport.dfy`): `ethersProviderFrom` picks the provider
  class with `endpoint.includes("wss")`. `String.prototype.includes` is
  modelled as a left-to-right scan. That scan is proved equal to "occurs
  somewhere".
- **ActivationErrors** (`activation_errors.dfy`): the `instanceof` chain in
  the error callback of `loginWallet`. An error object is modelled by the set
  of error classes it belongs to. The outcome is proved to be that of its
  first-tested class.
- **Connectors** (`connectors.dfy`): the three connectors `setNet` builds.
  Each one accepts exactly the selected chain id.
- **Effects** (`effects.dfy`): pure definitions of what each login flow
  appends to an effect log, for given outcomes of the outside world. The
  lemmas state what each flow promises about activations, switch requests
  and alerts.
- **Wallet** (`wallet.dfy`): class `WalletConnector` holds the mutable state:
  - the module variables `netid`, the cached read-only `provider`,
    `walletconnect`, `injected`, `bsc` and `defaultConfig.nodetimeout`;
  - the hook's React `provider` state;
  - an append-only `log` of the effects `activate`, `deactivate`, `alert`,
    the switch request and `eth_requestAccounts`.

  `SetupNetwork`, `LoginMetamask`, `LoginWallet`, `LoginWalletConnect` and
  `LoginBsc` are proved to append exactly what the Effects definitions give.
  The constructor, `EthersProviderFrom`, `GetDefaultProvider`, `SetNet` and
  the four logouts state their new state directly. Every method requires and
  ensures the invariant `Valid()`: the selected index is in range, and the
  connectors are either absent or all built for the selected network.
- **Scenarios** (`scenarios.dfy`): clients that replay whole sessions from a
  fresh state, using only the class contracts.

These outcomes come from outside the file and are method parameters:
- whether `window.ethereum` exists;
- whether `eth_requestAccounts` or `wallet_switchEthereumChain` resolves;
- the error `activate` hands to its callback (`None` when activation
  succeeds);
- whether `deactivate` fails.

## Behaviour of the code worth knowing

- `setNet` does not clear the read-only provider cache. After a network
  change, `getDefaultProvider` keeps returning the provider built for the
  network selected at its first call (`Scenarios.StaleDefaultProvider`).
- The switch payload has no zero padding: 3 becomes `"0x3"` and 97 becomes
  `"0x61"`.
- `ethersProviderFrom` merges its config into the shared `defaultConfig` in
  place. A `nodetimeout` passed once is used by every later provider,
  including the one `getDefaultProvider` builds. So a provider built without
  a config has timeout 10000 only while no caller has passed another timeout
  (`Scenarios.ConfigPersistsIntoDefaultProvider`).
- The transport test is a substring test anywhere in the endpoint, not a
  scheme test (`Transport.WssAnywhereSelectsWebSocket`).
- A login has no in-progress state, and nothing stops a second login from
  starting while the first is still pending.
- The retried `activate(connector)` has no error callback, so its error is
  never classified or reported.
- `loginMetamask` calls `activate(injected)` without a callback, so its
  errors are not classified either.
- `setNet` has no range check. With an index outside `netlist`, it assigns
  `netid` first, and then reading `netlist[id].chaind` throws. The connectors
  keep their previous values. The model requires a valid index.
- `loginWallet` calls `setProvider(connector)` even when the connector is
  absent, and after a failed activation.
- `activate` awaits the connector before it calls the error callback. So
  `setProvider(connector)` takes effect before anything the callback does. On
  a successful switch the final React provider is the `Web3Provider` that
  `setupNetwork` set.

## Model

| member | source | states |
|---|---|---|
| Registry.ChainIdsUnique | src/components/WalletConnector.js:12-31 | two registry entries have the same chain id exactly when they are the same entry |
| ChainIdHex.ToHex | src/components/WalletConnector.js:90 | the hex text of a chain id is canonical: non-empty, lower-case digits, no leading zero, and it starts with '0' only for zero |
| ChainIdHex.SwitchPayload | src/components/WalletConnector.js:90 | the switch payload always starts with "0x" and has at least one digit after it |
| ChainIdHex.HexValueOfToHex | src/components/WalletConnector.js:90 | reading back the digits of `toString(16)` gives the number written |
| ChainIdHex.ParseToHex | src/components/WalletConnector.js:90 | parsing the hex text of any chain id succeeds and yields that id |
| ChainIdHex.ToHexOfHexValue | src/components/WalletConnector.js:90 | every canonical hex string is exactly the text written for its value (the other direction of the round trip) |
| ChainIdHex.PayloadRoundTrip | src/components/WalletConnector.js:86-93 | parsing the digits after "0x" in the switch payload gives back the chain id |
| ChainIdHex.PayloadOfParse | src/components/WalletConnector.js:90 | a "0x" payload with canonical digits is exactly the payload of the id it parses to |
| ChainIdHex.PayloadInjective | src/components/WalletConnector.js:90 | distinct chain ids are sent as distinct payloads |
| ChainIdHex.RegistryPayloads | src/components/WalletConnector.js:90 | chain id 3 is sent as "0x3" and 97 as "0x61" |
| Transport.IncludesSpec | src/components/WalletConnector.js:44 | the `includes` scan succeeds exactly when the substring occurs at some position |
| Transport.ProviderClassChoice | src/components/WalletConnector.js:44-46 | the WebSocket provider is chosen exactly when "wss" occurs in the endpoint, and the JSON-RPC provider exactly when it occurs nowhere |
| Transport.WssAnywhereSelectsWebSocket | src/components/WalletConnector.js:44-46 | any endpoint containing "wss" anywhere, not only in its scheme, gets the WebSocket provider |
| ActivationErrors.ClassifyByPriority | src/components/WalletConnector.js:132-148 | an error of none of the five classes is reported by name and message; otherwise its outcome is that of a class it belongs to whose test comes first (unsupported chain, then provider missing, then user rejected) |
| ActivationErrors.ClassifyIgnoresText | src/components/WalletConnector.js:132-148 | for errors of a listed class, the outcome depends on the classes only, never on name or message |
| Connectors.WalletConnectFor | src/components/WalletConnector.js:63-67 | the WalletConnect connector accepts exactly the network's chain id, routes it to the network's RPC URL, and shows a QR code |
| Connectors.InjectedFor | src/components/WalletConnector.js:69-71 | the injected connector accepts exactly the network's chain id |
| Connectors.BscFor | src/components/WalletConnector.js:73-75 | the Binance Chain connector accepts exactly the network's chain id |
| Connectors.ScopedToOneNetwork | src/components/WalletConnector.js:60-76 | a connector built for entry i accepts the chain id of entry j exactly when i == j, so none accepts a previously selected network |
| Effects.LoginWalletActivations | src/components/WalletConnector.js:129-154 | an absent connector is never activated; a present one is activated once with the callback, and once more without one exactly when the error is an unsupported chain and the switch succeeded |
| Effects.LoginWalletSwitchRequests | src/components/WalletConnector.js:82-136 | exactly one `wallet_switchEthereumChain` request, carrying the selected chain's payload, is sent when a present connector fails with an unsupported chain and `window.ethereum` exists; otherwise none |
| Effects.LoginWalletAlerts | src/components/WalletConnector.js:129-152 | at most one alert: the misconfiguration alert for an absent connector, the classified alert for any other error except an unsupported chain, none on success or on the switch path whether or not the switch succeeds |
| Effects.LoginWalletProviderOnRetry | src/components/WalletConnector.js:94-153 | the React provider ends as the wallet's Web3 provider exactly when `loginWallet` retries, and as the (possibly absent) connector otherwise |
| Effects.LoginMetamaskOutcome | src/components/WalletConnector.js:105-119 | `loginMetamask` alerts only when `window.ethereum` is missing, and activates the injected connector, without callback, only after `eth_requestAccounts` succeeds |
| Wallet.WalletConnector.constructor | src/components/WalletConnector.js:8-40 | initial state: network 0, no cached provider, timeout 10000, no connectors, empty React provider state, empty log |
| Wallet.WalletConnector.EthersProviderFrom | src/components/WalletConnector.js:42-51 | merges the config into the shared default timeout in place, keeps `Valid()`, and builds a provider for the endpoint with the class `ProviderClassFor` picks and the merged timeout |
| Wallet.WalletConnector.GetDefaultProvider | src/components/WalletConnector.js:53-58 | builds the provider for the selected network only when the cache is empty; otherwise returns the cached provider unchanged |
| Wallet.WalletConnector.SetNet | src/components/WalletConnector.js:60-76 | selects the network and rebuilds all three connectors for it; keeps `Valid()`; leaves the provider cache as it was |
| Wallet.WalletConnector.SetupNetwork | src/components/WalletConnector.js:82-103 | returns true exactly when `window.ethereum` exists and the switch resolves; sends the request only when `window.ethereum` exists; sets the Web3 provider only on success |
| Wallet.WalletConnector.LoginMetamask | src/components/WalletConnector.js:105-119 | appends exactly `LoginMetamaskEffects` for the given outcomes, and sets the Web3 provider only when the accounts request succeeds |
| Wallet.WalletConnector.LoginWallet | src/components/WalletConnector.js:129-154 | appends exactly `LoginWalletEffects` for the given connector and outcomes on the selected chain, and leaves the React provider at `LoginWalletProviderState` |
| Wallet.WalletConnector.LoginWalletConnect | src/components/WalletConnector.js:121-123 | is `loginWallet` on the current WalletConnect connector |
| Wallet.WalletConnector.LoginBsc | src/components/WalletConnector.js:125-127 | is `loginWallet` on the current Binance Chain connector |
| Wallet.WalletConnector.LogoutWalletConnector | src/components/WalletConnector.js:156-162 | returns true whatever `deactivate` reports, and passes the WalletConnect connector to `deactivate` once |
| Wallet.WalletConnector.LogoutMetamask | src/components/WalletConnector.js:164-170 | returns true whatever `deactivate` reports, and passes the injected connector to `deactivate` once |
| Wallet.WalletConnector.LogoutWalletConnect | src/components/WalletConnector.js:172-178 | returns true whatever `deactivate` reports, and passes `deactivate` the same WalletConnect connector as `logoutWalletConnector` |
| Wallet.WalletConnector.LogoutBsc | src/components/WalletConnector.js:180-186 | returns true whatever `deactivate` reports, and passes the Binance Chain connector to `deactivate` once |
| Scenarios.UnsupportedChainRecovered | src/components/WalletConnector.js:129-136 | on Ropsten, an unsupported-chain error followed by a successful switch gives: activate with callback, switch "0x3", activate without callback; the React provider ends as the Web3 provider |
| Scenarios.UnsupportedChainSwitchRejected | src/components/WalletConnector.js:129-136 | when the switch is rejected, the session ends after the switch request, with no retry and no alert |
| Scenarios.BscSwitchPayload | src/components/WalletConnector.js:90 | on the BSC test network the switch request carries "0x61" |
| Scenarios.LoginBeforeSetNet | src/components/WalletConnector.js:150-153 | before any `setNet` the connectors are absent: only the misconfiguration alert, no activation or switch, and the React provider is set to the absent connector |
| Scenarios.MetamaskMissing | src/components/WalletConnector.js:105-110 | without `window.ethereum`, `loginMetamask` only alerts and leaves the React provider untouched |
| Scenarios.StaleDefaultProvider | src/components/WalletConnector.js:53-76 | the read-only provider built on Ropsten is returned again after selecting the BSC test network, with the Ropsten endpoint and timeout 10000 |
| Scenarios.ConfigPersistsIntoDefaultProvider | src/components/WalletConnector.js:42-58 | a `nodetimeout` passed once to `ethersProviderFrom` is written into the shared defaults, so the read-only provider built afterwards by `getDefaultProvider` uses that timeout too |
| Scenarios.LogoutAfterFailure | src/components/WalletConnector.js:164-170 | a logout whose deactivation fails still returns true, and passes the injected connector to `deactivate` once |

## Left out

- React hooks (`useState`, `useCallback`, `useWeb3React`) and re-rendering are
  not modelled. One hook instance is assumed, and its `provider` state is a
  field of the same object as the module state.
- web3-react's own session state (active connector, account, stored error)
  is not modelled. `activate` and `deactivate` are logged effects, and the
  outcome of the unclassified retry is not modelled.
- ethers providers, the Infura and BSC endpoints and all network I/O are not
  modelled. A provider is only the class chosen, its endpoint and its
  timeout.
- The internals of `window.ethereum.request`, the WalletConnect QR flow and
  the Binance Chain connector are not modelled. Their results are
  parameters.
- Asynchrony is not modelled: every flow runs to completion in one call, in
  the order the JavaScript event loop would run it.
- `console.log` and `console.error` output is not modelled; alerts keep only
  their text.
- A connector is modelled as a value (its kind and configuration), so two
  `setNet` calls for the same index give equal connectors. Object identity
  is not modelled.
- Of the configuration, only `nodetimeout` is modelled. `testing`,
  `autoGasMultiplier` (a float), `defaultConfirmations` and the gas strings
  do not affect the behaviour modelled.
- The chain ids are modelled as natural numbers. A non-integer or negative
  chain id (with `toString(16)` output such as `"-3"`) cannot occur in the
  registry.
- That the two registry endpoints select the JSON-RPC provider is not proved.
- What web3-react does with the connector and the error callback passed to
  `deactivate` is not modelled. The log records only the connector passed.
