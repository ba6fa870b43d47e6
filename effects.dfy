/**
  The observable effects of the login and logout functions of
  `useWalletConnector`, and pure definitions of what each flow appends to the
  effect log for given external outcomes. The class in module Wallet is proved
  to append exactly these; the lemmas here state what the flows promise.
 */
module Effects {
  import opened Wrappers
  import opened ChainIdHex
  import opened ActivationErrors
  import opened Connectors

  /** The React `provider` state of the hook. */
  datatype ProviderState =
    | EmptyState                                    // useState({})
    | Web3Wrapper                                   // new Web3Provider(window.ethereum)
    | ConnectorValue(connector: Option<Connector>)  // setProvider(connector), possibly undefined

  datatype Effect =
    | Activate(connector: Option<Connector>, withCallback: bool)
    | Deactivate(connector: Option<Connector>)
    | Alert(message: string)
    | SwitchRequest(rpcMethod: string, chainIdHex: string)
    | RequestAccounts                     // eth_requestAccounts

  const MISCONFIGURED_ALERT := "Unable to find connector: The connector config is wrong"
  const INSTALL_METAMASK_ALERT := "Please install Metamask!"

  predicate IsActivation(e: Effect) { e.Activate? }
  predicate IsAlert(e: Effect) { e.Alert? }
  predicate IsSwitchRequest(e: Effect) { e.SwitchRequest? }

  /** The entries of `effs` that satisfy `keep`, in order. */
  function Filter(effs: seq<Effect>, keep: Effect -> bool): (r: seq<Effect>)
    ensures |r| <= |effs|
    ensures forall e :: e in r ==> e in effs && keep(e)
  {
    if effs == [] then []
    else (if keep(effs[0]) then [effs[0]] else []) + Filter(effs[1..], keep)
  }

  lemma {:induction false} FilterAppend(a: seq<Effect>, b: seq<Effect>, keep: Effect -> bool)
    ensures Filter(a + b, keep) == Filter(a, keep) + Filter(b, keep)
    decreases |a|
  {
    if a == [] {
      assert a + b == b;
    } else {
      assert (a + b)[1..] == a[1..] + b;
      FilterAppend(a[1..], b, keep);
    }
  }

  /** `setupNetwork`: the switch request is sent only when `window.ethereum` exists. */
  function SetupNetworkEffects(hasEthereum: bool, chainId: nat): seq<Effect> {
    if hasEthereum then [SwitchRequest(SWITCH_METHOD, SwitchPayload(chainId))] else []
  }

  /** `setupNetwork` resolves to true only when the switch request itself resolved. */
  function SetupNetworkResult(hasEthereum: bool, switchSucceeds: bool): bool {
    hasEthereum && switchSucceeds
  }

  /** The error callback `loginWallet` passes to `activate`. */
  function CallbackEffects(connector: Connector, e: ActivationError, hasEthereum: bool,
                           switchSucceeds: bool, chainId: nat): seq<Effect>
  {
    var outcome := Classify(e);
    if outcome.SwitchNetwork? then
      SetupNetworkEffects(hasEthereum, chainId)
        + (if SetupNetworkResult(hasEthereum, switchSucceeds) then [Activate(Some(connector), false)] else [])
    else
      [Alert(AlertText(outcome))]
  }

  /**
    `loginWallet(connector)`: `error` is what `activate` reports (None when it
    succeeds), `hasEthereum` and `switchSucceeds` the outcomes `setupNetwork` meets.
   */
  function LoginWalletEffects(connector: Option<Connector>, error: Option<ActivationError>,
                              hasEthereum: bool, switchSucceeds: bool, chainId: nat): seq<Effect>
  {
    if connector.None? then [Alert(MISCONFIGURED_ALERT)]
    else
      [Activate(connector, true)]
        + (if error.Some? then CallbackEffects(connector.value, error.value, hasEthereum, switchSucceeds, chainId) else [])
  }

  /**
    The React provider state after `loginWallet`: `setProvider(connector)` runs
    before the error callback, which replaces it only through a successful `setupNetwork`.
   */
  function LoginWalletProviderState(connector: Option<Connector>, error: Option<ActivationError>,
                                    hasEthereum: bool, switchSucceeds: bool): ProviderState
  {
    if connector.Some? && error.Some? && Classify(error.value).SwitchNetwork?
       && SetupNetworkResult(hasEthereum, switchSucceeds)
    then Web3Wrapper
    else ConnectorValue(connector)
  }

  /** `loginMetamask` with the given `window.ethereum` presence and `eth_requestAccounts` outcome. */
  function LoginMetamaskEffects(hasEthereum: bool, accountsGranted: bool, injected: Option<Connector>): seq<Effect> {
    if !hasEthereum then [Alert(INSTALL_METAMASK_ALERT)]
    else [RequestAccounts] + (if accountsGranted then [Activate(injected, false)] else [])
  }

  /** Whether `loginWallet` retries: the first error is an unsupported chain and the switch went through. */
  predicate Retries(connector: Option<Connector>, error: Option<ActivationError>, hasEthereum: bool, switchSucceeds: bool) {
    connector.Some? && error.Some? && UnsupportedChainIdError in error.value.instanceOf
    && hasEthereum && switchSucceeds
  }

  /** The retry's activation, without an error callback, when there is one. */
  function RetryActivations(connector: Option<Connector>, error: Option<ActivationError>,
                            hasEthereum: bool, switchSucceeds: bool): seq<Effect>
  {
    if Retries(connector, error, hasEthereum, switchSucceeds) then [Activate(connector, false)] else []
  }

  /**
    `loginWallet` activates a present connector once with the error callback, and
    a second time, without one, exactly when it retries; an absent connector is never activated.
   */
  lemma LoginWalletActivations(connector: Option<Connector>, error: Option<ActivationError>,
                               hasEthereum: bool, switchSucceeds: bool, chainId: nat)
    ensures Filter(LoginWalletEffects(connector, error, hasEthereum, switchSucceeds, chainId), IsActivation)
         == if connector.None? then []
            else [Activate(connector, true)] + RetryActivations(connector, error, hasEthereum, switchSucceeds)
  {
    if connector.Some? && error.Some? {
      var setup := SetupNetworkEffects(hasEthereum, chainId);
      var retry: seq<Effect> := if SetupNetworkResult(hasEthereum, switchSucceeds) then [Activate(connector, false)] else [];
      var cb := CallbackEffects(connector.value, error.value, hasEthereum, switchSucceeds, chainId);
      FilterAppend([Activate(connector, true)], cb, IsActivation);
      if Classify(error.value).SwitchNetwork? {
        assert cb == setup + retry;
        FilterAppend(setup, retry, IsActivation);
      }
    }
  }

  /**
    A switch request is sent, once, with the payload of the selected chain id, exactly
    when a present connector fails with an unsupported chain and `window.ethereum` exists.
   */
  lemma LoginWalletSwitchRequests(connector: Option<Connector>, error: Option<ActivationError>,
                                  hasEthereum: bool, switchSucceeds: bool, chainId: nat)
    ensures Filter(LoginWalletEffects(connector, error, hasEthereum, switchSucceeds, chainId), IsSwitchRequest)
         == if connector.Some? && error.Some? && UnsupportedChainIdError in error.value.instanceOf && hasEthereum
            then [SwitchRequest(SWITCH_METHOD, SwitchPayload(chainId))]
            else []
  {
    if connector.Some? && error.Some? {
      var setup := SetupNetworkEffects(hasEthereum, chainId);
      var retry: seq<Effect> := if SetupNetworkResult(hasEthereum, switchSucceeds) then [Activate(connector, false)] else [];
      var cb := CallbackEffects(connector.value, error.value, hasEthereum, switchSucceeds, chainId);
      FilterAppend([Activate(connector, true)], cb, IsSwitchRequest);
      if Classify(error.value).SwitchNetwork? {
        assert cb == setup + retry;
        FilterAppend(setup, retry, IsSwitchRequest);
      }
    }
  }

  /**
    `loginWallet` shows at most one alert: the misconfiguration alert for an absent
    connector, the classified alert for any error other than an unsupported chain,
    and none on success or on the unsupported-chain path, whether or not the switch succeeds.
   */
  lemma LoginWalletAlerts(connector: Option<Connector>, error: Option<ActivationError>,
                          hasEthereum: bool, switchSucceeds: bool, chainId: nat)
    ensures Filter(LoginWalletEffects(connector, error, hasEthereum, switchSucceeds, chainId), IsAlert)
         == if connector.None? then [Alert(MISCONFIGURED_ALERT)]
            else if error.Some? && UnsupportedChainIdError !in error.value.instanceOf
            then [Alert(AlertText(Classify(error.value)))]
            else []
  {
    if connector.Some? && error.Some? {
      var setup := SetupNetworkEffects(hasEthereum, chainId);
      var retry: seq<Effect> := if SetupNetworkResult(hasEthereum, switchSucceeds) then [Activate(connector, false)] else [];
      var cb := CallbackEffects(connector.value, error.value, hasEthereum, switchSucceeds, chainId);
      FilterAppend([Activate(connector, true)], cb, IsAlert);
      if Classify(error.value).SwitchNetwork? {
        assert cb == setup + retry;
        FilterAppend(setup, retry, IsAlert);
      }
    }
  }

  /** The React provider becomes the wallet's Web3 provider exactly when `loginWallet` retries. */
  lemma LoginWalletProviderOnRetry(connector: Option<Connector>, error: Option<ActivationError>,
                                   hasEthereum: bool, switchSucceeds: bool)
    ensures LoginWalletProviderState(connector, error, hasEthereum, switchSucceeds) == Web3Wrapper
            <==> Retries(connector, error, hasEthereum, switchSucceeds)
    ensures !Retries(connector, error, hasEthereum, switchSucceeds) ==>
            LoginWalletProviderState(connector, error, hasEthereum, switchSucceeds) == ConnectorValue(connector)
  {
  }

  /**
    `loginMetamask` alerts only when `window.ethereum` is missing, and activates the
    injected connector (without an error callback) only after the accounts request succeeds.
   */
  lemma LoginMetamaskOutcome(hasEthereum: bool, accountsGranted: bool, injected: Option<Connector>)
    ensures Filter(LoginMetamaskEffects(hasEthereum, accountsGranted, injected), IsActivation)
         == if hasEthereum && accountsGranted then [Activate(injected, false)] else []
    ensures Filter(LoginMetamaskEffects(hasEthereum, accountsGranted, injected), IsAlert)
         == if hasEthereum then [] else [Alert(INSTALL_METAMASK_ALERT)]
  {
    if hasEthereum {
      var tail: seq<Effect> := if accountsGranted then [Activate(injected, false)] else [];
      FilterAppend([RequestAccounts], tail, IsActivation);
      FilterAppend([RequestAccounts], tail, IsAlert);
    }
  }
}
