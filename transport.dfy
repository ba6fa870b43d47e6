/**
  The read-only provider factory (`ethersProviderFrom` in
  src/components/WalletConnector.js). A provider is represented only by the
  class chosen, the endpoint and the request timeout it is built with.
 */
module Transport {
  import opened Wrappers

  /** `nodetimeout` of the shared default configuration. */
  const DEFAULT_NODE_TIMEOUT := 10000

  const WSS := "wss"

  datatype ProviderClass = WebSocketProvider | JsonRpcProvider

  datatype Provider = Provider(providerClass: ProviderClass, endpoint: string, timeout: int)

  /** The part of a caller's configuration that reaches the provider. */
  datatype ProviderConfig = ProviderConfig(nodeTimeout: Option<int>)

  /** `sub` occurs in `s` starting at index `i`. */
  ghost predicate OccursAt(s: string, sub: string, i: int) {
    0 <= i && i + |sub| <= |s| && s[i..i + |sub|] == sub
  }

  /** `String.prototype.includes`: scans `s` from the left for `sub`. */
  function Includes(s: string, sub: string): bool
    decreases |s|
  {
    if |sub| > |s| then false
    else s[..|sub|] == sub || Includes(s[1..], sub)
  }

  /** The scan finds `sub` exactly when it occurs somewhere in `s`. */
  lemma {:induction false} IncludesSpec(s: string, sub: string)
    ensures Includes(s, sub) <==> exists i :: OccursAt(s, sub, i)
    decreases |s|
  {
    if |sub| > |s| {
    } else if s[..|sub|] == sub {
      assert OccursAt(s, sub, 0);
    } else {
      IncludesSpec(s[1..], sub);
      if Includes(s[1..], sub) {
        var j :| OccursAt(s[1..], sub, j);
        assert s[j + 1..j + 1 + |sub|] == s[1..][j..j + |sub|];
        assert OccursAt(s, sub, j + 1);
      }
      if i :| OccursAt(s, sub, i) {
        assert i != 0;
        assert s[1..][i - 1..i - 1 + |sub|] == s[i..i + |sub|];
        assert OccursAt(s[1..], sub, i - 1);
      }
    }
  }

  /** The provider class for an endpoint: the source tests `endpoint.includes("wss")`. */
  function ProviderClassFor(endpoint: string): ProviderClass {
    if Includes(endpoint, WSS) then WebSocketProvider else JsonRpcProvider
  }

  /** The WebSocket provider is chosen exactly when "wss" occurs anywhere in the endpoint. */
  lemma ProviderClassChoice(endpoint: string)
    ensures ProviderClassFor(endpoint) == WebSocketProvider <==> exists i :: OccursAt(endpoint, WSS, i)
    ensures ProviderClassFor(endpoint) == JsonRpcProvider <==> forall i :: !OccursAt(endpoint, WSS, i)
  {
    IncludesSpec(endpoint, WSS);
  }

  /**
    The test looks at the whole endpoint, not its scheme: "wss" anywhere, such as
    in the host name of an "https://" endpoint, selects the WebSocket provider.
   */
  lemma WssAnywhereSelectsWebSocket(before: string, after: string)
    ensures ProviderClassFor(before + WSS + after) == WebSocketProvider
  {
    var s := before + WSS + after;
    assert s[|before|..|before| + |WSS|] == WSS;
    assert OccursAt(s, WSS, |before|);
    ProviderClassChoice(s);
  }

  /** `Object.assign(defaultConfig, config || {})` as seen by `nodetimeout`. */
  function MergedTimeout(current: int, config: Option<ProviderConfig>): int
  {
    match config
    case None => current
    case Some(c) => if c.nodeTimeout.Some? then c.nodeTimeout.value else current
  }
}
