/**
  Classification of the error web3-react hands to the `activate` error
  callback in `loginWallet`. The source tests the error with `instanceof`
  against five classes in a fixed order; an error object is modelled by the
  set of those classes it is an instance of, plus its `name` and `message`.
 */
module ActivationErrors {

  datatype ErrorClass =
    | UnsupportedChainIdError
    | NoEthereumProviderError
    | NoBscProviderError
    | UserRejectedRequestErrorInjected
    | UserRejectedRequestErrorWalletConnect

  datatype ActivationError = ActivationError(instanceOf: set<ErrorClass>, name: string, message: string)

  /** What the callback does with an error. */
  datatype Outcome =
    | SwitchNetwork
    | ProviderMissing
    | Unauthorized
    | Unrecognised(name: string, message: string)

  const PROVIDER_ERROR_ALERT := "Network Provider Error"
  const AUTHORIZATION_ALERT := "Authorization Error: Please authorize to access your account"

  /** The `instanceof` chain of the error callback, tested in source order. */
  function Classify(e: ActivationError): Outcome {
    if UnsupportedChainIdError in e.instanceOf then SwitchNetwork
    else if NoEthereumProviderError in e.instanceOf || NoBscProviderError in e.instanceOf then ProviderMissing
    else if UserRejectedRequestErrorInjected in e.instanceOf || UserRejectedRequestErrorWalletConnect in e.instanceOf then Unauthorized
    else Unrecognised(e.name, e.message)
  }

  /** Position of a class's test in the chain; lower is tested first. */
  function Rank(c: ErrorClass): nat {
    match c
    case UnsupportedChainIdError => 0
    case NoEthereumProviderError => 1
    case NoBscProviderError => 1
    case UserRejectedRequestErrorInjected => 2
    case UserRejectedRequestErrorWalletConnect => 2
  }

  /** The outcome a class leads to when it is the first one that matches. */
  function OutcomeOf(c: ErrorClass): Outcome {
    match c
    case UnsupportedChainIdError => SwitchNetwork
    case NoEthereumProviderError => ProviderMissing
    case NoBscProviderError => ProviderMissing
    case UserRejectedRequestErrorInjected => Unauthorized
    case UserRejectedRequestErrorWalletConnect => Unauthorized
  }

  /**
    An error of none of the five classes is reported by name and message; otherwise
    its outcome is that of a class it belongs to whose test comes first.
   */
  lemma ClassifyByPriority(e: ActivationError)
    ensures e.instanceOf == {} ==> Classify(e) == Unrecognised(e.name, e.message)
    ensures e.instanceOf != {} ==>
      exists c :: c in e.instanceOf && Classify(e) == OutcomeOf(c) &&
        forall c' :: c' in e.instanceOf ==> Rank(c) <= Rank(c')
  {
    var k := e.instanceOf;
    if k != {} {
      if UnsupportedChainIdError in k {
        assert Rank(UnsupportedChainIdError) == 0;
      } else if NoEthereumProviderError in k {
        assert forall c' :: c' in k ==> Rank(c') >= 1;
      } else if NoBscProviderError in k {
        assert forall c' :: c' in k ==> Rank(c') >= 1;
      } else if UserRejectedRequestErrorInjected in k {
        assert forall c' :: c' in k ==> Rank(c') >= 2;
      } else {
        var c :| c in k;
        assert c == UserRejectedRequestErrorWalletConnect;
      }
    }
  }

  /** Among errors of some listed class, the outcome depends on the classes only, never on the text. */
  lemma ClassifyIgnoresText(e1: ActivationError, e2: ActivationError)
    requires e1.instanceOf == e2.instanceOf != {}
    ensures Classify(e1) == Classify(e2)
  {
    var c :| c in e1.instanceOf;
    match c
    case UnsupportedChainIdError =>
    case NoEthereumProviderError =>
    case NoBscProviderError =>
    case UserRejectedRequestErrorInjected =>
    case UserRejectedRequestErrorWalletConnect =>
  }

  /** The alert the callback shows for every outcome except the network switch. */
  function AlertText(o: Outcome): string
    requires !o.SwitchNetwork?
  {
    match o
    case ProviderMissing => PROVIDER_ERROR_ALERT
    case Unauthorized => AUTHORIZATION_ALERT
    case Unrecognised(name, message) => name + ": " + message
  }
}
