/** The `useWallet` hook: the wallet context plus a shortened display form of
    the account address. */
module UseWallet {
  import opened Wrappers
  import Js
  import WalletContext

  /** What the hook returns: every field of the context value, and `formattedAddress`. */
  datatype WalletView = WalletView(account: Option<string>, isConnected: bool, isConnecting: bool, formattedAddress: string)

  /** `formatAddress`: the first six characters, an ellipsis and the last four;
      the empty string for a falsy address. */
  function FormatAddress(address: Option<string>): string {
    if !Js.Truthy(address) then ""
    else
      var a := address.value;
      Js.Substring(a, 0, 6) + "..." + Js.SubstringFrom(a, |a| - 4)
  }

  /** `null` and `""` both format to the empty string. */
  lemma FormatAddressOfFalsy(address: Option<string>)
    requires !Js.Truthy(address)
    ensures FormatAddress(address) == ""
  {
  }

  /** A non-empty address keeps its head of at most six characters and its tail
      of at most four, around "...". */
  lemma FormatAddressShape(a: string)
    requires a != ""
    ensures FormatAddress(Some(a)) == a[..Js.Min(6, |a|)] + "..." + a[Js.Max(0, |a| - 4)..]
    ensures |FormatAddress(Some(a))| == Js.Min(6, |a|) + 3 + Js.Min(4, |a|)
  {
    var head := Js.Substring(a, 0, 6);
    assert head == a[..Js.Min(6, |a|)];
  }

  /** The hook: the context's fields unchanged, plus the formatted account. */
  function UseWallet(context: WalletContext.ContextValue): (v: WalletView)
    ensures v.account == context.account && v.isConnected == context.isConnected && v.isConnecting == context.isConnecting
    ensures v.formattedAddress == FormatAddress(context.account)
    ensures !Js.Truthy(context.account) ==> v.formattedAddress == ""
    ensures Js.Truthy(context.account) ==> |v.formattedAddress| == Js.Min(6, |context.account.value|) + 3 + Js.Min(4, |context.account.value|)
  {
    var v := WalletView(context.account, context.isConnected, context.isConnecting, FormatAddress(context.account));
    if Js.Truthy(context.account) then FormatAddressShape(context.account.value); v else v
  }

  /** A connected wallet always has a non-empty formatted address. */
  lemma ConnectedHasAddress(context: WalletContext.ContextValue)
    requires context.isConnected == Js.Truthy(context.account)
    requires context.isConnected
    ensures UseWallet(context).formattedAddress != ""
  {
  }
}
