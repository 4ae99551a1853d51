/** The wallet context: the connected account and whether a connection request
    is pending, driven by the injected wallet provider. The provider's answers
    are parameters of the operations that await them. */
module WalletContext {
  import opened Wrappers
  import Js

  /** The gas limit of a plain transfer. */
  const GasLimit: nat := 21000

  /** The parameters of an `eth_sendTransaction` request. */
  datatype Transaction = Transaction(from: string, to: string, value: string, gas: string)

  /** The context value minus its functions: what components read. */
  datatype ContextValue = ContextValue(account: Option<string>, isConnected: bool, isConnecting: bool)

  /** `web3.utils.toHex` of a non-negative integer. */
  function ToHex(n: nat): string {
    "0x" + Js.ToStringRadix(n, 16)
  }

  /** The quantity a hex string written by `ToHex` stands for. */
  function HexValue(s: string): nat {
    if |s| >= 2 then Js.ParseRadix(s[2..], 16) else 0
  }

  /** The hex quantities in a transaction are the numbers they were built from. */
  lemma HexValueOfToHex(n: nat)
    ensures HexValue(ToHex(n)) == n
  {
    Js.ParseToStringRadix(n, 16);
    assert ToHex(n)[2..] == Js.ToStringRadix(n, 16);
  }

  /** The transfer `makePayment` asks the wallet to send: from the account to itself. */
  function PaymentTransaction(account: string, wei: nat): (t: Transaction)
    ensures t.from == account && t.to == account
    ensures HexValue(t.value) == wei && HexValue(t.gas) == 21000
  {
    HexValueOfToHex(wei);
    HexValueOfToHex(GasLimit);
    Transaction(account, account, ToHex(wei), ToHex(GasLimit))
  }

  class WalletContext {
    /** Whether `window.ethereum` is defined. */
    const providerPresent: bool
    var account: Option<string>
    var isConnecting: bool
    /** Every `eth_sendTransaction` request issued, oldest first. */
    var transactions: seq<Transaction>

    /** Without a provider no account is ever set and nothing is ever sent. */
    ghost predicate Valid()
      reads this
    {
      !providerPresent ==> account == None && transactions == []
    }

    constructor (providerPresent: bool)
      ensures Valid() && this.providerPresent == providerPresent
      ensures account == None && !isConnecting && transactions == []
      ensures !IsConnected()
    {
      this.providerPresent := providerPresent;
      account, isConnecting, transactions := None, false, [];
    }

    /** `isConnected: !!account`. */
    function IsConnected(): bool
      reads this
    {
      Js.Truthy(account)
    }

    /** The value the provider hands to its consumers. */
    function Value(): (v: ContextValue)
      reads this
      ensures v.isConnected <==> account.Some? && account.value != ""
    {
      ContextValue(account, IsConnected(), isConnecting)
    }

    /** The `accountsChanged` listener, registered only when a provider is present. */
    method AccountsChanged(accounts: seq<string>)
      requires Valid() && providerPresent
      modifies this`account
      ensures Valid()
      ensures account == if |accounts| > 0 then Some(accounts[0]) else None
      ensures |accounts| == 0 ==> !IsConnected()
    {
      if |accounts| > 0 {
        account := Some(accounts[0]);
      } else {
        account := None;
      }
    }

    /** `checkConnection`, run on mount when a provider is present; `reply` is the
        answer to `eth_accounts` (`None` when the request fails). */
    method CheckConnection(reply: Option<seq<string>>)
      requires Valid() && providerPresent
      modifies this`account
      ensures Valid()
      ensures reply.Some? && |reply.value| > 0 ==> account == Some(reply.value[0])
      ensures !(reply.Some? && |reply.value| > 0) ==> account == old(account)
    {
      if reply.Some? && |reply.value| > 0 {
        account := Some(reply.value[0]);
      }
    }

    /** The part of `connectWallet` before it awaits the provider. */
    method BeginConnectWallet() returns (proceed: bool)
      requires Valid()
      modifies this`isConnecting
      ensures Valid()
      ensures proceed == providerPresent
      ensures proceed ==> isConnecting
      ensures !proceed ==> isConnecting == old(isConnecting)
    {
      if !providerPresent {
        return false;
      }
      isConnecting := true;
      proceed := true;
    }

    /** The rest of `connectWallet`, once `eth_requestAccounts` answers `reply`
        (`None` when it fails). An empty list sets the account to `undefined`,
        which behaves as `null`. */
    method CompleteConnectWallet(reply: Option<seq<string>>)
      requires Valid() && providerPresent
      modifies this`account, this`isConnecting
      ensures Valid()
      ensures !isConnecting
      ensures reply.None? ==> account == old(account)
      ensures reply.Some? ==> account == if |reply.value| > 0 then Some(reply.value[0]) else None
    {
      if reply.Some? {
        account := if |reply.value| > 0 then Some(reply.value[0]) else None;
      }
      isConnecting := false;
    }

    /** `connectWallet` as one step. */
    method ConnectWallet(reply: Option<seq<string>>)
      requires Valid()
      modifies this`account, this`isConnecting
      ensures Valid()
      ensures !providerPresent ==> account == old(account) && isConnecting == old(isConnecting)
      ensures providerPresent ==> !isConnecting
      ensures providerPresent && reply.None? ==> account == old(account)
      ensures providerPresent && reply.Some? ==> account == if |reply.value| > 0 then Some(reply.value[0]) else None
    {
      var proceed := BeginConnectWallet();
      if proceed {
        CompleteConnectWallet(reply);
      }
    }

    /** `disconnectWallet`. */
    method DisconnectWallet()
      requires Valid()
      modifies this`account
      ensures Valid()
      ensures account == None && !IsConnected()
    {
      account := None;
    }

    /** `makePayment(amount)`. `wei` is `toWei(amount, 'ether')` (`None` when it
        throws); `reply` is the answer to `eth_sendTransaction` (`None` when it fails). */
    method MakePayment(amount: string, wei: Option<nat>, reply: Option<string>) returns (ok: bool)
      requires Valid()
      modifies this`transactions
      ensures Valid()
      ensures !IsConnected() ==> !ok && transactions == old(transactions)
      ensures IsConnected() && wei.None? ==> !ok && transactions == old(transactions)
      ensures IsConnected() && wei.Some? ==> transactions == old(transactions) + [PaymentTransaction(account.value, wei.value)]
      ensures IsConnected() && wei.Some? ==> ok == reply.Some?
    {
      if !IsConnected() {
        return false;
      }
      if wei.None? {
        return false;
      }
      transactions := transactions + [PaymentTransaction(account.value, wei.value)];
      ok := reply.Some?;
    }
  }
}
