/** A video thumbnail card: a premium card is locked, and offers a pay button,
    until it is paid for on this card. */
module VideoCard {
  import opened Wrappers
  import Storage
  import WalletContext

  class VideoCard {
    const videoId: string
    const isPremium: bool
    const price: string
    var hasAccess: bool
    const storage: Storage.LocalStorage
    /** Whether a payment has succeeded on this card since it was mounted. */
    ghost var paidHere: bool

    /** Access comes only from the card being free or from a payment made on it. */
    ghost predicate Valid()
      reads this
    {
      hasAccess == (!isPremium || paidHere)
    }

    /** The card never consults `localStorage`: a premium card starts locked even
        when the video was paid for before. */
    constructor (videoId: string, isPremium: bool, price: string, storage: Storage.LocalStorage)
      ensures this.videoId == videoId && this.isPremium == isPremium && this.price == price && this.storage == storage
      ensures Valid() && !paidHere
      ensures hasAccess == !isPremium
      ensures Locked() == isPremium
    {
      this.videoId, this.isPremium, this.price, this.storage := videoId, isPremium, price, storage;
      hasAccess := !isPremium;
      paidHere := false;
    }

    /** The lock overlay is shown (instead of the play link). */
    function Locked(): bool
      reads this
    {
      isPremium && !hasAccess
    }

    /** The pay button is shown: exactly when the card is premium and no payment
        has yet succeeded on it. */
    function ShowsPayButton(): (r: bool)
      requires Valid()
      reads this
      ensures r <==> isPremium && !paidHere
    {
      isPremium && !hasAccess
    }

    /** `handlePayment`, with `wei` and `reply` the oracle answers `makePayment`
        awaits. `paid` is what `makePayment` resolved to. */
    method HandlePayment(wallet: WalletContext.WalletContext, wei: Option<nat>, reply: Option<string>) returns (paid: bool)
      requires Valid() && wallet.Valid()
      modifies this`hasAccess, this`paidHere, storage, wallet`transactions
      ensures Valid() && wallet.Valid()
      ensures paidHere == (old(paidHere) || paid)
      ensures !wallet.IsConnected() ==> !paid && wallet.transactions == old(wallet.transactions)
      ensures wallet.IsConnected() && wei.Some? ==>
        wallet.transactions == old(wallet.transactions) + [WalletContext.PaymentTransaction(wallet.account.value, wei.value)]
      ensures paid <==> wallet.IsConnected() && wei.Some? && reply.Some?
      ensures storage.items == if paid then old(storage.items)[Storage.AccessKey(videoId) := "true"] else old(storage.items)
      ensures hasAccess == (old(hasAccess) || paid)
      ensures paid ==> !Locked()
    {
      paid := false;
      if !wallet.IsConnected() {
        return;
      }
      paid := wallet.MakePayment(price, wei, reply);
      if paid {
        storage.SetItem(Storage.AccessKey(videoId), "true");
        hasAccess := true;
        paidHere := true;
      }
    }
  }
}
