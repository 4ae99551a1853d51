/** The video page's player: a premium video stays locked until it has been
    paid for, in this session or an earlier one recorded in `localStorage`. */
module VideoPlayer {
  import opened Wrappers
  import Js
  import Storage
  import WalletContext

  class VideoPlayer {
    var videoId: string
    const isPremium: bool
    const price: string
    var hasAccess: bool
    const storage: Storage.LocalStorage

    /** First render: access is granted up front exactly for a free video. */
    constructor (videoId: string, isPremium: bool, price: string, storage: Storage.LocalStorage)
      ensures this.videoId == videoId && this.isPremium == isPremium && this.price == price && this.storage == storage
      ensures hasAccess == !isPremium
      ensures !isPremium ==> ShowsPlayer()
    {
      this.videoId, this.isPremium, this.price, this.storage := videoId, isPremium, price, storage;
      hasAccess := !isPremium;
    }

    /** Whether the embedded player is shown rather than the lock. */
    function ShowsPlayer(): bool
      reads this
    {
      hasAccess
    }

    /** A truthy access record for the current video is stored. */
    function PaidBefore(): bool
      reads this, storage
    {
      Js.Truthy(storage.GetItem(Storage.AccessKey(videoId)))
    }

    /** The effect on mount and on every `videoId` change: a truthy access record
        grants access; nothing ever revokes it. */
    method CheckAccess()
      modifies this`hasAccess
      ensures hasAccess == (old(hasAccess) || PaidBefore())
    {
      var accessData := storage.GetItem(Storage.AccessKey(videoId));
      if Js.Truthy(accessData) {
        hasAccess := true;
      }
    }

    /** A new `videoId` prop, followed by the effect. Access held for the previous
        video is kept. */
    method ChangeVideo(newId: string)
      modifies this`videoId, this`hasAccess
      ensures videoId == newId
      ensures hasAccess == (old(hasAccess) || PaidBefore())
      ensures old(hasAccess) ==> hasAccess
    {
      videoId := newId;
      CheckAccess();
    }

    /** `handlePayment`, with `wei` and `reply` the oracle answers `makePayment`
        awaits. `paid` is what `makePayment` resolved to. */
    method HandlePayment(wallet: WalletContext.WalletContext, wei: Option<nat>, reply: Option<string>) returns (paid: bool)
      requires wallet.Valid()
      modifies this`hasAccess, storage, wallet`transactions
      ensures wallet.Valid()
      ensures !wallet.IsConnected() ==> !paid && wallet.transactions == old(wallet.transactions)
      ensures wallet.IsConnected() && wei.Some? ==>
        wallet.transactions == old(wallet.transactions) + [WalletContext.PaymentTransaction(wallet.account.value, wei.value)]
      ensures paid <==> wallet.IsConnected() && wei.Some? && reply.Some?
      ensures storage.items == if paid then old(storage.items)[Storage.AccessKey(videoId) := "true"] else old(storage.items)
      ensures hasAccess == (old(hasAccess) || paid)
      ensures paid ==> ShowsPlayer() && PaidBefore()
    {
      paid := false;
      if !wallet.IsConnected() {
        return;
      }
      paid := wallet.MakePayment(price, wei, reply);
      if paid {
        storage.SetItem(Storage.AccessKey(videoId), "true");
        hasAccess := true;
      }
    }
  }
}
