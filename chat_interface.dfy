/** The community chat panel: a local transcript seeded with three messages,
    to which the user appends while the wallet is connected. It keeps the
    transcript locally and does not talk to the chat database. */
module ChatInterface {
  import Js
  import UseWallet

  /** A transcript entry; `timestamp` is in milliseconds since the epoch. */
  datatype Message = Message(id: string, text: string, sender: string, timestamp: int)

  const AnonymousSender := "Anonymous"
  const EnterKey := "Enter"

  /** The demo transcript installed on mount, relative to the clock reading `now`. */
  function InitialMessages(now: int): seq<Message> {
    [ Message("1", "Bienvenidos al chat de Europa Crítica", "Sistema", now - 3600000),
      Message("2", "¿Qué opináis del último video?", "Usuario123", now - 1800000),
      Message("3", "Muy interesante el análisis sobre la situación actual", "EuropeoLibre", now - 900000) ]
  }

  /** The seeded transcript has three messages with ids "1", "2", "3", older first. */
  lemma InitialMessagesOrdered(now: int)
    ensures |InitialMessages(now)| == 3
    ensures InitialMessages(now)[0].id == "1" && InitialMessages(now)[1].id == "2" && InitialMessages(now)[2].id == "3"
    ensures forall i, j :: 0 <= i < j < 3 ==> InitialMessages(now)[i].timestamp < InitialMessages(now)[j].timestamp
    ensures forall i :: 0 <= i < 3 ==> InitialMessages(now)[i].timestamp < now
  {
  }

  /** `formattedAddress || 'Anonymous'`. */
  function SenderName(formattedAddress: string): (r: string)
    ensures r != ""
    ensures formattedAddress != "" ==> r == formattedAddress
    ensures formattedAddress == "" ==> r == AnonymousSender
  {
    if formattedAddress != "" then formattedAddress else AnonymousSender
  }

  /** Whether `handleSendMessage` sends `text` for this wallet: the trimmed text
      is not empty and the wallet is connected. */
  predicate SendAllowed(text: string, wallet: UseWallet.WalletView) {
    Js.Trim(text) != "" && wallet.isConnected
  }

  /** A text is sendable exactly when it holds a character that is not white space. */
  lemma SendAllowedIffNotBlank(text: string, wallet: UseWallet.WalletView)
    ensures SendAllowed(text, wallet) <==> wallet.isConnected && exists i :: 0 <= i < |text| && !Js.IsWhiteSpace(text[i])
  {
    Js.TrimEmptyIffBlank(text);
  }

  class ChatInterface {
    var messages: seq<Message>
    var messageText: string

    constructor ()
      ensures messages == [] && messageText == ""
    {
      messages, messageText := [], "";
    }

    /** The mount effect: the transcript becomes the seeded one. */
    method Mount(now: int)
      modifies this`messages
      ensures messages == InitialMessages(now)
    {
      messages := InitialMessages(now);
    }

    /** The input's `onChange`. */
    method SetMessageText(text: string)
      modifies this`messageText
      ensures messageText == text
    {
      messageText := text;
    }

    /** `handleSendMessage`. `now` is `Date.now()`, whose decimal form becomes the
        id, and `sentAt` is the time of `new Date()`. */
    method HandleSendMessage(wallet: UseWallet.WalletView, now: nat, sentAt: int)
      modifies this
      ensures !SendAllowed(old(messageText), wallet) ==> messages == old(messages) && messageText == old(messageText)
      ensures SendAllowed(old(messageText), wallet) ==>
        messages == old(messages) + [Message(Js.ToStringRadix(now, 10), old(messageText), SenderName(wallet.formattedAddress), sentAt)]
      ensures SendAllowed(old(messageText), wallet) ==> messageText == ""
    {
      if Js.Trim(messageText) == "" || !wallet.isConnected {
        return;
      }
      var message := Message(Js.ToStringRadix(now, 10), messageText, SenderName(wallet.formattedAddress), sentAt);
      messages := messages + [message];
      messageText := "";
    }

    /** `handleKeyDown`: Enter sends, any other key does nothing. */
    method HandleKeyDown(key: string, wallet: UseWallet.WalletView, now: nat, sentAt: int)
      modifies this
      ensures key != EnterKey ==> messages == old(messages) && messageText == old(messageText)
      ensures key == EnterKey && !SendAllowed(old(messageText), wallet) ==> messages == old(messages) && messageText == old(messageText)
      ensures key == EnterKey && SendAllowed(old(messageText), wallet) ==>
        messages == old(messages) + [Message(Js.ToStringRadix(now, 10), old(messageText), SenderName(wallet.formattedAddress), sentAt)]
        && messageText == ""
    {
      if key == EnterKey {
        HandleSendMessage(wallet, now, sentAt);
      }
    }
  }

  /** Two sends at different clock readings get different ids. */
  lemma DistinctClockDistinctIds(now1: nat, now2: nat)
    requires now1 != now2
    ensures Js.ToStringRadix(now1, 10) != Js.ToStringRadix(now2, 10)
  {
    if Js.ToStringRadix(now1, 10) == Js.ToStringRadix(now2, 10) {
      Js.ToStringRadixInjective(now1, now2, 10);
    }
  }
}
