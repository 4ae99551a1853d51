# Europa Crítica stream front-end: chat client, wallet and access gates in Dafny

This project models the behavioural core of the Europa Crítica streaming front-end:

- **`DBP2PService`** is the chat-database client. It holds a session token from `login`. It encrypts messages before `saveMessage`. It decodes and decrypts history in `getMessages`. It keeps one WebSocket whose `create` events on `chat_*` collections go to every registered callback, in registration order. It subscribes to collections on an open socket, and it closes the socket.
- **`DBP2PConfig`** is the connect/disconnect panel that drives the service.
- **`ChatInterface`** is the local chat transcript and its send rule.
- **`WalletContext`** and **`useWallet`** hold the wallet account, the pending-connection flag, the payment transaction and the shortened address.
- **`VideoPlayer`** and **`VideoCard`** are the premium-access gates. Access, once granted, is never revoked.
- **`ChannelList`** is the channel catalogue and its `limit` slicing.

The model does not interpret the outside world:

- HTTP replies, wallet-provider answers, `toWei` results and clock readings are parameters of the operation that awaits them.
- WebSocket events (handshake done, closed, a frame received) are operations of their own.
- AES is a `Cipher` value: two functions fixed when the service is built. `encrypt` takes the random salt CryptoJS draws for each call as an argument, so two encryptions of the same text may differ; `saveMessage` receives its salt like any other outside answer. `decrypt` returns `None` where CryptoJS throws. The property `decrypt(encrypt(t, salt)) == t` under the fixed key, for every salt, is the hypothesis `RoundTrips` of the lemmas that need it. It is never assumed globally.
- The service keeps its effects as data: `requests` lists every HTTP request issued. `sockets` lists every socket created, with its `readyState` and the frames sent on it. `ws` is an index into `sockets`.
- Callbacks are opaque `Listener` identities. Handling a frame returns the trace of callback calls.
- An async handler is one atomic step. Where the pending flag matters (`handleConnect`, `connectWallet`), the handler is split into a `Begin…` step (the checks and the pending flag) and a `Complete…` step (the provider call or login and its outcome), plus the two run together. Whatever the source reads before its first `await`, such as the credentials `handleConnect` passes to `login`, is handed to the `Complete…` step as captured by the `Begin…` step, so edits made while the request is pending do not reach it.

Files: `wrappers.dfy` (Option), `js.dfy` (the JavaScript built-ins used: truthiness, `substring`, `slice`, `trim`, `toString(radix)`), and one file per source component.

Behaviour of the code worth knowing:

- A failed `login` keeps the previous session. It does not reset it.
- No operation clears the token. `closeConnection` and `handleDisconnect` leave it in place, so `isConnected()` stays true after a disconnect.
- `isConnected()` tests `token !== null`, but the other operations test `!this.token`. After a login whose response token is `""`, `isConnected()` is true while every authorised operation refuses to run. The model keeps both tests (`IsConnected` and `Js.Truthy`).
- The chat panel never calls the service. Sending only appends a local message; nothing is encrypted, persisted or seeded through `saveMessage`.
- Inbound events are not deduplicated. Callbacks survive a reconnect. Only the socket in the slot can be open, so a frame is never delivered twice through two sockets.
- `getMessages` returns `[]` as soon as one record lacks `data`: the `map` throws and the `catch` swallows the whole batch.

## Model

| member | source | states |
|---|---|---|
| `DBP2P.GetHeaders` | src/services/DBP2PService.ts:53-62 | Headers exist exactly when the token is truthy. They then carry `Bearer <token>` and the JSON content type. |
| `DBP2P.DecryptMessage` | src/services/DBP2PService.ts:70-78 | Never fails. A decryption error yields the fixed placeholder `Mensaje cifrado (error al descifrar)`. Otherwise the result is the decrypted text. |
| `DBP2P.DecryptEncrypted` | src/services/DBP2PService.ts:65-78 | Under a cipher that round-trips, decrypting an encryption made with any salt gives the plaintext back, never the placeholder. |
| `DBP2P.PrepareForSave` | src/services/DBP2PService.ts:88-93 | The copy sent is always flagged encrypted. An unflagged message has its text replaced by its encryption under the salt drawn for the call. An already-flagged message is sent unchanged. id, sender and timestamp are kept. |
| `DBP2P.DecodeRecord` | src/services/DBP2PService.ts:122-137 | A record without `data` fails. Otherwise the text is decrypted only when `data.encrypted` is set. The timestamp is `data.timestamp`, falling back to `created_at` when that is absent or empty. id and sender are copied. |
| `DBP2P.DecodeHistory` | src/services/DBP2PService.ts:122-141 | Succeeds exactly when every record has `data`. It then yields one message per record, in record order, each the decoding of its record. |
| `DBP2P.HistoryIsPlaintext` | src/services/DBP2PService.ts:122-137 | When flagged records hold encryptions of their plaintexts, each under its own salt, every fetched message carries its plaintext, in order. |
| `DBP2P.Inbound` | src/services/DBP2PService.ts:164-190 | A frame yields a message exactly when it parses, its type is `create`, its collection starts with `chat_` and its document has `data`. The message is then that record's decoding. |
| `DBP2P.CloseSocket` | src/services/DBP2PService.ts:225-229 | `close()` leaves a socket not live. A socket already closing or closed is left as it is. |
| `DBP2P.SaveThenRead` | src/services/DBP2PService.ts:88-137 | A plaintext message saved under any salt and read back has its id, text and sender back, and its timestamp falls back as on reading. |
| `DBP2P.SavedMessageArrivesAsPlaintext` | src/services/DBP2PService.ts:164-182 | A saved plaintext message announced as a `create` event on a `chat_` collection reaches listeners with its original text. |
| `DBP2P.DBP2PService.constructor` | src/services/DBP2PService.ts:26-31 | Starts with no token, no identity, no socket, no callbacks and nothing sent; `isConnected()` is false. |
| `DBP2P.DBP2PService.AtMostOneLive` | src/services/DBP2PService.ts:151-157 | Any two live sockets are the same one, and it is the one in the slot. |
| `DBP2P.DBP2PService.Login` | src/services/DBP2PService.ts:34-50 | One login request is issued. Success stores the response's token, user id and username and makes `isConnected()` true. Failure returns false and leaves the token and identity exactly as they were. |
| `DBP2P.DBP2PService.SaveMessage` | src/services/DBP2PService.ts:81-106 | Without a truthy token: `null` and no request. Otherwise exactly one authorised post of the prepared copy, and the server's reply is returned. The session, socket and callbacks do not change. |
| `DBP2P.DBP2PService.GetMessages` | src/services/DBP2PService.ts:109-142 | Without a truthy token: `[]` and no request. Otherwise exactly one authorised get. The result is the decoded history, or `[]` on failure or on a record without `data`. |
| `DBP2P.DBP2PService.ConnectWebSocket` | src/services/DBP2PService.ts:145-201 | Without a truthy token: false, nothing opened. Otherwise the socket in the slot is closed and a new connecting socket to `ws://…/ws?token=<token>` takes the slot. Every other socket is unchanged, and at most one socket stays live. |
| `DBP2P.DBP2PService.SubscribeToCollection` | src/services/DBP2PService.ts:204-217 | Returns true exactly when the slot holds an open socket. It then appends exactly one frame `{subscribe, collection, ""}` to that socket. Otherwise nothing is sent. |
| `DBP2P.DBP2PService.OnNewMessage` | src/services/DBP2PService.ts:220-222 | Appends the callback, duplicates included. Nothing else changes. |
| `DBP2P.DBP2PService.CloseConnection` | src/services/DBP2PService.ts:225-230 | Empties the slot and closes its socket, so no socket is live afterwards. A second call changes nothing. Token, identity, requests and callbacks are kept. |
| `DBP2P.DBP2PService.SocketOpened` | src/services/DBP2PService.ts:160-162 | The handshake moves a connecting socket to open and changes nothing else. |
| `DBP2P.DBP2PService.SocketClosed` | src/services/DBP2PService.ts:196-198 | The close event marks that socket closed and changes nothing else. |
| `DBP2P.DBP2PService.HandleFrame` | src/services/DBP2PService.ts:164-190 | A socket that is not open, or a dropped frame, calls no callback. Otherwise each registered callback is called exactly once with the decoded message, in registration order. Under the service invariant, a frame that delivers anything came through the socket in the slot. |
| `DBP2P.DBP2PService.OnlyCurrentSocketDelivers` | src/services/DBP2PService.ts:151-157 | Only the socket in the slot can be open, so only it can deliver frames to the callbacks. |
| `DBP2PConfig.DBP2PConfig.constructor` | src/components/DBP2PConfig.tsx:15-18 | Credentials start as `admin`/`admin123`, not connecting and not connected. |
| `DBP2PConfig.DBP2PConfig.EditUsername` | src/components/DBP2PConfig.tsx:90-95 | The username input changes only while the inputs are enabled, that is while not connected. |
| `DBP2PConfig.DBP2PConfig.EditPassword` | src/components/DBP2PConfig.tsx:98-105 | The password input changes only while the inputs are enabled, that is while not connected. |
| `DBP2PConfig.DBP2PConfig.BeginConnect` | src/components/DBP2PConfig.tsx:22-32 | An empty username or password stops the attempt with nothing changed. Otherwise `isConnecting` becomes true. |
| `DBP2PConfig.DBP2PConfig.CompleteConnect` | src/components/DBP2PConfig.tsx:34-67 | Exactly one login, with the credentials captured when the handler started, whatever the inputs hold now. On success: `isConnected`, one socket opened when the token is truthy, and `onConnect` called once if provided. On failure: no socket, `isConnected` unchanged, and the service's token, user id and username kept. `isConnecting` is false on every path. |
| `DBP2PConfig.DBP2PConfig.HandleConnect` | src/components/DBP2PConfig.tsx:22-68 | Empty credentials: no login, and neither the panel's flags nor the service's requests, sockets, socket slot, session fields or callbacks change. Otherwise exactly one login and `isConnecting` false at the end. `isConnected` becomes true exactly on success, and a failure opens no socket. |
| `DBP2PConfig.DBP2PConfig.HandleDisconnect` | src/components/DBP2PConfig.tsx:70-77 | Closes the connection, so no socket is live, and clears `isConnected`. The service keeps its token, so it still reports connected. |
| `ChatInterface.InitialMessagesOrdered` | src/components/ChatInterface.tsx:29-50 | The seeded transcript has exactly three messages with ids `1`, `2`, `3` and strictly increasing timestamps, all before now. |
| `ChatInterface.SenderName` | src/components/ChatInterface.tsx:69 | The sender is never empty: the formatted address, or `Anonymous` when that is empty. |
| `ChatInterface.SendAllowedIffNotBlank` | src/components/ChatInterface.tsx:64 | A send goes through exactly when the wallet is connected and the text has a character that is not white space. |
| `Js.TrimEmptyIffBlank` | src/components/ChatInterface.tsx:64 | `trim()` of a text is empty exactly when every character is ECMAScript white space or a line terminator. |
| `ChatInterface.ChatInterface.constructor` | src/components/ChatInterface.tsx:22-23 | Starts with an empty transcript and empty input. |
| `ChatInterface.ChatInterface.Mount` | src/components/ChatInterface.tsx:27-51 | The mount effect installs the seeded transcript. |
| `ChatInterface.ChatInterface.SetMessageText` | src/components/ChatInterface.tsx:124 | The input's change handler sets the text. |
| `ChatInterface.ChatInterface.HandleSendMessage` | src/components/ChatInterface.tsx:63-75 | A blank text or a disconnected wallet changes nothing. Otherwise exactly one message is appended after the unchanged earlier ones, with the untrimmed text, the sender name and the decimal clock reading as id. Then the input is cleared. |
| `ChatInterface.ChatInterface.HandleKeyDown` | src/components/ChatInterface.tsx:77-81 | Enter behaves exactly like sending. Any other key changes nothing. |
| `ChatInterface.DistinctClockDistinctIds` | src/components/ChatInterface.tsx:67 | Sends at different clock readings get different ids. |
| `WalletContext.HexValueOfToHex` | src/context/WalletContext.tsx:118-119 | The hex quantity written for a number reads back as that number. |
| `WalletContext.PaymentTransaction` | src/context/WalletContext.tsx:115-120 | The transaction goes from the account to itself, its value encodes the wei amount and its gas encodes 21000. |
| `WalletContext.WalletContext.constructor` | src/context/WalletContext.tsx:17-18 | Starts with no account and not connecting, so not connected. |
| `WalletContext.WalletContext.Value` | src/context/WalletContext.tsx:150 | `isConnected` holds exactly when the account is present and non-empty. |
| `WalletContext.WalletContext.AccountsChanged` | src/context/WalletContext.tsx:27-33 | A non-empty list sets the account to its first element. An empty list sets it to `null`. |
| `WalletContext.WalletContext.CheckConnection` | src/context/WalletContext.tsx:50-59 | Sets the account only from a non-empty answer and never clears it. |
| `WalletContext.WalletContext.BeginConnectWallet` | src/context/WalletContext.tsx:61-71 | Without a provider nothing changes. Otherwise `isConnecting` becomes true. |
| `WalletContext.WalletContext.CompleteConnectWallet` | src/context/WalletContext.tsx:73-89 | On success the account becomes the first account, or `undefined` for an empty answer. On failure the account is kept. `isConnecting` is false on both paths. |
| `WalletContext.WalletContext.ConnectWallet` | src/context/WalletContext.tsx:61-90 | Without a provider neither the account nor `isConnecting` changes. With one, `isConnecting` ends false and the account follows the answer. |
| `WalletContext.WalletContext.DisconnectWallet` | src/context/WalletContext.tsx:92-98 | The account becomes `null`, so the wallet is not connected. Repeating it changes nothing. |
| `WalletContext.WalletContext.MakePayment` | src/context/WalletContext.tsx:100-143 | No account: false and no transaction. A failing `toWei`: false and no transaction. Otherwise exactly one self-transfer of the amount with gas 21000 is requested, and the result is true exactly when that request succeeds. |
| `UseWallet.FormatAddressOfFalsy` | src/hooks/useWallet.tsx:8 | `null` and `''` both format to `''`. |
| `UseWallet.FormatAddressShape` | src/hooks/useWallet.tsx:9 | A non-empty address of length n formats to its first `min(6,n)` characters, `...`, and its characters from `max(0,n-4)` on. The result has length `min(6,n) + 3 + min(4,n)`. |
| `UseWallet.UseWallet` | src/hooks/useWallet.tsx:12-15 | Every context field is passed through unchanged. `formattedAddress` is `formatAddress(account)`: empty for a falsy account, otherwise of the length above. |
| `UseWallet.ConnectedHasAddress` | src/hooks/useWallet.tsx:8-9 | A connected wallet always has a non-empty formatted address. |
| `Storage.AccessKeyInjective` | src/components/VideoPlayer.tsx:21-36 | The key written after payment is the key read on load, and different videos use different keys. |
| `Storage.LocalStorage.GetItem` | src/components/VideoPlayer.tsx:21 | `getItem` gives the stored string or `null`. |
| `Storage.LocalStorage.SetItem` | src/components/VideoPlayer.tsx:36 | `setItem` stores the value under the key and leaves the other keys unchanged. |
| `VideoPlayer.VideoPlayer.constructor` | src/components/VideoPlayer.tsx:14-15 | A free video starts with access and its player shown. A premium one starts without access. |
| `VideoPlayer.VideoPlayer.CheckAccess` | src/components/VideoPlayer.tsx:18-28 | A truthy `video_access_<videoId>` record grants access. Access already held is kept. |
| `VideoPlayer.VideoPlayer.ChangeVideo` | src/components/VideoPlayer.tsx:18-28 | After a `videoId` change, access is kept and also granted by the new video's record. |
| `VideoPlayer.VideoPlayer.HandlePayment` | src/components/VideoPlayer.tsx:30-39 | A disconnected wallet changes nothing. The record `true` is written and access granted exactly when `makePayment` succeeds. Access is never revoked, and the player is shown after payment. |
| `VideoCard.VideoCard.constructor` | src/components/VideoCard.tsx:19-29 | A card starts locked exactly when it is premium, with no payment made on it. It never reads storage. |
| `VideoCard.VideoCard.ShowsPayButton` | src/components/VideoCard.tsx:29-78 | The pay button is shown exactly when the card is premium and no payment has succeeded on it since mount; a free card never shows it. |
| `VideoCard.VideoCard.HandlePayment` | src/components/VideoCard.tsx:31-40 | A disconnected wallet changes nothing. The record `true` is written and access granted exactly when `makePayment` succeeds, and a failed payment changes neither. The card records whether a payment has succeeded on it, and access stays equal to "free or paid here". Access is never revoked. |
| `ChannelList.DisplayedWithoutLimit` | src/components/ChannelList.tsx:63 | An absent limit or a limit of 0 shows all six channels in catalogue order. |
| `ChannelList.DisplayedPositiveLimit` | src/components/ChannelList.tsx:63 | A positive limit k shows the first `min(k,6)` channels. |
| `ChannelList.DisplayedNegativeLimit` | src/components/ChannelList.tsx:63 | A negative limit -k drops the last k channels, or all of them when k is 6 or more. |
| `ChannelList.DisplayedIsPrefix` | src/components/ChannelList.tsx:63 | Whatever the limit, the list shown is a prefix of the catalogue. |
| `ChannelList.ChannelIdsDistinct` | src/components/ChannelList.tsx:13-56 | Catalogue ids are pairwise distinct, and so are the `/channel/<id>` links. |

## Left out

- The AES cipher itself (CryptoJS passphrase mode with OpenSSL-style key derivation) is only a pair of functions. Its round trip is a hypothesis, not a fact.
- axios and the browser WebSocket transport are modelled as parameters and events. Logging and toasts have no observable effect and are omitted.
- Concurrency between handlers is not modelled. Each handler, or each half of a split handler, is one atomic step.
- The socket's `onerror` handler only logs, so it has no operation. The browser's later `close` event is `SocketClosed`.
- Exceptions thrown by a registered callback, which would stop the `forEach` early, are not modelled: callbacks are taken to return normally.
- The `WebSocket` constructor throwing on an invalid URL is not modelled. `login` catches all its own errors, so in the model the `catch` branch of `handleConnect` is never taken.
- Server answers are taken to have the documented shape: string fields in the login response, string `text` and `sender` in records, a string transaction hash. `typeof text === 'string'` in `saveMessage` is then always true.
- `Date` objects are kept as the value they are built from. Invalid dates and `toLocaleTimeString` formatting are not modelled.
- `ChannelList` limits are integers. `NaN` behaves like an absent limit, and fractional limits, which `slice` truncates, are not modelled.
- The wallet's `chainChanged` reload and the effect cleanup are not modelled. The cleanup passes fresh arrow functions to `removeListener`, so it removes nothing anyway.
- `useWallet` throwing outside a `WalletProvider` is not modelled. The hook's function fields (`connectWallet`, `disconnectWallet`, `makePayment`) are passed through by reference and are the class's methods.
- Presentation is not modelled: JSX markup, the scroll-to-bottom effect, the YouTube live-chat branch of the chat panel, the advanced-settings switch and URL inputs of the connection panel, and the pages, navigation bar and routing.
- `InitialMessages` takes one clock reading for the whole seeded transcript. The source reads `Date.now()` three times, so the three offsets are exact only up to the time between those reads.
- Strings are sequences of Unicode scalar values. JavaScript's `length`, `substring` and `slice` count UTF-16 code units, so `FormatAddress` and the other index-based operations match the source only for text without characters outside the Basic Multilingual Plane. Wallet addresses are ASCII.
