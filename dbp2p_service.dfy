/** The chat-database client: a session obtained by logging in, encrypted
    message storage and history over HTTP, and a WebSocket live channel whose
    chat events are dispatched to registered listeners.

    HTTP replies, WebSocket events and the AES cipher are outside the model:
    each reply is a parameter of the operation that awaits it, each socket
    event is an operation of its own, and the cipher is a pair of functions
    fixed when the service is built. */
module DBP2P {
  import opened Wrappers
  import Js

  const ApiUrl := "http://localhost:8080/api"
  const WsUrl := "ws://localhost:8081/ws"
  const EncryptionKey := "europa-critica-secure-chat-key"
  const DecryptErrorText := "Mensaje cifrado (error al descifrar)"
  const ChatPrefix := "chat_"

  /** The random salt CryptoJS passphrase mode draws afresh on every encryption
      (8 bytes, written into the ciphertext). */
  type Salt = seq<bv8>

  /** AES in CryptoJS passphrase mode, as seen by the client: `encrypt(text, key, salt)`
      always yields a ciphertext string, which depends on the salt drawn for that
      call; `decrypt(ciphertext, key)` yields `None` where CryptoJS throws (malformed
      ciphertext, bytes that are not UTF-8). */
  datatype Cipher = Cipher(encrypt: (string, string, Salt) -> string, decrypt: (string, string) -> Option<string>)

  /** The one property of AES the code relies on: under the fixed key, decryption
      undoes encryption, whatever salt was drawn. It is a hypothesis of the lemmas
      that need it. */
  ghost predicate RoundTrips(c: Cipher) {
    forall t, salt :: c.decrypt(c.encrypt(t, EncryptionKey, salt), EncryptionKey) == Some(t)
  }

  /** A chat message. `encrypted` is `None` when the field is absent. The
      timestamp is kept as the value the `Date` is built from. */
  datatype ChatMessage = ChatMessage(id: string, text: string, sender: string, timestamp: string, encrypted: Option<bool>)

  /** The `data` part of a stored record. A missing `timestamp` is `None`. */
  datatype RecordData = RecordData(text: string, sender: string, timestamp: Option<string>, encrypted: bool)

  /** A record as the collection endpoint and the live channel deliver it.
      `data` is `None` when the record carries no `data` object. */
  datatype StoredRecord = StoredRecord(id: string, createdAt: string, data: Option<RecordData>)

  datatype AuthResponse = AuthResponse(token: string, userId: string, username: string, roles: string)

  datatype RequestHeaders = RequestHeaders(authorization: string, contentType: string)

  /** Every HTTP request the service issues. */
  datatype Request =
    | LoginPost(url: string, username: string, password: string)
    | CollectionPost(url: string, body: ChatMessage, headers: RequestHeaders)
    | CollectionGet(url: string, headers: RequestHeaders)

  /** The WebSocket `readyState`s. */
  datatype ReadyState = Connecting | Open | Closing | Closed

  /** The outbound control frame `{action, collection, document_id}`. */
  datatype ControlFrame = ControlFrame(action: string, collection: string, documentId: string)

  /** A socket the service created: its URL, its state and the frames sent on it. */
  datatype Socket = Socket(url: string, state: ReadyState, sent: seq<ControlFrame>) {
    predicate Live() { state == Connecting || state == Open }
  }

  /** An inbound frame: `Malformed` when it is not JSON or lacks `collection`
      or `document`, otherwise its `type`, `collection` and `document`. */
  datatype Frame = Malformed | Event(kind: string, collection: string, document: StoredRecord)

  /** A registered callback, known by its identity only. */
  type Listener = nat

  /** One call of a callback with a message. */
  datatype Delivery = Delivery(listener: Listener, message: ChatMessage)

  function CollectionUrl(collection: string): string {
    ApiUrl + "/collections/" + collection
  }

  function SocketUrl(token: string): string {
    WsUrl + "?token=" + token
  }

  /** `getHeaders`: the bearer header, or `None` where the source throws for want of a session. */
  function GetHeaders(token: Option<string>): (r: Option<RequestHeaders>)
    ensures r.Some? <==> Js.Truthy(token)
    ensures r.Some? ==> r.value.authorization == "Bearer " + token.value && r.value.contentType == "application/json"
  {
    if Js.Truthy(token) then Some(RequestHeaders("Bearer " + token.value, "application/json")) else None
  }

  /** `encryptMessage`, with `salt` the salt CryptoJS draws for this call. */
  function EncryptMessage(c: Cipher, text: string, salt: Salt): string {
    c.encrypt(text, EncryptionKey, salt)
  }

  /** `decryptMessage`: never fails; an undecryptable text becomes the placeholder. */
  function DecryptMessage(c: Cipher, ciphertext: string): (r: string)
    ensures c.decrypt(ciphertext, EncryptionKey).None? ==> r == DecryptErrorText
    ensures c.decrypt(ciphertext, EncryptionKey).Some? ==> r == c.decrypt(ciphertext, EncryptionKey).value
  {
    c.decrypt(ciphertext, EncryptionKey).GetOr(DecryptErrorText)
  }

  /** Decryption of an encryption gives the plaintext back, never the placeholder. */
  lemma DecryptEncrypted(c: Cipher, text: string, salt: Salt)
    requires RoundTrips(c)
    ensures DecryptMessage(c, EncryptMessage(c, text, salt)) == text
  {
  }

  /** The copy of a message that `saveMessage` sends, `salt` being the salt drawn
      when its text is encrypted. */
  function PrepareForSave(c: Cipher, m: ChatMessage, salt: Salt): (r: ChatMessage)
    ensures r.encrypted == Some(true)
    ensures r.id == m.id && r.sender == m.sender && r.timestamp == m.timestamp
    ensures m.encrypted == Some(true) ==> r == m
    ensures m.encrypted != Some(true) ==> r.text == EncryptMessage(c, m.text, salt)
  {
    if m.encrypted != Some(true) then m.(text := EncryptMessage(c, m.text, salt), encrypted := Some(true)) else m
  }

  /** The message a record stands for, or `None` where reading `data` throws. */
  function DecodeRecord(c: Cipher, rec: StoredRecord): (r: Option<ChatMessage>)
    ensures r.Some? <==> rec.data.Some?
    ensures r.Some? ==> r.value.id == rec.id && r.value.sender == rec.data.value.sender && r.value.encrypted == None
    ensures r.Some? ==> r.value.text == (if rec.data.value.encrypted then DecryptMessage(c, rec.data.value.text) else rec.data.value.text)
    ensures r.Some? ==> r.value.timestamp == (if rec.data.value.timestamp.Some? && rec.data.value.timestamp.value != "" then rec.data.value.timestamp.value else rec.createdAt)
  {
    match rec.data
    case None => None
    case Some(d) =>
      var stamp := if d.timestamp.Some? && d.timestamp.value != "" then d.timestamp.value else rec.createdAt;
      var text := if d.encrypted then DecryptMessage(c, d.text) else d.text;
      Some(ChatMessage(rec.id, text, d.sender, stamp, None))
  }

  /** The `map` in `getMessages`: one message per record, in record order, or
      `None` when a record lacks `data` (the `map` throws and the fetch yields `[]`). */
  function DecodeHistory(c: Cipher, records: seq<StoredRecord>): (r: Option<seq<ChatMessage>>)
    ensures r.Some? <==> forall i :: 0 <= i < |records| ==> records[i].data.Some?
    ensures r.Some? ==> |r.value| == |records|
    ensures r.Some? ==> forall i :: 0 <= i < |records| ==> Some(r.value[i]) == DecodeRecord(c, records[i])
  {
    if records == [] then Some([])
    else
      var head, tail := DecodeRecord(c, records[0]), DecodeHistory(c, records[1..]);
      assert forall i :: 1 <= i < |records| ==> records[i] == records[1..][i - 1];
      if head.Some? && tail.Some? then Some([head.value] + tail.value) else None
  }

  /** The message an inbound frame carries to listeners, or `None` when the frame
      is dropped: malformed, not a `create` event, outside the `chat_` collections,
      or without `data` in its document. */
  function Inbound(c: Cipher, frame: Frame): (r: Option<ChatMessage>)
    ensures r.Some? <==> frame.Event? && frame.kind == "create" && ChatPrefix <= frame.collection && frame.document.data.Some?
    ensures r.Some? ==> r == DecodeRecord(c, frame.document)
  {
    if frame.Event? && frame.kind == "create" && ChatPrefix <= frame.collection then DecodeRecord(c, frame.document)
    else None
  }

  /** `deliveries` is the trace of calling each listener once with `m`, in registration order. */
  predicate DeliversToAll(deliveries: seq<Delivery>, listeners: seq<Listener>, m: ChatMessage) {
    |deliveries| == |listeners| && forall j :: 0 <= j < |listeners| ==> deliveries[j] == Delivery(listeners[j], m)
  }

  /** `ws.close()`: a connecting or open socket starts closing; otherwise nothing happens. */
  function CloseSocket(s: Socket): (r: Socket)
    ensures !r.Live() && r.url == s.url && r.sent == s.sent
    ensures !s.Live() ==> r == s
  {
    if s.Live() then s.(state := Closing) else s
  }

  class DBP2PService {
    const cipher: Cipher
    var token: Option<string>
    var userId: Option<string>
    var username: Option<string>
    /** The socket slot `ws`: an index into `sockets`, or `None` for `null`. */
    var ws: Option<nat>
    var messageCallbacks: seq<Listener>
    /** Every socket this service has created, oldest first. */
    var sockets: seq<Socket>
    /** Every HTTP request this service has issued, oldest first. */
    var requests: seq<Request>

    /** The slot points at a socket, and no socket outside the slot is live. */
    ghost predicate Valid()
      reads this
    {
      && (ws.Some? ==> ws.value < |sockets|)
      && forall i :: 0 <= i < |sockets| && ws != Some(i) ==> !sockets[i].Live()
    }

    constructor (cipher: Cipher)
      ensures Valid() && this.cipher == cipher
      ensures token == None && userId == None && username == None
      ensures ws == None && messageCallbacks == [] && sockets == [] && requests == []
      ensures !IsConnected()
    {
      this.cipher := cipher;
      token, userId, username := None, None, None;
      ws, messageCallbacks := None, [];
      sockets, requests := [], [];
    }

    /** `isConnected`: a token is held, even an empty one. */
    function IsConnected(): bool
      reads this
    {
      token.Some?
    }

    /** `getCurrentUsername`. */
    function CurrentUsername(): Option<string>
      reads this
    {
      username
    }

    /** At most one socket is live, and it is the one in the slot. */
    lemma AtMostOneLive(i: nat, j: nat)
      requires Valid() && i < |sockets| && j < |sockets|
      requires sockets[i].Live() && sockets[j].Live()
      ensures i == j && ws == Some(i)
    {
    }

    /** `login`: one request is issued; `response` is its reply, `None` when it fails. */
    method Login(user: string, password: string, response: Option<AuthResponse>) returns (ok: bool)
      requires Valid()
      modifies this
      ensures Valid()
      ensures ok == response.Some?
      ensures requests == old(requests) + [LoginPost(ApiUrl + "/login", user, password)]
      ensures ok ==> token == Some(response.value.token) && userId == Some(response.value.userId) && username == Some(response.value.username)
      ensures ok ==> IsConnected() && CurrentUsername() == Some(response.value.username)
      ensures !ok ==> token == old(token) && userId == old(userId) && username == old(username)
      ensures ws == old(ws) && sockets == old(sockets) && messageCallbacks == old(messageCallbacks)
    {
      requests := requests + [LoginPost(ApiUrl + "/login", user, password)];
      match response
      case Some(r) =>
        token, userId, username := Some(r.token), Some(r.userId), Some(r.username);
        ok := true;
      case None =>
        ok := false;
    }

    /** `saveMessage`: without a session nothing is sent and the result is `null`;
        otherwise the encrypted copy is posted and `reply` is the server's answer
        (`None` for a failed request or an empty body); `salt` is the salt the
        encryption draws. */
    method SaveMessage(collection: string, message: ChatMessage, salt: Salt, reply: Option<ChatMessage>) returns (saved: Option<ChatMessage>)
      requires Valid()
      modifies this
      ensures Valid()
      ensures token == old(token) && userId == old(userId) && username == old(username)
      ensures !Js.Truthy(token) ==> saved == None && requests == old(requests)
      ensures Js.Truthy(token) ==> saved == reply
      ensures Js.Truthy(token) ==>
        requests == old(requests) + [CollectionPost(CollectionUrl(collection), PrepareForSave(cipher, message, salt), GetHeaders(token).value)]
      ensures ws == old(ws) && sockets == old(sockets) && messageCallbacks == old(messageCallbacks)
    {
      if !Js.Truthy(token) {
        return None;
      }
      var toSave := message;
      if toSave.encrypted != Some(true) {
        toSave := toSave.(text := EncryptMessage(cipher, toSave.text, salt), encrypted := Some(true));
      }
      var headers := GetHeaders(token);
      requests := requests + [CollectionPost(CollectionUrl(collection), toSave, headers.value)];
      saved := reply;
    }

    /** `getMessages`: without a session nothing is requested and the result is
        empty; otherwise `reply` is the records returned (`None` for a failed
        request or an empty body). */
    method GetMessages(collection: string, reply: Option<seq<StoredRecord>>) returns (messages: seq<ChatMessage>)
      requires Valid()
      modifies this
      ensures Valid()
      ensures token == old(token) && userId == old(userId) && username == old(username)
      ensures !Js.Truthy(token) ==> messages == [] && requests == old(requests)
      ensures Js.Truthy(token) ==> requests == old(requests) + [CollectionGet(CollectionUrl(collection), GetHeaders(token).value)]
      ensures Js.Truthy(token) ==> messages == (if reply.Some? && DecodeHistory(cipher, reply.value).Some? then DecodeHistory(cipher, reply.value).value else [])
      ensures ws == old(ws) && sockets == old(sockets) && messageCallbacks == old(messageCallbacks)
    {
      if !Js.Truthy(token) {
        return [];
      }
      var headers := GetHeaders(token);
      requests := requests + [CollectionGet(CollectionUrl(collection), headers.value)];
      messages := [];
      if reply.Some? {
        var decoded := DecodeHistory(cipher, reply.value);
        if decoded.Some? {
          messages := decoded.value;
        }
      }
    }

    /** `connectWebSocket`: without a session nothing happens; otherwise the socket
        in the slot is closed and a new connecting socket takes its place. */
    method ConnectWebSocket() returns (ok: bool)
      requires Valid()
      modifies this
      ensures Valid()
      ensures token == old(token) && userId == old(userId) && username == old(username)
      ensures ok == Js.Truthy(token)
      ensures !ok ==> ws == old(ws) && sockets == old(sockets)
      ensures ok ==> ws == Some(|old(sockets)|) && |sockets| == |old(sockets)| + 1
      ensures ok ==> sockets[|old(sockets)|] == Socket(SocketUrl(token.value), Connecting, [])
      ensures ok ==> forall i :: 0 <= i < |old(sockets)| ==>
        sockets[i] == if old(ws) == Some(i) then CloseSocket(old(sockets)[i]) else old(sockets)[i]
      ensures requests == old(requests) && messageCallbacks == old(messageCallbacks)
    {
      if !Js.Truthy(token) {
        return false;
      }
      if ws.Some? {
        sockets := sockets[ws.value := CloseSocket(sockets[ws.value])];
      }
      sockets := sockets + [Socket(SocketUrl(token.value), Connecting, [])];
      ws := Some(|sockets| - 1);
      ok := true;
    }

    /** `subscribeToCollection`: sends one subscribe frame on the socket in the
        slot when it is open, and nothing otherwise. */
    method SubscribeToCollection(collection: string) returns (ok: bool)
      requires Valid()
      modifies this
      ensures Valid()
      ensures ws == old(ws) && token == old(token) && userId == old(userId) && username == old(username)
      ensures ok == (ws.Some? && old(sockets)[ws.value].state == Open)
      ensures !ok ==> sockets == old(sockets)
      ensures ok ==> sockets == old(sockets)[ws.value := old(sockets)[ws.value].(sent := old(sockets)[ws.value].sent + [ControlFrame("subscribe", collection, "")])]
      ensures requests == old(requests) && messageCallbacks == old(messageCallbacks)
    {
      if ws.None? || sockets[ws.value].state != Open {
        return false;
      }
      var s := sockets[ws.value];
      sockets := sockets[ws.value := s.(sent := s.sent + [ControlFrame("subscribe", collection, "")])];
      ok := true;
    }

    /** `onNewMessage`: registers a listener, duplicates included. */
    method OnNewMessage(listener: Listener)
      requires Valid()
      modifies this
      ensures Valid()
      ensures messageCallbacks == old(messageCallbacks) + [listener]
      ensures ws == old(ws) && sockets == old(sockets) && requests == old(requests)
      ensures token == old(token) && userId == old(userId) && username == old(username)
    {
      messageCallbacks := messageCallbacks + [listener];
    }

    /** `closeConnection`: closes the socket in the slot and empties the slot. */
    method CloseConnection()
      requires Valid()
      modifies this
      ensures Valid()
      ensures ws == None
      ensures old(ws).None? ==> sockets == old(sockets)
      ensures old(ws).Some? ==> sockets == old(sockets)[old(ws).value := CloseSocket(old(sockets)[old(ws).value])]
      ensures forall i :: 0 <= i < |sockets| ==> !sockets[i].Live()
      ensures token == old(token) && userId == old(userId) && username == old(username)
      ensures requests == old(requests) && messageCallbacks == old(messageCallbacks)
    {
      if ws.Some? {
        sockets := sockets[ws.value := CloseSocket(sockets[ws.value])];
        ws := None;
      }
    }

    /** The environment completes the handshake of socket `i`. */
    method SocketOpened(i: nat)
      requires Valid() && i < |sockets|
      modifies this
      ensures Valid()
      ensures sockets == old(sockets)[i := if old(sockets)[i].state == Connecting then old(sockets)[i].(state := Open) else old(sockets)[i]]
      ensures ws == old(ws) && token == old(token) && userId == old(userId) && username == old(username)
      ensures requests == old(requests) && messageCallbacks == old(messageCallbacks)
    {
      if sockets[i].state == Connecting {
        sockets := sockets[i := sockets[i].(state := Open)];
      }
    }

    /** The environment reports socket `i` closed (after `close()`, a failed handshake or a drop). */
    method SocketClosed(i: nat)
      requires Valid() && i < |sockets|
      modifies this
      ensures Valid()
      ensures sockets == old(sockets)[i := old(sockets)[i].(state := Closed)]
      ensures ws == old(ws) && token == old(token) && userId == old(userId) && username == old(username)
      ensures requests == old(requests) && messageCallbacks == old(messageCallbacks)
    {
      sockets := sockets[i := sockets[i].(state := Closed)];
    }

    /** The `onmessage` handler of socket `i` receiving `frame`: returns the
        callback calls it makes. A socket that is not open drops every frame. */
    method HandleFrame(i: nat, frame: Frame) returns (deliveries: seq<Delivery>)
      requires i < |sockets|
      ensures sockets[i].state != Open || Inbound(cipher, frame).None? ==> deliveries == []
      ensures sockets[i].state == Open && Inbound(cipher, frame).Some? ==>
        DeliversToAll(deliveries, messageCallbacks, Inbound(cipher, frame).value)
      ensures Valid() && deliveries != [] ==> ws == Some(i)
    {
      deliveries := [];
      if sockets[i].state != Open {
        return;
      }
      var message := Inbound(cipher, frame);
      if message.None? {
        return;
      }
      var k := 0;
      while k < |messageCallbacks|
        invariant 0 <= k <= |messageCallbacks|
        invariant |deliveries| == k
        invariant forall j :: 0 <= j < k ==> deliveries[j] == Delivery(messageCallbacks[j], message.value)
      {
        deliveries := deliveries + [Delivery(messageCallbacks[k], message.value)];
        k := k + 1;
      }
    }

    /** Only the socket in the slot can deliver anything to the listeners. */
    lemma OnlyCurrentSocketDelivers(i: nat)
      requires Valid() && i < |sockets| && sockets[i].state == Open
      ensures ws == Some(i)
    {
    }
  }

  /** The server's copy of a posted body: the shape `getMessages` and the live
      channel read back. */
  function StoredAs(m: ChatMessage, createdAt: string): StoredRecord {
    StoredRecord(m.id, createdAt, Some(RecordData(m.text, m.sender, Some(m.timestamp), m.encrypted == Some(true))))
  }

  /** What is saved reads back as what was written: a plaintext message saved
      and fetched again has its text, sender and id back, never ciphertext. */
  lemma SaveThenRead(c: Cipher, m: ChatMessage, salt: Salt, createdAt: string)
    requires RoundTrips(c)
    requires m.encrypted != Some(true)
    ensures DecodeRecord(c, StoredAs(PrepareForSave(c, m, salt), createdAt))
      == Some(ChatMessage(m.id, m.text, m.sender, if m.timestamp != "" then m.timestamp else createdAt, None))
  {
    DecryptEncrypted(c, m.text, salt);
  }

  /** History comes back as plaintext: when every flagged record holds the
      encryption of its plaintext (under any salt) and every other record holds
      the plaintext itself, each fetched message has exactly that plaintext, in
      record order. */
  lemma HistoryIsPlaintext(c: Cipher, records: seq<StoredRecord>, plain: seq<string>, salts: seq<Salt>)
    requires RoundTrips(c)
    requires |plain| == |records| && |salts| == |records|
    requires forall i :: 0 <= i < |records| ==> records[i].data.Some?
    requires forall i :: 0 <= i < |records| ==>
      records[i].data.value.text == if records[i].data.value.encrypted then EncryptMessage(c, plain[i], salts[i]) else plain[i]
    ensures DecodeHistory(c, records).Some?
    ensures forall i :: 0 <= i < |records| ==> DecodeHistory(c, records).value[i].text == plain[i]
  {
    forall i | 0 <= i < |records|
      ensures DecodeHistory(c, records).value[i].text == plain[i]
    {
      DecryptEncrypted(c, plain[i], salts[i]);
    }
  }

  /** A plaintext message saved by one client and announced as a `create` event
      on a `chat_` collection reaches listeners as the original plaintext. */
  lemma SavedMessageArrivesAsPlaintext(c: Cipher, m: ChatMessage, salt: Salt, collection: string, createdAt: string)
    requires RoundTrips(c)
    requires m.encrypted != Some(true)
    requires ChatPrefix <= collection
    ensures Inbound(c, Event("create", collection, StoredAs(PrepareForSave(c, m, salt), createdAt))).Some?
    ensures Inbound(c, Event("create", collection, StoredAs(PrepareForSave(c, m, salt), createdAt))).value.text == m.text
  {
    SaveThenRead(c, m, salt, createdAt);
  }
}
