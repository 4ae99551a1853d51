/** The connection panel of the chat database: credential inputs and a
    connect/disconnect button driving the shared `DBP2PService`. */
module DBP2PConfig {
  import opened Wrappers
  import DBP2P

  class DBP2PConfig {
    const service: DBP2P.DBP2PService
    /** Whether the parent passed an `onConnect` callback. */
    const hasOnConnect: bool
    var username: string
    var password: string
    var isConnecting: bool
    var isConnected: bool
    /** How many times `onConnect` has been called. */
    var onConnectCalls: nat

    constructor (service: DBP2P.DBP2PService, hasOnConnect: bool)
      ensures this.service == service && this.hasOnConnect == hasOnConnect
      ensures username == "admin" && password == "admin123"
      ensures !isConnecting && !isConnected && onConnectCalls == 0
    {
      this.service, this.hasOnConnect := service, hasOnConnect;
      username, password := "admin", "admin123";
      isConnecting, isConnected, onConnectCalls := false, false, 0;
    }

    /** The credential inputs are disabled while connected. */
    function CredentialsDisabled(): bool
      reads this
    {
      isConnected
    }

    /** The username input's `onChange`; a disabled input fires none. */
    method EditUsername(text: string)
      modifies this`username
      ensures username == if CredentialsDisabled() then old(username) else text
    {
      if !CredentialsDisabled() {
        username := text;
      }
    }

    /** The password input's `onChange`; a disabled input fires none. */
    method EditPassword(text: string)
      modifies this`password
      ensures password == if CredentialsDisabled() then old(password) else text
    {
      if !CredentialsDisabled() {
        password := text;
      }
    }

    /** The part of `handleConnect` before it awaits `login`: empty credentials
        stop it, otherwise the attempt is marked as pending. */
    method BeginConnect() returns (proceed: bool)
      modifies this`isConnecting
      ensures proceed == (username != "" && password != "")
      ensures proceed ==> isConnecting
      ensures !proceed ==> isConnecting == old(isConnecting)
    {
      if username == "" || password == "" {
        return false;
      }
      isConnecting := true;
      proceed := true;
    }

    /** The rest of `handleConnect`: `login` with the credentials `user` and
        `pass` read when the handler started (the request is built before the
        first `await`, so edits made while it is pending do not reach it) and
        `response` as the server's answer, then on success the socket and
        `onConnect`; the `finally` clears `isConnecting` on every path. */
    method CompleteConnect(user: string, pass: string, response: Option<DBP2P.AuthResponse>) returns (success: bool)
      requires service.Valid()
      modifies this`isConnecting, this`isConnected, this`onConnectCalls, service
      ensures service.Valid()
      ensures !isConnecting
      ensures success == response.Some?
      ensures success ==> isConnected && CredentialsDisabled()
      ensures !success ==> isConnected == old(isConnected)
      ensures onConnectCalls == if success && hasOnConnect then old(onConnectCalls) + 1 else old(onConnectCalls)
      ensures service.requests == old(service.requests) + [DBP2P.LoginPost(DBP2P.ApiUrl + "/login", user, pass)]
      ensures !success ==> service.sockets == old(service.sockets) && service.ws == old(service.ws)
      ensures !success ==> service.token == old(service.token) && service.userId == old(service.userId)
      ensures !success ==> service.username == old(service.username)
      ensures success ==> service.token == Some(response.value.token)
      ensures success && response.value.token != "" ==>
        |service.sockets| == |old(service.sockets)| + 1 && service.ws == Some(|old(service.sockets)|)
      ensures success && response.value.token == "" ==> service.sockets == old(service.sockets)
      ensures service.messageCallbacks == old(service.messageCallbacks)
    {
      success := service.Login(user, pass, response);
      if success {
        isConnected := true;
        var socketOpened := service.ConnectWebSocket();
        if hasOnConnect {
          onConnectCalls := onConnectCalls + 1;
        }
      }
      isConnecting := false;
    }

    /** `handleConnect` as one step. */
    method HandleConnect(response: Option<DBP2P.AuthResponse>)
      requires service.Valid()
      modifies this`isConnecting, this`isConnected, this`onConnectCalls, service
      ensures service.Valid()
      ensures username == "" || password == "" ==>
        isConnecting == old(isConnecting) && isConnected == old(isConnected) && onConnectCalls == old(onConnectCalls)
        && service.requests == old(service.requests) && service.sockets == old(service.sockets)
        && service.token == old(service.token)
      ensures username == "" || password == "" ==>
        service.ws == old(service.ws) && service.userId == old(service.userId)
        && service.username == old(service.username) && service.messageCallbacks == old(service.messageCallbacks)
      ensures username != "" && password != "" ==> !isConnecting
      ensures username != "" && password != "" ==>
        service.requests == old(service.requests) + [DBP2P.LoginPost(DBP2P.ApiUrl + "/login", username, password)]
      ensures username != "" && password != "" && response.None? ==>
        isConnected == old(isConnected) && service.sockets == old(service.sockets) && onConnectCalls == old(onConnectCalls)
      ensures username != "" && password != "" && response.Some? ==> isConnected
      ensures username != "" && password != "" && response.Some? ==>
        onConnectCalls == (if hasOnConnect then old(onConnectCalls) + 1 else old(onConnectCalls))
    {
      var proceed := BeginConnect();
      if proceed {
        var success := CompleteConnect(username, password, response);
      }
    }

    /** `handleDisconnect`: closes the socket and clears `isConnected`; the
        service keeps its token. */
    method HandleDisconnect()
      requires service.Valid()
      modifies this`isConnected, service
      ensures service.Valid()
      ensures !isConnected && !CredentialsDisabled()
      ensures service.ws == None
      ensures forall i :: 0 <= i < |service.sockets| ==> !service.sockets[i].Live()
      ensures service.token == old(service.token) && service.IsConnected() == old(service.IsConnected())
      ensures service.requests == old(service.requests) && service.messageCallbacks == old(service.messageCallbacks)
    {
      service.CloseConnection();
      isConnected := false;
    }
  }
}
