/**
 * The observable connection state: six fields (connected flag, server
 * address, server port, received log, sent log, status text), each replaced
 * as a whole by a single-purpose mutator. Observation by subscribers is not
 * modelled; the fields are plain fields.
 */
module ConnectionState {
  import opened Text

  /** Status shown while no connection is up. */
  const StatusNotConnected: string := "未连接"

  /** Status derived by `updateConnectionState(true)`. */
  function ConnectedStatus(address: string, port: int32): string
  {
    "已连接到 " + address + ":" + Decimal(port as int)
  }

  /** A snapshot of the six fields. */
  datatype ConnectionView = ConnectionView(
    connected: bool,
    address: string,
    port: int32,
    received: seq<string>,
    sent: seq<string>,
    status: string)

  /** The values the fields start with. */
  function InitialView(): ConnectionView
  {
    ConnectionView(false, "", 0, [], [], StatusNotConnected)
  }

  /** `updateConnectionState`: the flag, and the status derived from it. */
  function WithConnection(v: ConnectionView, connected: bool): (r: ConnectionView)
  {
    v.(connected := connected,
       status := if connected then ConnectedStatus(v.address, v.port) else StatusNotConnected)
  }

  /** `clearMessages`: both logs reset to empty. */
  function Cleared(v: ConnectionView): (r: ConnectionView)
  {
    v.(received := [], sent := [])
  }

  /** The initial state is disconnected, with nothing logged and no server. */
  lemma InitialIsDisconnected()
    ensures var v := InitialView();
      !v.connected && v.address == "" && v.port == 0 && v.received == [] && v.sent == []
      && v.status == StatusNotConnected
  {
  }

  /**
   * Updating the connection flag touches only the flag and the status, and
   * the status names the recorded server exactly when connected.
   */
  lemma WithConnectionFrame(v: ConnectionView, connected: bool)
    ensures var r := WithConnection(v, connected);
      && r.connected == connected
      && r.address == v.address && r.port == v.port
      && r.received == v.received && r.sent == v.sent
      && (connected ==> r.status == "已连接到 " + v.address + ":" + Decimal(v.port as int))
      && (!connected ==> r.status == "未连接")
  {
  }

  /** The connected status text is never the disconnected one. */
  lemma ConnectedStatusDiffers(address: string, port: int32)
    ensures ConnectedStatus(address, port) != StatusNotConnected
  {
    assert |ConnectedStatus(address, port)| > |StatusNotConnected|;
  }

  /** Clearing empties both logs, keeps everything else, and a second clear changes nothing. */
  lemma ClearedIdempotent(v: ConnectionView)
    ensures Cleared(v).received == [] && Cleared(v).sent == []
    ensures Cleared(v).connected == v.connected && Cleared(v).address == v.address
    ensures Cleared(v).port == v.port && Cleared(v).status == v.status
    ensures Cleared(Cleared(v)) == Cleared(v)
  {
  }

  class TcpConnectionState {
    var isConnected: bool
    var serverAddress: string
    var serverPort: int32
    var receivedMessages: seq<string>
    var sentMessages: seq<string>
    var statusMessage: string

    /** The six fields as one value. */
    function View(): ConnectionView
      reads this
    {
      ConnectionView(isConnected, serverAddress, serverPort, receivedMessages, sentMessages, statusMessage)
    }

    constructor ()
      ensures View() == InitialView()
    {
      isConnected := false;
      serverAddress := "";
      serverPort := 0;
      receivedMessages := [];
      sentMessages := [];
      statusMessage := StatusNotConnected;
    }

    method UpdateConnectionState(connected: bool)
      modifies this
      ensures View() == WithConnection(old(View()), connected)
    {
      isConnected := connected;
      statusMessage := if connected then ConnectedStatus(serverAddress, serverPort) else StatusNotConnected;
    }

    method SetServerInfo(address: string, port: int32)
      modifies this
      ensures View() == old(View()).(address := address, port := port)
    {
      serverAddress := address;
      serverPort := port;
    }

    method AddReceivedMessage(message: string)
      modifies this
      ensures View() == old(View()).(received := old(receivedMessages) + [message])
    {
      receivedMessages := receivedMessages + [message];
    }

    method AddSentMessage(message: string)
      modifies this
      ensures View() == old(View()).(sent := old(sentMessages) + [message])
    {
      sentMessages := sentMessages + [message];
    }

    method UpdateStatusMessage(message: string)
      modifies this
      ensures View() == old(View()).(status := message)
    {
      statusMessage := message;
    }

    method ClearMessages()
      modifies this
      ensures View() == Cleared(old(View()))
    {
      receivedMessages := [];
      sentMessages := [];
    }
  }
}
