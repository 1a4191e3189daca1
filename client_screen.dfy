/**
 * The TCP client screen: the merged message list it displays, the port
 * text's fallback to 8080, and the connect/disconnect toggle, clear and
 * send handlers it wires to the connection coordinator.
 */
module ClientScreen {
  import opened Text
  import opened ConnectionManager

  const DefaultServerIp: string := "192.168.4.1"
  const DefaultPortText: string := "8080"
  const FallbackPort: int32 := 8080

  /** `serverPort.toIntOrNull() ?: 8080`. */
  function PortOrDefault(portText: string): int32
  {
    ParseInt(portText).GetOr(FallbackPort)
  }

  /** A printed port is read back as itself. */
  lemma PortOrDefaultReadsPrintedPort(port: int32)
    ensures PortOrDefault(Decimal(port as int)) == port
  {
    ParseDecimal(port);
  }

  /** Optionally signed digit text whose value fits in an `Int` yields that value, leading zeros and '+' included. */
  lemma PortOrDefaultReadsIntegerText(portText: string)
    requires IntegerText(portText) && InInt32Range(SignedValue(portText))
    ensures PortOrDefault(portText) as int == SignedValue(portText)
  {
    ParseComplete(portText);
  }

  /**
   * Any other text falls back to 8080: text that is not an optionally signed
   * run of digits, and digit runs outside the `Int` range.
   */
  lemma PortOrDefaultFallsBack(portText: string)
    requires !IntegerText(portText) || !InInt32Range(SignedValue(portText))
    ensures PortOrDefault(portText) == FallbackPort
  {
    if IntegerText(portText) {
      ParseComplete(portText);
    } else {
      ParseRejects(portText);
    }
  }

  // ---------------------------------------------------------------------
  // The merged message list

  /** A displayed message and whether it was received (true) or sent (false). */
  type Tagged = (string, bool)

  /** Every message of `log`, tagged `received`. */
  function Tag(log: seq<string>, received: bool): (r: seq<Tagged>)
    ensures |r| == |log|
    ensures forall i :: 0 <= i < |log| ==> r[i] == (log[i], received)
  {
    seq(|log|, i requires 0 <= i < |log| => (log[i], received))
  }

  /**
   * The list the screen shows: the first received message, then the first
   * sent one, then the second of each, and so on; once one log runs out the
   * rest of the other follows.
   */
  function Interleave(received: seq<string>, sent: seq<string>): seq<Tagged>
    decreases |received| + |sent|
  {
    if received != [] && sent != [] then
      [(received[0], true), (sent[0], false)] + Interleave(received[1..], sent[1..])
    else if received != [] then
      [(received[0], true)] + Interleave(received[1..], sent)
    else if sent != [] then
      [(sent[0], false)] + Interleave(received, sent[1..])
    else
      []
  }

  /** The messages of `list` tagged `received`, in order. */
  function Messages(list: seq<Tagged>, received: bool): seq<string>
  {
    if list == [] then []
    else if list[0].1 == received then [list[0].0] + Messages(list[1..], received)
    else Messages(list[1..], received)
  }

  function Min(a: nat, b: nat): nat
  {
    if a <= b then a else b
  }

  lemma {:induction false} MessagesAppend(a: seq<Tagged>, b: seq<Tagged>, received: bool)
    ensures Messages(a + b, received) == Messages(a, received) + Messages(b, received)
  {
    if a != [] {
      assert (a + b)[1..] == a[1..] + b;
      MessagesAppend(a[1..], b, received);
    } else {
      assert a + b == b;
    }
  }

  /** The merged list holds every message of both logs and nothing else. */
  lemma {:induction false} InterleaveLength(received: seq<string>, sent: seq<string>)
    decreases |received| + |sent|
    ensures |Interleave(received, sent)| == |received| + |sent|
  {
    if received != [] && sent != [] {
      InterleaveLength(received[1..], sent[1..]);
    } else if received != [] {
      InterleaveLength(received[1..], sent);
    } else if sent != [] {
      InterleaveLength(received, sent[1..]);
    }
  }

  /** The list is empty, and the screen shows its placeholder, exactly when both logs are empty. */
  lemma InterleaveEmpty(received: seq<string>, sent: seq<string>)
    ensures Interleave(received, sent) == [] <==> received == [] && sent == []
  {
    InterleaveLength(received, sent);
  }

  /**
   * Taking the received-tagged messages of the list gives back the received
   * log in order, and the sent-tagged ones the sent log.
   */
  lemma {:induction false} InterleaveSplitsBack(received: seq<string>, sent: seq<string>)
    decreases |received| + |sent|
    ensures Messages(Interleave(received, sent), true) == received
    ensures Messages(Interleave(received, sent), false) == sent
  {
    if received != [] && sent != [] {
      var head: seq<Tagged> := [(received[0], true), (sent[0], false)];
      InterleaveSplitsBack(received[1..], sent[1..]);
      MessagesAppend(head, Interleave(received[1..], sent[1..]), true);
      MessagesAppend(head, Interleave(received[1..], sent[1..]), false);
      assert head[1..] == [(sent[0], false)];
      assert received == [received[0]] + received[1..];
      assert sent == [sent[0]] + sent[1..];
    } else if received != [] {
      var head: seq<Tagged> := [(received[0], true)];
      InterleaveSplitsBack(received[1..], sent);
      MessagesAppend(head, Interleave(received[1..], sent), true);
      MessagesAppend(head, Interleave(received[1..], sent), false);
      assert received == [received[0]] + received[1..];
    } else if sent != [] {
      var head: seq<Tagged> := [(sent[0], false)];
      InterleaveSplitsBack(received, sent[1..]);
      MessagesAppend(head, Interleave(received, sent[1..]), true);
      MessagesAppend(head, Interleave(received, sent[1..]), false);
      assert sent == [sent[0]] + sent[1..];
    }
  }

  /**
   * While both logs last the list alternates: position 2i holds the i-th
   * received message and position 2i+1 the i-th sent one.
   */
  lemma {:induction false} InterleaveAlternates(received: seq<string>, sent: seq<string>, i: nat)
    requires i < |received| && i < |sent|
    ensures var list := Interleave(received, sent);
      2 * i + 1 < |list| && list[2 * i] == (received[i], true) && list[2 * i + 1] == (sent[i], false)
  {
    InterleaveLength(received, sent);
    if i > 0 {
      var rest := Interleave(received[1..], sent[1..]);
      InterleaveAlternates(received[1..], sent[1..], i - 1);
      assert Interleave(received, sent) == [(received[0], true), (sent[0], false)] + rest;
    }
  }

  /** Once the shorter log is used up, the list goes on with the rest of the longer one, in order. */
  lemma {:induction false} InterleaveTail(received: seq<string>, sent: seq<string>)
    decreases |received| + |sent|
    ensures var m := Min(|received|, |sent|);
      && 2 * m <= |Interleave(received, sent)|
      && Interleave(received, sent)[2 * m..] == Tag(received[m..], true) + Tag(sent[m..], false)
  {
    InterleaveLength(received, sent);
    var m := Min(|received|, |sent|);
    if received != [] && sent != [] {
      var rest := Interleave(received[1..], sent[1..]);
      InterleaveTail(received[1..], sent[1..]);
      assert Interleave(received, sent) == [(received[0], true), (sent[0], false)] + rest;
      assert Interleave(received, sent)[2 * m..] == rest[2 * (m - 1)..];
      assert received[m..] == received[1..][m - 1..];
      assert sent[m..] == sent[1..][m - 1..];
    } else {
      InterleaveOneSided(received, sent);
    }
  }

  /** With no sent messages the list is the received log, tagged. */
  lemma {:induction false} OnlyReceived(received: seq<string>)
    ensures Interleave(received, []) == Tag(received, true)
  {
    if received != [] {
      OnlyReceived(received[1..]);
      assert Tag(received, true) == [(received[0], true)] + Tag(received[1..], true);
    }
  }

  /** With no received messages the list is the sent log, tagged. */
  lemma {:induction false} OnlySent(sent: seq<string>)
    ensures Interleave([], sent) == Tag(sent, false)
  {
    if sent != [] {
      OnlySent(sent[1..]);
      assert Tag(sent, false) == [(sent[0], false)] + Tag(sent[1..], false);
    }
  }

  /** With one log empty the list is the other log, tagged. */
  lemma InterleaveOneSided(received: seq<string>, sent: seq<string>)
    requires received == [] || sent == []
    ensures Interleave(received, sent) == Tag(received, true) + Tag(sent, false)
  {
    if sent == [] {
      OnlyReceived(received);
      assert Tag(sent, false) == [];
    } else {
      OnlySent(sent);
      assert Tag(received, true) == [];
    }
  }

  /** The first message of `log`, tagged, if there is one. */
  function Front(log: seq<string>, received: bool): seq<Tagged>
  {
    if log == [] then [] else [(log[0], received)]
  }

  /** `log` without its first message, if there is one. */
  function Behind(log: seq<string>): seq<string>
  {
    if log == [] then [] else log[1..]
  }

  /**
   * One pass of the merge loop at indices `ri` and `si` takes the front of
   * each log that still has one, and leaves the indices moved past them.
   */
  lemma PassUnfold(received: seq<string>, sent: seq<string>, ri: nat, si: nat)
    requires ri <= |received| && si <= |sent| && (ri < |received| || si < |sent|)
    ensures var ri', si' := (if ri < |received| then ri + 1 else ri), (if si < |sent| then si + 1 else si);
      Interleave(received[ri..], sent[si..])
      == Front(received[ri..], true) + Front(sent[si..], false) + Interleave(received[ri'..], sent[si'..])
  {
    var r, s := received[ri..], sent[si..];
    assert Behind(r) == received[if ri < |received| then ri + 1 else ri..];
    assert Behind(s) == sent[if si < |sent| then si + 1 else si..];
  }

  /** A pass that appends the fronts to the merged prefix keeps the loop's invariant. */
  lemma PassKeepsMerge(received: seq<string>, sent: seq<string>, ri: nat, si: nat, before: seq<Tagged>)
    requires ri <= |received| && si <= |sent| && (ri < |received| || si < |sent|)
    requires before + Interleave(received[ri..], sent[si..]) == Interleave(received, sent)
    ensures var ri', si' := (if ri < |received| then ri + 1 else ri), (if si < |sent| then si + 1 else si);
      before + Front(received[ri..], true) + Front(sent[si..], false) + Interleave(received[ri'..], sent[si'..])
      == Interleave(received, sent)
  {
    PassUnfold(received, sent, ri, si);
  }

  /** The merge loop of the message display: two indices, one push from each log per pass. */
  method MergeMessages(receivedMessages: seq<string>, sentMessages: seq<string>) returns (combined: seq<Tagged>)
    ensures combined == Interleave(receivedMessages, sentMessages)
    ensures |combined| == |receivedMessages| + |sentMessages|
  {
    combined := [];
    var receiveIndex, sentIndex := 0, 0;
    while receiveIndex < |receivedMessages| || sentIndex < |sentMessages|
      invariant 0 <= receiveIndex <= |receivedMessages| && 0 <= sentIndex <= |sentMessages|
      invariant combined + Interleave(receivedMessages[receiveIndex..], sentMessages[sentIndex..])
        == Interleave(receivedMessages, sentMessages)
      decreases |receivedMessages| - receiveIndex + |sentMessages| - sentIndex
    {
      PassKeepsMerge(receivedMessages, sentMessages, receiveIndex, sentIndex, combined);
      ghost var withReceived := combined + Front(receivedMessages[receiveIndex..], true);
      ghost var withSent := withReceived + Front(sentMessages[sentIndex..], false);
      if receiveIndex < |receivedMessages| {
        combined := combined + [(receivedMessages[receiveIndex], true)];
        receiveIndex := receiveIndex + 1;
      }
      assert combined == withReceived;
      if sentIndex < |sentMessages| {
        combined := combined + [(sentMessages[sentIndex], false)];
        sentIndex := sentIndex + 1;
      }
      assert combined == withSent;
    }
    InterleaveLength(receivedMessages, sentMessages);
  }

  // ---------------------------------------------------------------------
  // The screen's handlers

  class TcpClientScreen {
    var serverIp: string
    var serverPort: string
    var messageToSend: string
    const manager: TcpConnectionManager

    ghost predicate Valid()
      reads this, manager, manager.state
    {
      manager.Valid()
    }

    constructor (manager: TcpConnectionManager)
      requires manager.Valid()
      ensures Valid() && this.manager == manager
      ensures serverIp == DefaultServerIp && serverPort == DefaultPortText && messageToSend == ""
    {
      this.manager := manager;
      serverIp := DefaultServerIp;
      serverPort := DefaultPortText;
      messageToSend := "";
    }

    /** The connect button: connect when disconnected, disconnect when connected. */
    method ClickConnect(connectOk: bool)
      requires Valid()
      modifies manager, manager.state
      ensures Valid()
      ensures unchanged(this)
      ensures !old(manager.state.isConnected) ==>
        manager.View() == ConnectStep(old(manager.View()), serverIp, PortOrDefault(serverPort), connectOk)
      ensures old(manager.state.isConnected) ==>
        manager.View() == DisconnectStep(old(manager.View()))
    {
      if !manager.state.isConnected {
        manager.Connect(serverIp, PortOrDefault(serverPort), connectOk);
      } else {
        manager.Disconnect();
      }
    }

    method ClickClear()
      requires Valid()
      modifies manager.state
      ensures Valid() && unchanged(this)
      ensures manager.View() == ClearStep(old(manager.View()))
    {
      manager.ClearMessages();
    }

    /**
     * The send button: a non-blank message is handed to the coordinator
     * while connected and the input is emptied; otherwise nothing happens.
     */
    method ClickSend(sendOk: bool)
      requires Valid()
      modifies this, manager, manager.state
      ensures Valid()
      ensures serverIp == old(serverIp) && serverPort == old(serverPort)
      ensures !IsBlank(old(messageToSend)) && old(manager.state.isConnected) ==>
        messageToSend == "" && manager.View() == SendStep(old(manager.View()), old(messageToSend), sendOk)
      ensures IsBlank(old(messageToSend)) || !old(manager.state.isConnected) ==>
        messageToSend == old(messageToSend) && manager.View() == old(manager.View())
    {
      if !IsBlank(messageToSend) && manager.state.isConnected {
        manager.SendMessage(messageToSend, sendOk);
        messageToSend := "";
      }
    }
  }
}
