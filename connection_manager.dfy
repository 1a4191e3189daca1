/**
 * The connection coordinator. Each command is one atomic step over an
 * abstract TCP client whose outcomes are parameters:
 *   - whether `connect` succeeds,
 *   - whether `sendMessage` succeeds on a connected client (the client's
 *     writer never reports a failed write, so the program itself always
 *     passes success here; the parameter keeps the failure branch),
 *   - what one non-blocking poll yields (`Poll`),
 *   - whether the socket is still open (`socketOpen`); the client reports
 *     connected when its own flag is set and the socket is open.
 * Launched receive jobs are recorded in `jobs`, and `receiveJob` is the
 * coordinator's reference to the current one.
 */
module ConnectionManager {
  import opened Wrappers
  import opened Text
  import opened ConnectionState

  const StatusDisconnected: string := "已断开连接"
  const StatusSending: string := "正在发送消息..."
  const StatusSent: string := "消息已发送"
  const StatusSendFailed: string := "消息发送失败"
  const StatusListening: string := "已连接，正在监听消息..."
  const StatusReceived: string := "收到新消息"
  const StatusConnectionLost: string := "连接已断开"

  function ConnectingStatus(ip: string, port: int32): string
  {
    "正在连接到 " + ip + ":" + Decimal(port as int) + "..."
  }

  function ReceiveErrorStatus(reason: string): string
  {
    "接收消息时出错: " + reason
  }

  /** What one non-blocking poll of a connected client yields. */
  datatype Poll =
    | Chunk(text: string)   // bytes were available and were read
    | NoData                // nothing available, or nothing read
    | Reset                 // the read reported the connection closed

  /** A launched receive job. */
  datatype JobState = Running | Cancelled | Completed

  /** The coordinator's state together with the client's connected flag. */
  datatype ManagerView = ManagerView(
    conn: ConnectionView,
    clientConnected: bool,
    receiveJob: Option<nat>,
    jobs: seq<JobState>)

  /** The job reference, when present, names a launched job. */
  predicate JobRefValid(v: ManagerView)
  {
    v.receiveJob.Some? ==> v.receiveJob.value < |v.jobs|
  }

  /** Every job still running is the one the coordinator references. */
  predicate JobsConsistent(v: ManagerView)
  {
    && JobRefValid(v)
    && forall j :: 0 <= j < |v.jobs| && v.jobs[j] == Running ==> v.receiveJob == Some(j)
  }

  function InitialManagerView(): ManagerView
  {
    ManagerView(InitialView(), false, None, [])
  }

  /** `TcpClient.isConnected()`: its own flag, and the socket open. */
  function ClientReportsConnected(v: ManagerView, socketOpen: bool): bool
  {
    v.clientConnected && socketOpen
  }

  // ---------------------------------------------------------------------
  // The commands as functions of the state

  /** `Job.cancel()`: a running job becomes cancelled; a finished one stays as it is. */
  function CancelJob(jobs: seq<JobState>, j: nat): seq<JobState>
    requires j < |jobs|
  {
    if jobs[j] == Running then jobs[j := Cancelled] else jobs
  }

  /** `stopMessageReceiving`: cancel the referenced job and drop the reference. */
  function StopReceiving(v: ManagerView): ManagerView
    requires JobRefValid(v)
  {
    match v.receiveJob
    case None => v
    case Some(j) => v.(jobs := CancelJob(v.jobs, j), receiveJob := None)
  }

  /**
   * `startMessageReceiving`: stop the previous job, launch a new one and
   * reference it; the new job first announces that it is listening.
   */
  function StartReceiving(v: ManagerView): ManagerView
    requires JobRefValid(v)
  {
    var w := StopReceiving(v);
    w.(jobs := w.jobs + [Running], receiveJob := Some(|w.jobs|), conn := w.conn.(status := StatusListening))
  }

  /**
   * `connect`: record the target and a progress status, let the client
   * disconnect and attempt the connection, publish the outcome, and start
   * receiving when it succeeded.
   */
  function ConnectStep(v: ManagerView, ip: string, port: int32, ok: bool): ManagerView
    requires JobRefValid(v)
  {
    var requested := v.(conn := v.conn.(address := ip, port := port, status := ConnectingStatus(ip, port)));
    var attempted := requested.(clientConnected := ok, conn := WithConnection(requested.conn, ok));
    if ok then StartReceiving(attempted) else attempted
  }

  /** `disconnect`: stop receiving, disconnect the client, publish it. */
  function DisconnectStep(v: ManagerView): ManagerView
    requires JobRefValid(v)
  {
    var w := StopReceiving(v);
    w.(clientConnected := false, conn := WithConnection(w.conn, false).(status := StatusDisconnected))
  }

  /**
   * `sendMessage`: a blank message is dropped; otherwise the client sends
   * it (failing when its flag is clear) and the sent log records it only on
   * success.
   */
  function SendStep(v: ManagerView, message: string, ok: bool): ManagerView
  {
    if IsBlank(message) then v
    else if v.clientConnected && ok then
      v.(conn := v.conn.(sent := v.conn.sent + [message], status := StatusSent))
    else
      v.(conn := v.conn.(status := StatusSendFailed))
  }

  /** `clearMessages`: delegated to the state. */
  function ClearStep(v: ManagerView): ManagerView
  {
    v.(conn := Cleared(v.conn))
  }

  /** `receiveMessage()`: null when the client flag is clear or no data came. */
  function Received(clientConnected: bool, poll: Poll): Option<string>
  {
    if clientConnected && poll.Chunk? then Some(poll.text) else None
  }

  /**
   * One pass of the receive loop of job `job`: the guard (job active and
   * client connected), one poll, and the decision to go on. The second
   * component says whether the loop continues.
   */
  function IterationStep(v: ManagerView, job: nat, poll: Poll, socketOpen: bool): (ManagerView, bool)
    requires job < |v.jobs|
  {
    if !(v.jobs[job] == Running && ClientReportsConnected(v, socketOpen)) then (v, false)
    else
      var message := Received(v.clientConnected, poll);
      var w := v.(clientConnected := !poll.Reset?);
      if message.Some? && message.value != "" then
        (w.(conn := w.conn.(received := w.conn.received + [message.value], status := StatusReceived)), true)
      else if !ClientReportsConnected(w, socketOpen) then (w, false)
      else (w, true)
  }

  /**
   * The end of job `job`: the `catch` (when `failure` holds the exception's
   * message) and then the `finally`, which tears the connection down when
   * the client no longer reports connected.
   */
  function ExitStep(v: ManagerView, job: nat, socketOpen: bool, failure: Option<string>): ManagerView
    requires job < |v.jobs|
  {
    var caught := if failure.Some? then v.(conn := v.conn.(status := ReceiveErrorStatus(failure.value))) else v;
    var finished := caught.(jobs := if caught.jobs[job] == Running then caught.jobs[job := Completed] else caught.jobs);
    if ClientReportsConnected(finished, socketOpen) then finished
    else finished.(clientConnected := false, conn := WithConnection(finished.conn, false).(status := StatusConnectionLost))
  }

  // ---------------------------------------------------------------------
  // Properties of the commands

  /** The job invariant implies that at most one job is running. */
  lemma AtMostOneRunning(v: ManagerView, i: nat, j: nat)
    requires JobsConsistent(v)
    requires i < |v.jobs| && j < |v.jobs| && v.jobs[i] == Running && v.jobs[j] == Running
    ensures i == j
  {
  }

  /** Stopping leaves no job running and no reference. */
  lemma {:induction false} StopReceivingStopsAll(v: ManagerView)
    requires JobsConsistent(v)
    ensures var r := StopReceiving(v);
      && JobsConsistent(r) && r.receiveJob == None
      && |r.jobs| == |v.jobs|
      && (forall j :: 0 <= j < |r.jobs| ==> r.jobs[j] != Running)
      && r.conn == v.conn && r.clientConnected == v.clientConnected
  {
    var r := StopReceiving(v);
    forall j | 0 <= j < |r.jobs|
      ensures r.jobs[j] != Running
    {
      if v.receiveJob.Some? && j == v.receiveJob.value {
      } else {
        assert r.jobs[j] == v.jobs[j];
      }
    }
  }

  /**
   * Starting a job first stops the previous one: afterwards exactly the new
   * job is running and referenced.
   */
  lemma {:induction false} StartReceivingLaunchesOne(v: ManagerView)
    requires JobsConsistent(v)
    ensures var r := StartReceiving(v);
      && JobsConsistent(r)
      && |r.jobs| == |v.jobs| + 1
      && r.receiveJob == Some(|v.jobs|) && r.jobs[|v.jobs|] == Running
      && (forall j :: 0 <= j < |v.jobs| ==> r.jobs[j] != Running)
  {
    StopReceivingStopsAll(v);
  }

  /**
   * After `connect`, the target is recorded and the connected flag is the
   * attempt's outcome; a new receive job exists exactly when it succeeded,
   * and it is then the only running job.
   */
  lemma {:induction false} ConnectOutcome(v: ManagerView, ip: string, port: int32, ok: bool)
    requires JobsConsistent(v)
    ensures var r := ConnectStep(v, ip, port, ok);
      && JobsConsistent(r)
      && r.conn.address == ip && r.conn.port == port
      && r.conn.connected == ok && r.clientConnected == ok
      && r.conn.received == v.conn.received && r.conn.sent == v.conn.sent
      && (ok ==> r.receiveJob == Some(|v.jobs|) && |r.jobs| == |v.jobs| + 1 && r.jobs[|v.jobs|] == Running
                 && r.conn.status == StatusListening
                 && forall j :: 0 <= j < |v.jobs| ==> r.jobs[j] != Running)
      && (!ok ==> r.receiveJob == v.receiveJob && r.jobs == v.jobs && r.conn.status == StatusNotConnected)
  {
    var requested := v.(conn := v.conn.(address := ip, port := port, status := ConnectingStatus(ip, port)));
    var attempted := requested.(clientConnected := ok, conn := WithConnection(requested.conn, ok));
    assert JobsConsistent(attempted);
    if ok {
      StartReceivingLaunchesOne(attempted);
    }
  }

  /**
   * `disconnect` leaves no reference and no running job, the client and the
   * published flag disconnected, the terminal status, and the target and
   * logs as they were.
   */
  lemma {:induction false} DisconnectOutcome(v: ManagerView)
    requires JobsConsistent(v)
    ensures var r := DisconnectStep(v);
      && JobsConsistent(r)
      && r.receiveJob == None && (forall j :: 0 <= j < |r.jobs| ==> r.jobs[j] != Running)
      && !r.clientConnected && !r.conn.connected && r.conn.status == StatusDisconnected
      && r.conn.address == v.conn.address && r.conn.port == v.conn.port
      && r.conn.received == v.conn.received && r.conn.sent == v.conn.sent
  {
    StopReceivingStopsAll(v);
  }

  /** Disconnecting twice ends in the same state as disconnecting once. */
  lemma {:induction false} DisconnectIdempotent(v: ManagerView)
    requires JobsConsistent(v)
    ensures JobRefValid(DisconnectStep(v))
    ensures DisconnectStep(DisconnectStep(v)) == DisconnectStep(v)
  {
    DisconnectOutcome(v);
  }

  /** A blank message changes nothing at all. */
  lemma SendBlankIsDropped(v: ManagerView, message: string, ok: bool)
    requires IsBlank(message)
    ensures SendStep(v, message, ok) == v
  {
  }

  /**
   * A non-blank send appends exactly the message to the end of the sent
   * log when, and only when, the client is connected and the write
   * succeeds; the received log, the flags and the target never change.
   */
  lemma SendOutcome(v: ManagerView, message: string, ok: bool)
    requires !IsBlank(message)
    ensures var r := SendStep(v, message, ok);
      && r.conn.received == v.conn.received && r.conn.connected == v.conn.connected
      && r.clientConnected == v.clientConnected && r.jobs == v.jobs && r.receiveJob == v.receiveJob
      && r.conn.address == v.conn.address && r.conn.port == v.conn.port
      && r.conn.sent[..|v.conn.sent|] == v.conn.sent
      && (|r.conn.sent| == |v.conn.sent| + 1 <==> v.clientConnected && ok)
      && (|r.conn.sent| == |v.conn.sent| + 1 ==> r.conn.sent[|v.conn.sent|] == message && r.conn.status == StatusSent)
      && (|r.conn.sent| != |v.conn.sent| + 1 ==> r.conn.sent == v.conn.sent && r.conn.status == StatusSendFailed)
  {
  }

  /**
   * With a writer that never reports a failure, a non-blank send is logged
   * as sent exactly when the client's own flag is set.
   */
  lemma SendWithSilentWriter(v: ManagerView, message: string)
    requires !IsBlank(message)
    ensures var r := SendStep(v, message, true);
      && (r.conn.sent == v.conn.sent + [message] <==> v.clientConnected)
      && (v.clientConnected ==> r.conn.status == StatusSent)
      && (!v.clientConnected ==> r.conn.status == StatusSendFailed)
  {
    SendOutcome(v, message, true);
  }

  /** Every command keeps the job invariant. */
  lemma {:induction false} StepsKeepJobsConsistent(v: ManagerView, message: string, ok: bool)
    requires JobsConsistent(v)
    ensures JobsConsistent(SendStep(v, message, ok))
    ensures JobsConsistent(ClearStep(v))
  {
  }

  /**
   * A pass of the receive loop appends a non-empty chunk to the end of the
   * received log and announces it; a missing or empty chunk appends nothing.
   * The sent log, the target and the jobs never change, and the loop
   * continues after a chunk.
   */
  lemma IterationOutcome(v: ManagerView, job: nat, poll: Poll, socketOpen: bool)
    requires JobsConsistent(v) && job < |v.jobs|
    ensures var (r, goOn) := IterationStep(v, job, poll, socketOpen);
      && JobsConsistent(r)
      && r.conn.sent == v.conn.sent && r.jobs == v.jobs && r.receiveJob == v.receiveJob
      && r.conn.address == v.conn.address && r.conn.port == v.conn.port
      && r.conn.connected == v.conn.connected
      && r.conn.received[..|v.conn.received|] == v.conn.received
      && (var active := v.jobs[job] == Running && ClientReportsConnected(v, socketOpen);
          && (active && poll.Chunk? && poll.text != "" ==>
                r.conn.received == v.conn.received + [poll.text] && r.conn.status == StatusReceived && goOn)
          && (!(active && poll.Chunk? && poll.text != "") ==> r.conn.received == v.conn.received)
          && (!active ==> r == v && !goOn))
  {
  }

  /** A reset seen by a running job disconnects the client and ends its loop. */
  lemma IterationOnReset(v: ManagerView, job: nat, socketOpen: bool)
    requires job < |v.jobs| && v.jobs[job] == Running && ClientReportsConnected(v, socketOpen)
    ensures var (r, goOn) := IterationStep(v, job, Reset, socketOpen);
      !r.clientConnected && !goOn
  {
  }

  /**
   * The end of a job: when the client no longer reports connected, the
   * client is disconnected, the published flag becomes false and the status
   * says the connection is gone, with the logs untouched; when it still
   * reports connected, only the job's own state and a caught error's status
   * change.
   */
  lemma ExitOutcome(v: ManagerView, job: nat, socketOpen: bool, failure: Option<string>)
    requires JobsConsistent(v) && job < |v.jobs|
    ensures var r := ExitStep(v, job, socketOpen, failure);
      && JobsConsistent(r)
      && r.conn.received == v.conn.received && r.conn.sent == v.conn.sent
      && r.conn.address == v.conn.address && r.conn.port == v.conn.port
      && r.receiveJob == v.receiveJob && r.jobs[job] != Running
      && (!ClientReportsConnected(v, socketOpen) ==>
            !r.clientConnected && !r.conn.connected && r.conn.status == StatusConnectionLost)
      && (ClientReportsConnected(v, socketOpen) && failure.None? ==>
            r.conn == v.conn && r.clientConnected == v.clientConnected)
  {
  }

  // ---------------------------------------------------------------------
  // The coordinator object

  class TcpConnectionManager {
    const state: TcpConnectionState
    /** The client's own connected flag. */
    var clientConnected: bool
    /** `messageReceiveJob`: the index of the referenced job in `jobs`. */
    var receiveJob: Option<nat>
    /** Every receive job launched so far. */
    var jobs: seq<JobState>

    function View(): ManagerView
      reads this, state
    {
      ManagerView(state.View(), clientConnected, receiveJob, jobs)
    }

    ghost predicate Valid()
      reads this, state
    {
      JobsConsistent(View())
    }

    constructor ()
      ensures Valid() && fresh(state)
      ensures View() == InitialManagerView()
    {
      state := new TcpConnectionState();
      clientConnected := false;
      receiveJob := None;
      jobs := [];
    }

    method Connect(serverIp: string, serverPort: int32, connectOk: bool)
      requires Valid()
      modifies this, state
      ensures Valid()
      ensures View() == ConnectStep(old(View()), serverIp, serverPort, connectOk)
    {
      ghost var v := View();
      state.SetServerInfo(serverIp, serverPort);
      state.UpdateStatusMessage(ConnectingStatus(serverIp, serverPort));
      // the client tears down any previous connection, then attempts; its
      // flag ends as the attempt's outcome
      clientConnected := connectOk;
      state.UpdateConnectionState(connectOk);
      if connectOk {
        StartMessageReceiving();
      }
      ConnectOutcome(v, serverIp, serverPort, connectOk);
    }

    method Disconnect()
      requires Valid()
      modifies this, state
      ensures Valid()
      ensures View() == DisconnectStep(old(View()))
    {
      ghost var v := View();
      StopMessageReceiving();
      clientConnected := false;
      state.UpdateConnectionState(false);
      state.UpdateStatusMessage(StatusDisconnected);
      DisconnectOutcome(v);
    }

    method SendMessage(message: string, sendOk: bool)
      requires Valid()
      modifies this, state
      ensures Valid()
      ensures View() == SendStep(old(View()), message, sendOk)
    {
      if IsBlank(message) {
        return;
      }
      state.UpdateStatusMessage(StatusSending);
      var success := clientConnected && sendOk;
      if success {
        state.AddSentMessage(message);
        state.UpdateStatusMessage(StatusSent);
      } else {
        state.UpdateStatusMessage(StatusSendFailed);
      }
    }

    method StartMessageReceiving()
      requires Valid()
      modifies this, state
      ensures Valid()
      ensures View() == StartReceiving(old(View()))
    {
      ghost var v := View();
      StopMessageReceiving();
      jobs := jobs + [Running];
      receiveJob := Some(|jobs| - 1);
      state.UpdateStatusMessage(StatusListening);
      StartReceivingLaunchesOne(v);
    }

    method StopMessageReceiving()
      requires Valid()
      modifies this
      ensures Valid()
      ensures View() == StopReceiving(old(View()))
    {
      ghost var v := View();
      if receiveJob.Some? {
        jobs := CancelJob(jobs, receiveJob.value);
      }
      receiveJob := None;
      StopReceivingStopsAll(v);
    }

    method ReceiveIteration(job: nat, poll: Poll, socketOpen: bool) returns (goOn: bool)
      requires Valid() && job < |jobs|
      modifies this, state
      ensures Valid()
      ensures (View(), goOn) == IterationStep(old(View()), job, poll, socketOpen)
    {
      ghost var v := View();
      IterationOutcome(v, job, poll, socketOpen);
      if !(jobs[job] == Running && clientConnected && socketOpen) {
        return false;
      }
      var message := Received(clientConnected, poll);
      if poll.Reset? {
        clientConnected := false;
      }
      if message.Some? && message.value != "" {
        state.AddReceivedMessage(message.value);
        state.UpdateStatusMessage(StatusReceived);
        goOn := true;
      } else if !(clientConnected && socketOpen) {
        goOn := false;
      } else {
        goOn := true;
      }
    }

    method ReceiveExit(job: nat, socketOpen: bool, failure: Option<string>)
      requires Valid() && job < |jobs|
      modifies this, state
      ensures Valid()
      ensures View() == ExitStep(old(View()), job, socketOpen, failure)
    {
      ghost var v := View();
      ExitOutcome(v, job, socketOpen, failure);
      if failure.Some? {
        state.UpdateStatusMessage(ReceiveErrorStatus(failure.value));
      }
      if jobs[job] == Running {
        jobs := jobs[job := Completed];
      }
      if !(clientConnected && socketOpen) {
        clientConnected := false;
        state.UpdateConnectionState(false);
        state.UpdateStatusMessage(StatusConnectionLost);
      }
    }

    method ClearMessages()
      requires Valid()
      modifies state
      ensures Valid()
      ensures View() == ClearStep(old(View()))
    {
      state.ClearMessages();
    }
  }
}
