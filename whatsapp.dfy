/** The WhatsApp adapter: a connection state machine driven by socket
    events, and the normalisation of inbound messages into `ChannelMessage`s.
    The socket library, the credential store and the process are outside the
    model; their events and answers are parameters. */
module WhatsApp {
  import opened Wrappers
  import opened JsValues
  import opened Sequences
  import opened ChannelTypes

  /** The status code the socket library reports when the session was logged out. */
  const LoggedOut: int := 401
  const StatusBroadcast: string := "status@broadcast"
  const NotConnectedError: string := "WhatsApp socket not connected"
  const UnsupportedContent: string := "[Unsupported message type]"
  const UnknownSender: string := "Unknown"

  // ---------------------------------------------------------------------------
  // Connection state machine

  datatype Connection = Connecting | Open | Close

  /** One `connection.update` event: the connection state it reports, the
      status code of the error that closed it, and an authentication QR code. */
  datatype ConnectionUpdate = ConnectionUpdate(connection: Option<Connection>, statusCode: Option<int>, qr: Option<string>)

  /** What reaches the adapter: a socket event, or the timer that a QR code
      armed going off. */
  datatype LinkEvent = Update(update: ConnectionUpdate) | ExitTimer

  /** The adapter's connection state and the process's fate. Sockets are
      told apart by the order they were opened in; `exitPending` says that an
      exit with code 1 is scheduled; `exitCode` is set once the process exits. */
  datatype LinkState = LinkState(sock: Option<nat>, socketsOpened: nat, connected: bool, exitPending: bool, exitCode: Option<int>)

  const Initial: LinkState := LinkState(None, 0, false, false, None)

  /** A close reconnects unless the session was logged out, also when no status code is known. */
  predicate ShouldReconnect(statusCode: Option<int>) {
    statusCode != Some(LoggedOut)
  }

  /** `connect`: a fresh socket replaces the current one. */
  function OpenSocket(s: LinkState): (r: LinkState)
    ensures r.sock == Some(s.socketsOpened) && r.socketsOpened == s.socketsOpened + 1
    ensures r.connected == s.connected && r.exitPending == s.exitPending && r.exitCode == s.exitCode
  {
    s.(sock := Some(s.socketsOpened), socketsOpened := s.socketsOpened + 1)
  }

  /** The effect of one event. A QR code arms the exit timer; a close
      reconnects or exits with code 0; an open sets `connected`. Once the
      process has exited nothing happens any more. */
  function Step(s: LinkState, e: LinkEvent): (r: LinkState)
    ensures s.exitCode.Some? ==> r == s
    ensures s.exitCode.None? && r.exitCode.Some? ==>
      (e.ExitTimer? && s.exitPending && r.exitCode == Some(1)) ||
      (e.Update? && e.update.connection == Some(Close) && !ShouldReconnect(e.update.statusCode) && r.exitCode == Some(0))
    ensures s.exitCode.None? && e.Update? && e.update.connection == Some(Open) ==>
      r.connected && r.exitCode.None? && r.sock == s.sock && r.socketsOpened == s.socketsOpened
    ensures s.exitCode.None? && e.Update? && e.update.connection != Some(Close) ==>
      r.exitCode.None? && r.sock == s.sock && r.socketsOpened == s.socketsOpened
    ensures s.exitCode.None? && e.Update? && e.update.connection != Some(Open) ==> r.connected == s.connected
    ensures s.exitCode.None? && e.Update? ==> (r.exitPending <==> s.exitPending || Truthy(e.update.qr))
    ensures s.exitCode.None? && e.ExitTimer? ==>
      r.sock == s.sock && r.socketsOpened == s.socketsOpened && r.connected == s.connected &&
      r.exitPending == s.exitPending && (r.exitCode.Some? <==> s.exitPending)
    ensures r.socketsOpened == s.socketsOpened || r.socketsOpened == s.socketsOpened + 1
  {
    if s.exitCode.Some? then s
    else match e
      case ExitTimer => if s.exitPending then s.(exitCode := Some(1)) else s
      case Update(u) =>
        var armed := if Truthy(u.qr) then s.(exitPending := true) else s;
        if u.connection == Some(Close) then
          if ShouldReconnect(u.statusCode) then OpenSocket(armed) else armed.(exitCode := Some(0))
        else if u.connection == Some(Open) then armed.(connected := true)
        else armed
  }

  /** The state after a sequence of events, in order. */
  function Run(s: LinkState, events: seq<LinkEvent>): LinkState
    decreases |events|
  {
    if events == [] then s else Run(Step(s, events[0]), events[1..])
  }

  /** A close reconnects exactly when the status code is not "logged out":
      one new socket, the process alive and `connected` untouched; a logged-out
      close exits with code 0 and opens nothing. */
  lemma CloseDecision(s: LinkState, statusCode: Option<int>)
    requires s.exitCode.None?
    ensures var r := Step(s, Update(ConnectionUpdate(Some(Close), statusCode, None)));
      && (r.exitCode == Some(0) <==> statusCode == Some(LoggedOut))
      && (r.socketsOpened == s.socketsOpened + 1 <==> statusCode != Some(LoggedOut))
      && (statusCode != Some(LoggedOut) ==> r.exitCode.None? && r.sock == Some(s.socketsOpened))
      && r.connected == s.connected
  {
  }

  /** Once the process has exited, no later event opens a socket or changes anything. */
  lemma {:induction false} ExitIsFinal(s: LinkState, events: seq<LinkEvent>)
    requires s.exitCode.Some?
    ensures Run(s, events) == s
    decreases |events|
  {
    if events != [] {
      ExitIsFinal(Step(s, events[0]), events[1..]);
    }
  }

  /** A logged-out close is terminal: whatever follows, the process has
      exited with code 0 and never reconnects. */
  lemma LoggedOutIsTerminal(s: LinkState, qr: Option<string>, later: seq<LinkEvent>)
    requires s.exitCode.None?
    ensures var closed := Step(s, Update(ConnectionUpdate(Some(Close), Some(LoggedOut), qr)));
      Run(closed, later) == closed && closed.exitCode == Some(0) && closed.socketsOpened == s.socketsOpened
  {
    ExitIsFinal(Step(s, Update(ConnectionUpdate(Some(Close), Some(LoggedOut), qr))), later);
  }

  /** Events other than the timer keep a scheduled exit scheduled. */
  lemma {:induction false} ExitStaysPending(s: LinkState, events: seq<LinkEvent>)
    requires s.exitPending
    ensures Run(s, events).exitPending
    decreases |events|
  {
    if events != [] {
      ExitStaysPending(Step(s, events[0]), events[1..]);
    }
  }

  /** Authentication being required is terminal: after a QR code, the
      process has exited as soon as the timer it armed goes off (earlier, if a
      logged-out close comes first). */
  lemma {:induction false} AuthRequiredStops(s: LinkState, events: seq<LinkEvent>, k: nat)
    requires s.exitPending
    requires k < |events| && events[k] == ExitTimer
    ensures Run(s, events).exitCode.Some?
    decreases |events|
  {
    var next := Step(s, events[0]);
    if next.exitCode.Some? {
      ExitIsFinal(next, events[1..]);
    } else if k == 0 {
      assert false;
    } else {
      assert events[1..][k - 1] == ExitTimer;
      AuthRequiredStops(next, events[1..], k - 1);
    }
  }

  /** A QR code arms the exit timer whatever else the update says. */
  lemma QrArmsExit(s: LinkState, u: ConnectionUpdate)
    requires s.exitCode.None? && Truthy(u.qr)
    ensures Step(s, Update(u)).exitPending
  {
  }

  // ---------------------------------------------------------------------------
  // Inbound messages

  datatype MessageKey = MessageKey(remoteJid: Option<string>, id: Option<string>, participant: Option<string>, fromMe: Option<bool>)

  /** The message body's two textual forms; `extendedText` is `extendedTextMessage.text`. */
  datatype MessageBody = MessageBody(conversation: Option<string>, extendedText: Option<string>)

  /** An inbound message; `messageTimestamp` is in seconds. */
  datatype WebMessage = WebMessage(key: MessageKey, message: Option<MessageBody>, pushName: Option<string>, messageTimestamp: int)

  /** A message paired with the clock reading (milliseconds) taken while handling it. */
  datatype Arrival = Arrival(msg: WebMessage, now: nat)

  /** `getMessageContent`: the plain text, else the extended text, else a
      placeholder; so the content is never empty. */
  function MessageContent(body: MessageBody): (r: string)
    ensures Truthy(body.conversation) ==> r == body.conversation.value
    ensures !Truthy(body.conversation) && Truthy(body.extendedText) ==> r == body.extendedText.value
    ensures !Truthy(body.conversation) && !Truthy(body.extendedText) ==> r == UnsupportedContent
    ensures r != ""
  {
    if Truthy(body.conversation) then body.conversation.value
    else if Truthy(body.extendedText) then body.extendedText.value
    else UnsupportedContent
  }

  /** A message is passed on when it has a body and a chat other than the status broadcast. */
  predicate Deliverable(m: WebMessage) {
    m.message.Some? && Truthy(m.key.remoteJid) && m.key.remoteJid.value != StatusBroadcast
  }

  /** The `ChannelMessage` a message becomes, if it is passed on. */
  function Normalize(a: Arrival): (r: Option<ChannelMessage>)
    ensures r.Some? <==> Deliverable(a.msg)
    ensures r.Some? ==>
      var m := a.msg; var c := r.value;
      && c.chatId == m.key.remoteJid.value
      && (Truthy(m.key.id) ==> c.id == m.key.id.value)
      && (!Truthy(m.key.id) ==> c.id == c.chatId + "-" + NatToString(a.now))
      && (Truthy(m.key.participant) ==> c.senderId == m.key.participant.value)
      && (!Truthy(m.key.participant) ==> c.senderId == c.chatId)
      && (Truthy(m.pushName) ==> c.senderName == m.pushName.value)
      && (!Truthy(m.pushName) ==> c.senderName == UnknownSender)
      && c.content == MessageContent(m.message.value)
      && c.timestamp == m.messageTimestamp * 1000
      && (c.fromMe <==> m.key.fromMe == Some(true))
      && c.id != "" && c.chatId != "" && c.senderId != "" && c.senderName != "" && c.content != ""
  {
    var m := a.msg;
    if !Deliverable(m) then None
    else
      var chatJid := m.key.remoteJid.value;
      Some(ChannelMessage(
        Or(m.key.id, chatJid + "-" + NatToString(a.now)),
        chatJid,
        Or(m.key.participant, chatJid),
        Or(m.pushName, UnknownSender),
        MessageContent(m.message.value),
        m.messageTimestamp * 1000,
        m.key.fromMe == Some(true)))
  }

  function Arrivals(batch: seq<WebMessage>, nows: seq<nat>): (r: seq<Arrival>)
    requires |nows| == |batch|
    ensures |r| == |batch| && forall i :: 0 <= i < |r| ==> r[i] == Arrival(batch[i], nows[i])
  {
    seq(|batch|, i requires 0 <= i < |batch| => Arrival(batch[i], nows[i]))
  }

  /** An upsert batch is passed on message by message in batch order: the
      k-th delivered message comes from batch position `KeptIndices(..)[k]`,
      those positions increase, exactly the deliverable messages are among
      them, and each keeps its chat and content. */
  lemma UpsertDeliversInOrder(batch: seq<WebMessage>, nows: seq<nat>)
    requires |nows| == |batch|
    ensures var out := Keep(Normalize, Arrivals(batch, nows));
      var idx := KeptIndices(Normalize, Arrivals(batch, nows));
      && |idx| == |out|
      && (forall k, l :: 0 <= k < l < |idx| ==> idx[k] < idx[l])
      && (forall i :: 0 <= i < |batch| ==> (Deliverable(batch[i]) <==> i in idx))
      && (forall k :: 0 <= k < |out| ==>
            idx[k] < |batch| && Deliverable(batch[idx[k]])
            && out[k].chatId == batch[idx[k]].key.remoteJid.value
            && out[k].content == MessageContent(batch[idx[k]].message.value))
  {
    var arrivals := Arrivals(batch, nows);
    KeepOrder(Normalize, arrivals);
  }

  // ---------------------------------------------------------------------------
  // The adapter

  /** A presence update sent for typing: "composing" or "paused". */
  datatype Presence = Presence(state: string, jid: string)

  /** `WhatsAppChannel`. `delivered` is every `ChannelMessage` handed to a
      registered callback so far, `sent` every text the socket accepted. */
  class WhatsAppChannel {
    var sock: Option<nat>
    var socketsOpened: nat
    var connected: bool
    var exitPending: bool
    var exitCode: Option<int>
    var hasCallback: bool
    var delivered: seq<ChannelMessage>
    var sent: seq<(string, string)>

    function Link(): LinkState
      reads this
    {
      LinkState(sock, socketsOpened, connected, exitPending, exitCode)
    }

    constructor ()
      ensures Link() == Initial && !hasCallback && delivered == [] && sent == []
    {
      sock := None;
      socketsOpened := 0;
      connected := false;
      exitPending := false;
      exitCode := None;
      hasCallback := false;
      delivered := [];
      sent := [];
    }

    /** `connect`: opens a fresh socket. */
    method Connect()
      modifies this
      ensures Link() == OpenSocket(old(Link()))
      ensures hasCallback == old(hasCallback) && delivered == old(delivered) && sent == old(sent)
    {
      sock := Some(socketsOpened);
      socketsOpened := socketsOpened + 1;
    }

    /** The `connection.update` handler. */
    method OnConnectionUpdate(u: ConnectionUpdate)
      modifies this
      ensures Link() == Step(old(Link()), Update(u))
      ensures hasCallback == old(hasCallback) && delivered == old(delivered) && sent == old(sent)
    {
      if exitCode.Some? {
        return;
      }
      if Truthy(u.qr) {
        exitPending := true;
      }
      if u.connection == Some(Close) {
        if ShouldReconnect(u.statusCode) {
          Connect();
        } else {
          exitCode := Some(0);
        }
      } else if u.connection == Some(Open) {
        connected := true;
      }
    }

    /** The exit timer armed by a QR code goes off. */
    method OnExitTimer()
      modifies this
      ensures Link() == Step(old(Link()), ExitTimer)
      ensures hasCallback == old(hasCallback) && delivered == old(delivered) && sent == old(sent)
    {
      if exitCode.None? && exitPending {
        exitCode := Some(1);
      }
    }

    /** `isConnected`. */
    predicate IsConnected()
      reads this
    {
      connected && sock.Some?
    }

    /** `disconnect`: only clears the flag; the socket stays. */
    method Disconnect()
      modifies this
      ensures !IsConnected()
      ensures connected == false && sock == old(sock) && socketsOpened == old(socketsOpened)
      ensures exitPending == old(exitPending) && exitCode == old(exitCode)
      ensures hasCallback == old(hasCallback) && delivered == old(delivered) && sent == old(sent)
    {
      connected := false;
    }

    /** `onMessage`: registers the callback. */
    method OnMessage()
      modifies this
      ensures hasCallback
      ensures Link() == old(Link()) && delivered == old(delivered) && sent == old(sent)
    {
      hasCallback := true;
    }

    /** The `messages.upsert` handler: each deliverable message of the batch,
      normalised, is handed to the callback in batch order; without a
      callback nothing is delivered. `nows` are the clock readings taken
      while handling each message. */
    method OnMessagesUpsert(batch: seq<WebMessage>, nows: seq<nat>)
      requires |nows| == |batch|
      modifies this
      ensures delivered == old(delivered) + (if hasCallback then Keep(Normalize, Arrivals(batch, nows)) else [])
      ensures Link() == old(Link()) && hasCallback == old(hasCallback) && sent == old(sent)
    {
      ghost var arrivals := Arrivals(batch, nows);
      for i := 0 to |batch|
        invariant delivered == old(delivered) + (if hasCallback then Keep(Normalize, arrivals[..i]) else [])
        invariant Link() == old(Link()) && hasCallback == old(hasCallback) && sent == old(sent)
      {
        HandleUpsertMessage(batch[i], nows[i]);
        assert arrivals[..i + 1] == arrivals[..i] + [arrivals[i]];
        KeepSnoc(Normalize, arrivals[..i], arrivals[i]);
      }
      assert arrivals[..|batch|] == arrivals;
    }

    /** One message of an upsert batch: passed to the callback when deliverable. */
    method HandleUpsertMessage(m: WebMessage, now: nat)
      modifies this
      ensures delivered == old(delivered) + (if hasCallback then AsSeq(Normalize(Arrival(m, now))) else [])
      ensures Link() == old(Link()) && hasCallback == old(hasCallback) && sent == old(sent)
    {
      var message := Normalize(Arrival(m, now));
      if message.Some? && hasCallback {
        delivered := delivered + [message.value];
      }
    }

    /** `sendMessage`: fails without a socket; otherwise the socket's own
      failure is passed on, and an accepted text is recorded. */
    method SendMessage(chatId: string, text: string, socketAnswer: Outcome<string>) returns (r: Outcome<string>)
      modifies this
      ensures sock.None? ==> r == Fail(NotConnectedError) && sent == old(sent)
      ensures sock.Some? ==> r == socketAnswer
      ensures sock.Some? && socketAnswer.Pass? ==> sent == old(sent) + [(chatId, text)]
      ensures sock.Some? && socketAnswer.Fail? ==> sent == old(sent)
      ensures Link() == old(Link()) && hasCallback == old(hasCallback) && delivered == old(delivered)
    {
      if sock.None? {
        return Fail(NotConnectedError);
      }
      r := socketAnswer;
      if socketAnswer.Pass? {
        sent := sent + [(chatId, text)];
      }
    }

    /** `syncGroupMetadata`: fails without a socket or when fetching fails;
      otherwise exactly the groups with a non-empty subject, by jid. */
    method SyncGroupMetadata(fetched: Result<map<string, string>, string>) returns (r: Result<map<string, string>, string>)
      ensures sock.None? ==> r == Failure(NotConnectedError)
      ensures sock.Some? && fetched.Failure? ==> r == fetched
      ensures sock.Some? && fetched.Success? ==> r.Success?
      ensures r.Success? ==> forall jid :: jid in r.value <==> jid in fetched.value && fetched.value[jid] != ""
      ensures r.Success? ==> forall jid :: jid in r.value ==> r.value[jid] == fetched.value[jid]
    {
      if sock.None? {
        return Failure(NotConnectedError);
      }
      if fetched.Failure? {
        return fetched;
      }
      var groups := fetched.value;
      var metadata: map<string, string> := map[];
      var remaining := groups.Keys;
      while remaining != {}
        invariant remaining <= groups.Keys
        invariant forall jid :: jid in metadata <==> jid in groups && jid !in remaining && groups[jid] != ""
        invariant forall jid :: jid in metadata ==> metadata[jid] == groups[jid]
        decreases |remaining|
      {
        var jid :| jid in remaining;
        if groups[jid] != "" {
          metadata := metadata[jid := groups[jid]];
        }
        remaining := remaining - {jid};
      }
      r := Success(metadata);
    }

    /** `setTyping`: the presence update sent, if any; nothing without a
      socket, and a failure to send is ignored. */
    method SetTyping(jid: string, isTyping: bool) returns (presence: Option<Presence>)
      ensures sock.None? <==> presence.None?
      ensures presence.Some? ==> presence.value.jid == jid
      ensures presence.Some? ==> (presence.value.state == "composing" <==> isTyping)
      ensures presence.Some? ==> (presence.value.state == "paused" <==> !isTyping)
    {
      if sock.None? {
        return None;
      }
      presence := Some(Presence(if isTyping then "composing" else "paused", jid));
    }
  }
}
