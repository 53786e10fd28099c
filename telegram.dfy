/** The Telegram adapter: connection flags, and a long-poll loop that
    fetches batches of updates from an `offset` cursor, hands text messages
    to the callback and acknowledges every update it handled. The bot API is
    outside the model; its answers are parameters. */
module Telegram {
  import opened Wrappers
  import opened JsValues
  import opened Sequences
  import opened ChannelTypes

  const UnknownSender: string := "Unknown"
  const DefaultBotName: string := "Bot"
  const TypingAction: string := "typing"

  datatype TelegramUser = TelegramUser(id: int, username: Option<string>, firstName: string)
  datatype TelegramMessage = TelegramMessage(chatId: int, from: Option<TelegramUser>, text: Option<string>, date: int)
  datatype TelegramUpdate = TelegramUpdate(updateId: int, message: Option<TelegramMessage>)

  /** What one `getUpdates` call answers: a batch, or an error. */
  datatype Fetch = Fetched(updates: seq<TelegramUpdate>) | FetchFailed

  // ---------------------------------------------------------------------------
  // Normalisation

  /** An update is passed on when it carries a message with non-empty text. */
  predicate CarriesText(u: TelegramUpdate) {
    u.message.Some? && Truthy(u.message.value.text)
  }

  /** The `ChannelMessage` an update becomes, if any. Ids are written as decimal
      strings; the sender is the author, else the chat; the name is the
      username, else the first name, else "Unknown". */
  function Normalize(u: TelegramUpdate): (r: Option<ChannelMessage>)
    ensures r.Some? <==> CarriesText(u)
    ensures r.Some? ==>
      var m := u.message.value; var c := r.value;
      && c.id == IntToString(u.updateId)
      && c.chatId == IntToString(m.chatId)
      && (m.from.Some? ==> c.senderId == IntToString(m.from.value.id))
      && (m.from.None? ==> c.senderId == c.chatId)
      && (m.from.Some? && Truthy(m.from.value.username) ==> c.senderName == m.from.value.username.value)
      && (m.from.Some? && !Truthy(m.from.value.username) && m.from.value.firstName != "" ==>
            c.senderName == m.from.value.firstName)
      && (m.from.None? || (!Truthy(m.from.value.username) && m.from.value.firstName == "") ==>
            c.senderName == UnknownSender)
      && c.content == m.text.value && c.content != ""
      && c.timestamp == m.date * 1000
      && !c.fromMe
  {
    if !CarriesText(u) then None
    else
      var m := u.message.value;
      var chat := IntToString(m.chatId);
      var name := match m.from
        case Some(user) => Or(user.username, Or(Some(user.firstName), UnknownSender))
        case None => UnknownSender;
      Some(ChannelMessage(
        IntToString(u.updateId),
        chat,
        if m.from.Some? then IntToString(m.from.value.id) else chat,
        name,
        m.text.value,
        m.date * 1000,
        false))
  }

  /** A reply addressed to a delivered message's chat id reaches that chat:
      `parseInt` reads the written id back exactly. */
  lemma ReplyReachesSameChat(u: TelegramUpdate)
    requires CarriesText(u)
    ensures ParseInt(Normalize(u).value.chatId) == Some(u.message.value.chatId)
  {
    IntToStringRoundTrip(u.message.value.chatId);
  }

  // ---------------------------------------------------------------------------
  // The cursor

  /** The cursor after a batch has been handled: one past the last update's
      id, or unchanged when the batch is empty. */
  function OffsetAfter(offset: int, updates: seq<TelegramUpdate>): int {
    if updates == [] then offset else updates[|updates| - 1].updateId + 1
  }

  lemma OffsetAfterSnoc(offset: int, updates: seq<TelegramUpdate>, u: TelegramUpdate)
    ensures OffsetAfter(offset, updates + [u]) == u.updateId + 1
  {
  }

  predicate IncreasingIds(updates: seq<TelegramUpdate>) {
    forall i, j :: 0 <= i < j < |updates| ==> updates[i].updateId < updates[j].updateId
  }

  /** With ids increasing through the batch, as the bot API hands them out,
      the new cursor acknowledges every update of the batch, text or not,
      so none of them is fetched again. */
  lemma CursorAcknowledgesBatch(offset: int, updates: seq<TelegramUpdate>)
    requires IncreasingIds(updates)
    ensures forall i :: 0 <= i < |updates| ==> updates[i].updateId < OffsetAfter(offset, updates)
  {
    if updates != [] {
      forall i | 0 <= i < |updates| ensures updates[i].updateId <= updates[|updates| - 1].updateId {
        if i < |updates| - 1 {
          assert updates[i].updateId < updates[|updates| - 1].updateId;
        }
      }
    }
  }

  /** Handling two batches one after the other leaves the cursor where the
      second batch put it, unless the second was empty. */
  lemma CursorOverBatches(offset: int, first: seq<TelegramUpdate>, second: seq<TelegramUpdate>)
    ensures OffsetAfter(OffsetAfter(offset, first), second) == OffsetAfter(offset, first + second)
  {
    if second != [] {
      assert (first + second)[|first + second| - 1] == second[|second| - 1];
    } else {
      assert first + second == first;
    }
  }

  // ---------------------------------------------------------------------------
  // The adapter

  /** `getBotInfo`'s answer. */
  datatype BotInfo = BotInfo(id: int, username: string, name: string)

  /** `getBotInfo`: the bot's id, its username or "", its first name or "Bot";
      a failing `getMe` is passed on. */
  function GetBotInfo(me: Result<TelegramUser, string>): (r: Result<BotInfo, string>)
    ensures me.Failure? ==> r == Failure(me.error)
    ensures me.Success? ==> r.Success? && r.value.id == me.value.id && r.value.name != ""
    ensures me.Success? ==> (Truthy(me.value.username) ==> r.value.username == me.value.username.value)
    ensures me.Success? ==> (!Truthy(me.value.username) ==> r.value.username == "")
    ensures me.Success? ==> (me.value.firstName != "" ==> r.value.name == me.value.firstName)
    ensures me.Success? ==> (me.value.firstName == "" ==> r.value.name == DefaultBotName)
  {
    match me
    case Failure(e) => Failure(e)
    case Success(user) => Success(BotInfo(user.id, Or(user.username, ""), Or(Some(user.firstName), DefaultBotName)))
  }

  /** `syncGroupMetadata`: the bot API cannot list groups, so there are none. */
  function SyncGroupMetadata(): (r: map<string, string>)
    ensures |r| == 0
  {
    map[]
  }

  /** A chat action sent by `setTyping`: the numeric chat (absent when the id
      does not parse) and the action. */
  datatype ChatAction = ChatAction(target: Option<int>, action: string)

  /** Where the polling loop is: not running, fetching, or pausing before it restarts. */
  datatype PollPhase = Idle | Polling | Pausing

  /** `TelegramChannel`, with the state of its polling loop: the cursor and
      the phase. `delivered` is every `ChannelMessage` handed to a registered
      callback so far. */
  class TelegramChannel {
    var connected: bool
    var pollingStopped: bool
    var phase: PollPhase
    var offset: int
    var hasCallback: bool
    var delivered: seq<ChannelMessage>

    constructor ()
      ensures !connected && !pollingStopped && phase == Idle && offset == 0
      ensures !hasCallback && delivered == []
    {
      connected := false;
      pollingStopped := false;
      phase := Idle;
      offset := 0;
      hasCallback := false;
      delivered := [];
    }

    /** `isConnected`. */
    predicate IsConnected()
      reads this
    {
      connected
    }

    /** The loop's condition: it fetches only while not stopped and connected. */
    predicate MayPoll()
      reads this
    {
      !pollingStopped && connected
    }

    /** `connect` as written: once `getMe` succeeds, `connected` is set and a
      fresh loop starts from cursor 0; a failing `getMe` is passed on and
      changes nothing. A stop flag left by `disconnect` is not cleared, so
      that loop ends before fetching anything. */
    method Connect(me: Result<TelegramUser, string>) returns (r: Outcome<string>)
      modifies this
      ensures me.Failure? ==> r == Fail(me.error) && connected == old(connected) && phase == old(phase) && offset == old(offset)
      ensures me.Success? ==> r == Pass && connected && offset == 0
      ensures me.Success? ==> (phase == Polling <==> !pollingStopped)
      ensures me.Success? && pollingStopped ==> phase == Idle
      ensures pollingStopped == old(pollingStopped)
      ensures hasCallback == old(hasCallback) && delivered == old(delivered)
    {
      if me.Failure? {
        return Fail(me.error);
      }
      connected := true;
      StartPolling();
      r := Pass;
    }

    /** `connect` with the stop flag cleared, so that a connect after a
      disconnect polls again. */
    method ConnectResumingPolling(me: Result<TelegramUser, string>) returns (r: Outcome<string>)
      modifies this
      ensures me.Failure? ==> r == Fail(me.error) && connected == old(connected) && phase == old(phase) && offset == old(offset)
      ensures me.Failure? ==> pollingStopped == old(pollingStopped)
      ensures me.Success? ==> r == Pass && connected && !pollingStopped && phase == Polling && offset == 0
      ensures hasCallback == old(hasCallback) && delivered == old(delivered)
    {
      if me.Failure? {
        return Fail(me.error);
      }
      connected := true;
      pollingStopped := false;
      StartPolling();
      r := Pass;
    }

    /** `startPolling`: a loop starts from cursor 0 and ends at once when it may not poll. */
    method StartPolling()
      modifies this
      ensures offset == 0
      ensures phase == (if MayPoll() then Polling else if pollingStopped then Idle else Pausing)
      ensures connected == old(connected) && pollingStopped == old(pollingStopped)
      ensures hasCallback == old(hasCallback) && delivered == old(delivered)
    {
      offset := 0;
      phase := Polling;
      LeaveLoopIfStopped();
    }

    /** The loop's exit: when it may no longer poll, it pauses unless stopped. */
    method LeaveLoopIfStopped()
      requires phase == Polling
      modifies this
      ensures phase == (if MayPoll() then Polling else if pollingStopped then Idle else Pausing)
      ensures connected == old(connected) && pollingStopped == old(pollingStopped) && offset == old(offset)
      ensures hasCallback == old(hasCallback) && delivered == old(delivered)
    {
      if !MayPoll() {
        phase := if pollingStopped then Idle else Pausing;
      }
    }

    /** `disconnect`: stops the loop at its next check and clears `connected`. */
    method Disconnect()
      modifies this
      ensures pollingStopped && !connected && !IsConnected() && !MayPoll()
      ensures phase == old(phase) && offset == old(offset)
      ensures hasCallback == old(hasCallback) && delivered == old(delivered)
    {
      pollingStopped := true;
      connected := false;
    }

    /** `onMessage`: registers the callback. */
    method OnMessage()
      modifies this
      ensures hasCallback
      ensures connected == old(connected) && pollingStopped == old(pollingStopped)
      ensures phase == old(phase) && offset == old(offset) && delivered == old(delivered)
    {
      hasCallback := true;
    }

    /** One pass of the loop: fetch from the cursor; hand each text update of
      the batch to the callback in order, moving the cursor past every update
      as it is handled; a failed fetch changes nothing. Then the loop's
      condition is checked again. */
    method PollOnce(fetch: Fetch)
      requires phase == Polling && MayPoll()
      modifies this
      ensures offset == FetchCursor(old(offset), fetch)
      ensures delivered == old(delivered) + (if hasCallback then FetchDelivers(fetch) else [])
      ensures phase == Polling
      ensures connected == old(connected) && pollingStopped == old(pollingStopped) && hasCallback == old(hasCallback)
    {
      if fetch.FetchFailed? {
        return;
      }
      var updates := fetch.updates;
      ghost var start := offset;
      for i := 0 to |updates|
        invariant offset == OffsetAfter(start, updates[..i])
        invariant delivered == old(delivered) + (if hasCallback then Keep(Normalize, updates[..i]) else [])
        invariant phase == Polling
        invariant connected == old(connected) && pollingStopped == old(pollingStopped) && hasCallback == old(hasCallback)
      {
        HandleUpdate(updates[i]);
        assert updates[..i + 1] == updates[..i] + [updates[i]];
        OffsetAfterSnoc(start, updates[..i], updates[i]);
        KeepSnoc(Normalize, updates[..i], updates[i]);
      }
      assert updates[..|updates|] == updates;
    }

    /** One update of a batch: a text update goes to the callback, and the
      cursor moves past the update either way. */
    method HandleUpdate(u: TelegramUpdate)
      modifies this
      ensures delivered == old(delivered) + (if hasCallback then AsSeq(Normalize(u)) else [])
      ensures offset == u.updateId + 1
      ensures phase == old(phase) && connected == old(connected)
      ensures pollingStopped == old(pollingStopped) && hasCallback == old(hasCallback)
    {
      var message := Normalize(u);
      if message.Some? && hasCallback {
        delivered := delivered + [message.value];
      }
      offset := u.updateId + 1;
    }

    /** The loop run over the answers to its successive fetches, for as long
      as it may poll; it then pauses, or ends when stopped. */
    method Poll(fetches: seq<Fetch>)
      requires phase == Polling
      modifies this
      ensures MayPoll() ==> phase == Polling && offset == CursorAfterFetches(old(offset), fetches)
      ensures MayPoll() ==> delivered == old(delivered) + (if hasCallback then DeliveredFrom(fetches) else [])
      ensures !MayPoll() ==> phase == (if pollingStopped then Idle else Pausing)
      ensures !MayPoll() ==> offset == old(offset) && delivered == old(delivered)
      ensures connected == old(connected) && pollingStopped == old(pollingStopped) && hasCallback == old(hasCallback)
    {
      if MayPoll() {
        PollAll(fetches);
      }
      LeaveLoopIfStopped();
    }

    /** The passes of a loop that may poll throughout: the cursor and the
      deliveries follow the fetches in order. */
    method PollAll(fetches: seq<Fetch>)
      requires phase == Polling && MayPoll()
      modifies this
      ensures phase == Polling && offset == CursorAfterFetches(old(offset), fetches)
      ensures delivered == old(delivered) + (if hasCallback then DeliveredFrom(fetches) else [])
      ensures connected == old(connected) && pollingStopped == old(pollingStopped) && hasCallback == old(hasCallback)
    {
      ghost var startOffset, startDelivered := offset, delivered;
      ghost var wasConnected, wasStopped, callback := connected, pollingStopped, hasCallback;
      for i := 0 to |fetches|
        invariant phase == Polling
        invariant connected == wasConnected && pollingStopped == wasStopped && hasCallback == callback
        invariant offset == CursorAfterFetches(startOffset, fetches[..i])
        invariant delivered == startDelivered + (if callback then DeliveredFrom(fetches[..i]) else [])
      {
        ghost var before, beforeDelivered := offset, delivered;
        PollOnce(fetches[i]);
        PollGlue(startOffset, startDelivered, fetches[..i], fetches[i], before, beforeDelivered, callback);
        assert fetches[..i] + [fetches[i]] == fetches[..i + 1];
      }
      assert fetches[..|fetches|] == fetches;
    }

    /** After the five-second pause the loop restarts only if it may poll. */
    method ResumeAfterPause()
      requires phase == Pausing
      modifies this
      ensures phase == (if MayPoll() then Polling else Idle)
      ensures connected == old(connected) && pollingStopped == old(pollingStopped) && offset == old(offset)
      ensures hasCallback == old(hasCallback) && delivered == old(delivered)
    {
      phase := if MayPoll() then Polling else Idle;
    }

    /** `sendMessage`: the text goes to the chat id parsed as a decimal
      number; the API's failure is passed on. */
    method SendMessage(chatId: string, text: string, apiAnswer: Outcome<string>) returns (target: Option<int>, r: Outcome<string>)
      ensures target == ParseInt(chatId)
      ensures r == apiAnswer
    {
      target := ParseInt(chatId);
      r := apiAnswer;
    }

    /** `setTyping`: a "typing" action only when typing starts; nothing when it
      stops, and a failure to send is ignored. */
    method SetTyping(chatId: string, isTyping: bool) returns (action: Option<ChatAction>)
      ensures action.Some? <==> isTyping
      ensures action.Some? ==> action.value == ChatAction(ParseInt(chatId), TypingAction)
    {
      if isTyping {
        action := Some(ChatAction(ParseInt(chatId), TypingAction));
      } else {
        action := None;
      }
    }
  }

  /** As written, a channel that is disconnected and then connected again
      reports itself connected, but its polling loop ends before fetching
      anything, so it never delivers another message. */
  method ReconnectAfterDisconnect(me: TelegramUser) returns (connectedAfter: bool, pollingAfter: bool)
    ensures connectedAfter && !pollingAfter
  {
    var channel := new TelegramChannel();
    var first := channel.Connect(Success(me));
    channel.Disconnect();
    var second := channel.Connect(Success(me));
    connectedAfter := channel.IsConnected();
    pollingAfter := channel.phase == Polling;
  }

  /** With the stop flag cleared on connect, the same sequence leaves the
      channel connected and polling again from cursor 0. */
  method ReconnectAfterDisconnectResumes(me: TelegramUser) returns (connectedAfter: bool, pollingAfter: bool)
    ensures connectedAfter && pollingAfter
  {
    var channel := new TelegramChannel();
    var first := channel.ConnectResumingPolling(Success(me));
    channel.Disconnect();
    var second := channel.ConnectResumingPolling(Success(me));
    connectedAfter := channel.IsConnected();
    pollingAfter := channel.phase == Polling;
  }

  /** The cursor after one fetch: a failed fetch leaves it alone. */
  function FetchCursor(offset: int, fetch: Fetch): int {
    if fetch.Fetched? then OffsetAfter(offset, fetch.updates) else offset
  }

  /** The messages one fetch hands to the callback: none for a failed fetch. */
  function FetchDelivers(fetch: Fetch): seq<ChannelMessage> {
    if fetch.Fetched? then Keep(Normalize, fetch.updates) else []
  }

  /** The cursor after a run of fetches. */
  function CursorAfterFetches(offset: int, fetches: seq<Fetch>): int
    decreases |fetches|
  {
    if fetches == [] then offset
    else FetchCursor(CursorAfterFetches(offset, fetches[..|fetches| - 1]), fetches[|fetches| - 1])
  }

  /** The messages a run of fetches hands to the callback, in order. */
  function DeliveredFrom(fetches: seq<Fetch>): seq<ChannelMessage>
    decreases |fetches|
  {
    if fetches == [] then []
    else DeliveredFrom(fetches[..|fetches| - 1]) + FetchDelivers(fetches[|fetches| - 1])
  }

  lemma FetchesSnoc(offset: int, fetches: seq<Fetch>, f: Fetch)
    ensures CursorAfterFetches(offset, fetches + [f]) == FetchCursor(CursorAfterFetches(offset, fetches), f)
    ensures DeliveredFrom(fetches + [f]) == DeliveredFrom(fetches) + FetchDelivers(f)
  {
    assert (fetches + [f])[..|fetches + [f]| - 1] == fetches;
  }

  /** One more fetch extends the cursor and the deliveries of a run by what
      that fetch alone does. */
  lemma PollGlue(startOffset: int, startDelivered: seq<ChannelMessage>, done: seq<Fetch>, fetch: Fetch,
                 offset: int, delivered: seq<ChannelMessage>, callback: bool)
    requires offset == CursorAfterFetches(startOffset, done)
    requires delivered == startDelivered + (if callback then DeliveredFrom(done) else [])
    ensures FetchCursor(offset, fetch) == CursorAfterFetches(startOffset, done + [fetch])
    ensures delivered + (if callback then FetchDelivers(fetch) else [])
      == startDelivered + (if callback then DeliveredFrom(done + [fetch]) else [])
  {
    FetchesSnoc(startOffset, done, fetch);
    if callback {
      var before, last := DeliveredFrom(done), FetchDelivers(fetch);
      assert DeliveredFrom(done + [fetch]) == before + last;
      ConcatAssoc(startDelivered, before, last);
    }
  }

  /** Failed fetches are invisible: removing them from a run changes neither
      the cursor nor what is delivered. */
  lemma {:induction false} FailedFetchesChangeNothing(offset: int, before: seq<Fetch>, after: seq<Fetch>)
    ensures CursorAfterFetches(offset, before + [FetchFailed] + after) == CursorAfterFetches(offset, before + after)
    ensures DeliveredFrom(before + [FetchFailed] + after) == DeliveredFrom(before + after)
    decreases |after|
  {
    if after == [] {
      assert before + [FetchFailed] + after == before + [FetchFailed];
      assert before + after == before;
      FetchesSnoc(offset, before, FetchFailed);
    } else {
      var front := after[..|after| - 1];
      var f := after[|after| - 1];
      assert before + [FetchFailed] + after == (before + [FetchFailed] + front) + [f];
      assert before + after == (before + front) + [f];
      FetchesSnoc(offset, before + [FetchFailed] + front, f);
      FetchesSnoc(offset, before + front, f);
      FailedFetchesChangeNothing(offset, before, front);
    }
  }

  /** Every text update of every batch is delivered exactly once: what the
      run hands on is the batches' text updates, in fetch order and batch order. */
  lemma {:induction false} DeliveredInFetchOrder(fetches: seq<Fetch>, f: Fetch, g: Fetch)
    requires f.Fetched? && g.Fetched?
    ensures DeliveredFrom(fetches + [f, g]) == DeliveredFrom(fetches) + Keep(Normalize, f.updates + g.updates)
  {
    var front := DeliveredFrom(fetches);
    var first, second := Keep(Normalize, f.updates), Keep(Normalize, g.updates);
    assert fetches + [f, g] == (fetches + [f]) + [g];
    FetchesSnoc(0, fetches + [f], g);
    FetchesSnoc(0, fetches, f);
    assert DeliveredFrom(fetches + [f, g]) == front + first + second;
    ConcatAssoc(front, first, second);
    KeepAppend(Normalize, f.updates, g.updates);
  }
}
