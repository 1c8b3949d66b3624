/** The chat session controller (`useChat`). The hook's state lives in one
    `ChatState` value that each action replaces through an updater; the
    updaters are the functions below, and `ChatSession` is the hook instance
    whose `state` field they are applied to. The asynchronous send is split
    into its two `setState` phases, `SendMessage` (before the transport call)
    and `ResolveSend` (after it), so that other actions can run in between. */
module UseChat {
  import opened Wrappers
  import opened Text
  import opened ChatTypes
  import opened MessageStorage
  import ChatService
  import Analytics

  const SEND_FAILED: string := "Failed to send message. Please try again."
  const FOLLOW_UP_TEXT: string := "Is there anything else I can help you with?"

  /** The hook's state. `error` is `None` for `null`. */
  datatype ChatState = ChatState(messages: seq<Message>, isOpen: bool, isLoading: bool, error: Option<string>)

  /** The options of `useChat` the controller reads. */
  datatype SessionConfig = SessionConfig(
    persistMessages: Option<bool>,
    welcomeMessage: Option<string>,
    service: ChatService.ChatServiceConfig)

  function InitialState(): ChatState {
    ChatState([], false, false, None)
  }

  /** The optimistic user message of a send. */
  function UserMessage(id: string, text: string, at: Instant): Message {
    Message(id, text, at, true, SENDING, None)
  }

  /** A bot message: a reply, the welcome or the follow-up. */
  function BotMessage(id: string, text: string, at: Instant, products: Option<seq<Product>>): Message {
    Message(id, text, at, false, SENT, products)
  }

  // ---------------------------------------------------------------------------
  // The list operations the updaters use

  /** `msgs.map(msg => msg.id === id ? { ...msg, status } : msg)` */
  function WithStatus(msgs: seq<Message>, id: string, status: string): (r: seq<Message>)
    ensures |r| == |msgs|
    ensures forall i :: 0 <= i < |msgs| ==>
              r[i] == if msgs[i].id == id then msgs[i].(status := status) else msgs[i]
  {
    if msgs == [] then []
    else [if msgs[0].id == id then msgs[0].(status := status) else msgs[0]] + WithStatus(msgs[1..], id, status)
  }

  /** `msgs.filter(msg => msg.id !== id)` */
  function WithoutId(msgs: seq<Message>, id: string): (r: seq<Message>)
    ensures |r| <= |msgs|
    ensures forall i :: 0 <= i < |r| ==> r[i].id != id
    ensures forall m :: m in r <==> m in msgs && m.id != id
  {
    if msgs == [] then []
    else if msgs[0].id == id then WithoutId(msgs[1..], id)
    else [msgs[0]] + WithoutId(msgs[1..], id)
  }

  /** `msgs.find(msg => msg.id === id)`: a message with that id exists
      exactly when the id occurs; `FindByIdIsFirst` shows it is the first. */
  function FindById(msgs: seq<Message>, id: string): (r: Option<Message>)
    ensures r.Some? <==> id in Ids(msgs)
    ensures r.Some? ==> r.value.id == id && r.value in msgs
  {
    if msgs == [] then None
    else if msgs[0].id == id then Some(msgs[0])
    else (IdsCons(msgs); FindById(msgs[1..], id))
  }

  /** The message found is the first one carrying the id. */
  lemma {:induction false} FindByIdIsFirst(msgs: seq<Message>, id: string)
    requires id in Ids(msgs)
    ensures exists i :: 0 <= i < |msgs| && FindById(msgs, id) == Some(msgs[i])
                        && forall k :: 0 <= k < i ==> msgs[k].id != id
    decreases |msgs|
  {
    IdsCons(msgs);
    if msgs[0].id == id {
      assert FindById(msgs, id) == Some(msgs[0]);
    } else {
      FindByIdIsFirst(msgs[1..], id);
      var i :| 0 <= i < |msgs[1..]| && FindById(msgs[1..], id) == Some(msgs[1..][i])
               && forall k :: 0 <= k < i ==> msgs[1..][k].id != id;
      forall k | 0 <= k < i + 1 ensures msgs[k].id != id {
        if k > 0 {
          assert msgs[k] == msgs[1..][k - 1];
        }
      }
      assert FindById(msgs, id) == Some(msgs[i + 1]);
    }
  }

  /** The filter keeps the order: it distributes over concatenation. */
  lemma {:induction false} WithoutIdAppend(a: seq<Message>, b: seq<Message>, id: string)
    ensures WithoutId(a + b, id) == WithoutId(a, id) + WithoutId(b, id)
    decreases |a|
  {
    if a != [] {
      assert (a + b)[0] == a[0];
      assert (a + b)[1..] == a[1..] + b;
      WithoutIdAppend(a[1..], b, id);
      if a[0].id == id {
        assert WithoutId(a + b, id) == WithoutId(a[1..] + b, id);
        assert WithoutId(a, id) == WithoutId(a[1..], id);
      } else {
        assert WithoutId(a + b, id) == [a[0]] + WithoutId(a[1..] + b, id);
        assert WithoutId(a, id) == [a[0]] + WithoutId(a[1..], id);
        assert [a[0]] + (WithoutId(a[1..], id) + WithoutId(b, id))
            == ([a[0]] + WithoutId(a[1..], id)) + WithoutId(b, id);
      }
    } else {
      assert a + b == b;
    }
  }

  /** When no message has the id, the filter keeps the whole log; otherwise
      it is strictly shorter. */
  lemma {:induction false} WithoutIdAbsent(msgs: seq<Message>, id: string)
    ensures id !in Ids(msgs) ==> WithoutId(msgs, id) == msgs
    ensures id in Ids(msgs) ==> |WithoutId(msgs, id)| < |msgs|
    decreases |msgs|
  {
    if msgs != [] {
      WithoutIdAbsent(msgs[1..], id);
      if id !in Ids(msgs) {
        assert id !in Ids(msgs[1..]);
      } else if msgs[0].id != id {
        var i :| 0 <= i < |msgs| && msgs[i].id == id;
        assert msgs[1..][i - 1].id == id;
      }
    }
  }

  /** Removing messages cannot create a duplicate id. */
  lemma {:induction false} WithoutIdKeepsUnique(msgs: seq<Message>, id: string)
    requires UniqueIds(msgs)
    ensures UniqueIds(WithoutId(msgs, id))
    decreases |msgs|
  {
    if msgs != [] {
      WithoutIdKeepsUnique(msgs[1..], id);
      var rest := WithoutId(msgs[1..], id);
      forall j | 0 <= j < |rest| ensures rest[j].id != msgs[0].id {
        assert rest[j] in msgs[1..];
      }
    }
  }

  // ---------------------------------------------------------------------------
  // The updaters

  /** Phase one of `sendMessage`: the optimistic append. */
  function Begin(s: ChatState, msg: Message): ChatState {
    s.(messages := s.messages + [msg], isLoading := true, error := None)
  }

  /** Phase two on success: the sent message becomes `sent`, the reply is
      appended, loading ends. `error` is left as it is. */
  function Succeed(s: ChatState, sentId: string, reply: Message): ChatState {
    s.(messages := WithStatus(s.messages, sentId, SENT) + [reply], isLoading := false)
  }

  /** Phase two on failure: the sent message becomes `error`, loading ends
      and the banner error is set. */
  function Fail(s: ChatState, sentId: string): ChatState {
    s.(messages := WithStatus(s.messages, sentId, ERROR), isLoading := false, error := Some(SEND_FAILED))
  }

  /** The welcome and follow-up updaters: one message appended. */
  function Append(s: ChatState, msg: Message): ChatState {
    s.(messages := s.messages + [msg])
  }

  function Toggled(s: ChatState): ChatState {
    s.(isOpen := !s.isOpen)
  }

  function Cleared(s: ChatState): ChatState {
    s.(messages := [])
  }

  /** The first updater of `retryMessage`. */
  function Removed(s: ChatState, id: string): ChatState {
    s.(messages := WithoutId(s.messages, id), error := None)
  }

  /** `sendMessage(text)` up to the transport call: nothing at all for blank
      text, else the optimistic append with the text as typed. */
  function SendTransition(s: ChatState, text: string, id: string, at: Instant): ChatState {
    if IsBlank(text) then s else Begin(s, UserMessage(id, text, at))
  }

  /** The rest of `sendMessage`, once the transport has settled. */
  function Resolve(s: ChatState, sentId: string, outcome: Result<ChatResponse, ChatService.TransportError>,
                   replyId: string, at: Instant): ChatState
  {
    match outcome
    case Success(resp) => Succeed(s, sentId, BotMessage(replyId, resp.text, at, resp.products))
    case Failure(_) => Fail(s, sentId)
  }

  /** `retryMessage(id)`: a user message with that id is removed (with every
      other message of that id) and its text sent again; otherwise nothing. */
  function Retry(s: ChatState, id: string, newId: string, at: Instant): ChatState {
    match FindById(s.messages, id)
    case Some(m) => if m.isUser then SendTransition(Removed(s, id), m.text, newId, at) else s
    case None => s
  }

  /** The condition of the welcome effect. */
  predicate WelcomeDue(s: ChatState, welcome: Option<string>) {
    s.isOpen && |s.messages| == 0 && ChatService.Given(welcome)
  }

  // ---------------------------------------------------------------------------
  // Properties of the updaters

  /** Whitespace-only text changes nothing: no message, no loading flag. */
  lemma BlankSendIsNoOp(s: ChatState, text: string, id: string, at: Instant)
    requires forall i :: 0 <= i < |text| ==> IsJsWhitespace(text[i])
    ensures SendTransition(s, text, id, at) == s
  {
    BlankIffAllWhitespace(text);
  }

  /** Otherwise exactly one message is appended at the end, from the user,
      `sending`, with the untrimmed text; the earlier messages are untouched,
      loading starts and the error is cleared. */
  lemma BeginAppendsOne(s: ChatState, text: string, id: string, at: Instant)
    requires !IsBlank(text)
    ensures var r := SendTransition(s, text, id, at);
      && |r.messages| == |s.messages| + 1
      && r.messages[..|s.messages|] == s.messages
      && r.messages[|s.messages|].id == id && r.messages[|s.messages|].isUser
      && r.messages[|s.messages|].status == SENDING && r.messages[|s.messages|].text == text
      && r.messages[|s.messages|].products.None?
      && r.isLoading && r.error.None? && r.isOpen == s.isOpen
  {
  }

  /** On success only the messages carrying the sent id become `sent`, every
      other message is unchanged, exactly one bot reply with the response's
      text and products is appended, loading ends, and `isOpen` and `error`
      are kept. */
  lemma SuccessResolves(s: ChatState, sentId: string, resp: ChatResponse, replyId: string, at: Instant)
    ensures var r := Resolve(s, sentId, Success(resp), replyId, at);
      && |r.messages| == |s.messages| + 1
      && (forall i :: 0 <= i < |s.messages| && s.messages[i].id == sentId ==>
            r.messages[i] == s.messages[i].(status := SENT))
      && (forall i :: 0 <= i < |s.messages| && s.messages[i].id != sentId ==> r.messages[i] == s.messages[i])
      && r.messages[|s.messages|] == BotMessage(replyId, resp.text, at, resp.products)
      && !r.messages[|s.messages|].isUser && r.messages[|s.messages|].status == SENT
      && !r.isLoading && r.error == s.error && r.isOpen == s.isOpen
  {
  }

  /** The reply is appended even when the sent message is no longer in the
      log: the log just grows by the reply. */
  lemma ReplyAppendedWhenSentMessageGone(s: ChatState, sentId: string, resp: ChatResponse, replyId: string, at: Instant)
    requires sentId !in Ids(s.messages)
    ensures Resolve(s, sentId, Success(resp), replyId, at).messages
            == s.messages + [BotMessage(replyId, resp.text, at, resp.products)]
  {
    var w := WithStatus(s.messages, sentId, SENT);
    assert w == s.messages;
  }

  /** On failure the messages with the sent id become `error`, no message is
      added or removed, loading ends and the error banner text is set. */
  lemma FailureResolves(s: ChatState, sentId: string, e: ChatService.TransportError, replyId: string, at: Instant)
    ensures var r := Resolve(s, sentId, Failure(e), replyId, at);
      && |r.messages| == |s.messages|
      && (forall i :: 0 <= i < |s.messages| ==>
            r.messages[i] == if s.messages[i].id == sentId then s.messages[i].(status := ERROR) else s.messages[i])
      && !r.isLoading && r.error == Some(SEND_FAILED) && r.isOpen == s.isOpen
  {
  }

  /** Clearing the log while a send is in flight does not stop its reply: the
      log ends up holding just the bot reply. */
  lemma ReplyLandsAfterClear(s: ChatState, text: string, id: string, at: Instant,
                             resp: ChatResponse, replyId: string, at2: Instant)
    requires !IsBlank(text)
    ensures Resolve(Cleared(SendTransition(s, text, id, at)), id, Success(resp), replyId, at2).messages
            == [BotMessage(replyId, resp.text, at2, resp.products)]
  {
    assert WithStatus([], id, SENT) == [];
  }

  /** Nothing prevents two sends from overlapping, and the first one to
      settle ends loading although the other message is still `sending`. */
  lemma OverlappingSendsEndLoadingEarly(s: ChatState, a: string, b: string, idA: string, idB: string,
                                         at: Instant, resp: ChatResponse, replyId: string)
    requires !IsBlank(a) && !IsBlank(b) && idA != idB
    ensures var r := Resolve(SendTransition(SendTransition(s, a, idA, at), b, idB, at),
                             idA, Success(resp), replyId, at);
      && !r.isLoading
      && r.messages[|s.messages| + 1] == UserMessage(idB, b, at)
  {
  }

  /** The welcome is injected as one bot message with status `sent` and the
      welcome text, and afterwards it is no longer due. */
  lemma WelcomeInjectedOnce(s: ChatState, welcome: Option<string>, id: string, at: Instant)
    requires WelcomeDue(s, welcome)
    ensures var r := Append(s, BotMessage(id, welcome.value, at, None));
      && r.messages == [BotMessage(id, welcome.value, at, None)]
      && !r.messages[0].isUser && r.messages[0].status == SENT
      && !WelcomeDue(r, welcome)
  {
  }

  /** Toggling flips `isOpen` only, and twice is the identity. */
  lemma ToggleFlipsOnlyIsOpen(s: ChatState)
    ensures Toggled(s).isOpen == !s.isOpen
    ensures Toggled(s).messages == s.messages && Toggled(s).isLoading == s.isLoading && Toggled(s).error == s.error
    ensures Toggled(Toggled(s)) == s
  {
  }

  /** Clearing empties the log, keeps the other fields and is idempotent. */
  lemma ClearIsIdempotent(s: ChatState)
    ensures Cleared(s).messages == []
    ensures Cleared(s).isOpen == s.isOpen && Cleared(s).isLoading == s.isLoading && Cleared(s).error == s.error
    ensures Cleared(Cleared(s)) == Cleared(s)
  {
  }

  /** Retry is a no-op when no message has the id or the first one with it is
      not from the user. */
  lemma RetryNoOp(s: ChatState, id: string, newId: string, at: Instant)
    requires id !in Ids(s.messages) || !FindById(s.messages, id).value.isUser
    ensures Retry(s, id, newId, at) == s
  {
  }

  /** Retrying a user message removes every message with that id, clears the
      error and appends a fresh `sending` message with the same text at the
      end; the remaining messages keep their order. */
  lemma RetryLaw(s: ChatState, id: string, newId: string, at: Instant)
    requires id in Ids(s.messages)
    requires FindById(s.messages, id).value.isUser
    requires !IsBlank(FindById(s.messages, id).value.text)
    requires newId != id
    ensures var r := Retry(s, id, newId, at);
      && id !in Ids(r.messages)
      && |r.messages| >= 1
      && r.messages[..|r.messages| - 1] == WithoutId(s.messages, id)
      && r.messages[|r.messages| - 1] == UserMessage(newId, FindById(s.messages, id).value.text, at)
      && r.isLoading && r.error.None?
  {
    var r := Retry(s, id, newId, at);
    var m := FindById(s.messages, id).value;
    assert r.messages == WithoutId(s.messages, id) + [UserMessage(newId, m.text, at)];
    assert r.messages[..|r.messages| - 1] == WithoutId(s.messages, id);
  }

  /** A user message with blank text (possible after a reload) is removed by
      retry and nothing is sent in its place. */
  lemma RetryOfBlankMessageOnlyRemoves(s: ChatState, id: string, newId: string, at: Instant)
    requires id in Ids(s.messages)
    requires FindById(s.messages, id).value.isUser
    requires IsBlank(FindById(s.messages, id).value.text)
    ensures Retry(s, id, newId, at) == s.(messages := WithoutId(s.messages, id), error := None)
  {
  }

  /** Appending a message whose id is fresh keeps the ids of a log unique. */
  lemma AppendFreshKeepsUnique(msgs: seq<Message>, m: Message)
    requires UniqueIds(msgs) && m.id !in Ids(msgs)
    ensures UniqueIds(msgs + [m])
  {
    var u := msgs + [m];
    forall i, j | 0 <= i < j < |u| ensures u[i].id != u[j].id {
      assert u[i] == msgs[i];
      if j < |msgs| {
        assert u[j] == msgs[j];
      }
    }
  }

  /** A send or an injected bot message with a fresh id keeps the ids of
      the log unique. */
  lemma AppendFreshKeepsIdsUnique(s: ChatState, text: string, id: string, at: Instant)
    requires UniqueIds(s.messages) && id !in Ids(s.messages)
    ensures UniqueIds(SendTransition(s, text, id, at).messages)
    ensures UniqueIds(Append(s, BotMessage(id, text, at, None)).messages)
  {
    AppendFreshKeepsUnique(s.messages, UserMessage(id, text, at));
    AppendFreshKeepsUnique(s.messages, BotMessage(id, text, at, None));
  }

  /** Settling a send keeps ids unique when the reply id is fresh. */
  lemma ResolveKeepsIdsUnique(s: ChatState, sentId: string,
                              outcome: Result<ChatResponse, ChatService.TransportError>,
                              replyId: string, at: Instant)
    requires UniqueIds(s.messages) && replyId !in Ids(s.messages)
    ensures UniqueIds(Resolve(s, sentId, outcome, replyId, at).messages)
  {
    var w := WithStatus(s.messages, sentId, if outcome.Success? then SENT else ERROR);
    assert forall i :: 0 <= i < |w| ==> w[i].id == s.messages[i].id;
    assert UniqueIds(w);
    if outcome.Success? {
      forall i | 0 <= i < |w| ensures w[i].id != replyId {
        assert s.messages[i].id in Ids(s.messages);
      }
      AppendFreshKeepsUnique(w, BotMessage(replyId, outcome.value.text, at, outcome.value.products));
    }
  }

  /** Removing the messages with an id keeps a fresh id fresh. */
  lemma WithoutIdKeepsFresh(msgs: seq<Message>, id: string, newId: string)
    requires newId !in Ids(msgs)
    ensures newId !in Ids(WithoutId(msgs, id))
  {
    var kept := WithoutId(msgs, id);
    forall i | 0 <= i < |kept| ensures kept[i].id != newId {
      assert kept[i] in msgs;
    }
  }

  /** Retrying keeps ids unique when the new id is fresh. */
  lemma RetryKeepsIdsUnique(s: ChatState, id: string, newId: string, at: Instant)
    requires UniqueIds(s.messages) && newId !in Ids(s.messages)
    ensures UniqueIds(Retry(s, id, newId, at).messages)
  {
    var found := FindById(s.messages, id);
    if found.Some? && found.value.isUser {
      var kept := WithoutId(s.messages, id);
      WithoutIdKeepsUnique(s.messages, id);
      WithoutIdKeepsFresh(s.messages, id, newId);
      AppendFreshKeepsUnique(kept, UserMessage(newId, found.value.text, at));
    }
  }

  // ---------------------------------------------------------------------------
  // The hook instance

  /** One `useChat` instance: its state, its options, and the message store
      the persistence effects use. */
  class ChatSession {
    var state: ChatState
    const persistMessages: bool
    const welcomeMessage: Option<string>
    const service: ChatService.ChatServiceConfig
    const store: MessageStore

    /** The initial render: an empty closed session; `persistMessages`
        defaults to true. */
    constructor (config: SessionConfig, store: MessageStore)
      ensures state == InitialState()
      ensures persistMessages == (config.persistMessages != Some(false))
      ensures welcomeMessage == config.welcomeMessage && service == config.service && this.store == store
    {
      state := InitialState();
      persistMessages := config.persistMessages != Some(false);
      welcomeMessage := config.welcomeMessage;
      service := config.service;
      this.store := store;
    }

    /** The load effect: with persistence on, a non-empty stored log replaces
        the messages; nothing else changes. */
    method RestoreMessages(now: nat)
      modifies this
      ensures var saved := Decoded(store.available, store.slot, now);
        state == if persistMessages && |saved| > 0 then old(state).(messages := saved) else old(state)
    {
      if persistMessages {
        var saved := store.GetMessages(now);
        if |saved| > 0 {
          state := state.(messages := saved);
        }
      }
    }

    /** The save effect, run after the messages change: with persistence on it
        writes a non-empty log and never writes an empty one. */
    method MirrorMessages(quotaExceeded: bool)
      modifies store
      ensures state == old(state)
      ensures store.slot == if persistMessages && |state.messages| > 0 && store.available && !quotaExceeded
                            then Some(Entries(EncodeAll(state.messages))) else old(store.slot)
      ensures |state.messages| == 0 ==> store.slot == old(store.slot)
    {
      if persistMessages && |state.messages| > 0 {
        store.SaveMessages(state.messages, quotaExceeded);
      }
    }

    /** The welcome effect: appends the welcome as a bot message when the
        chat is open, the log is empty and a welcome text is configured. */
    method InjectWelcome(id: string, at: Instant)
      modifies this
      ensures state == if WelcomeDue(old(state), welcomeMessage)
                       then Append(old(state), BotMessage(id, welcomeMessage.value, at, None))
                       else old(state)
    {
      if state.isOpen && |state.messages| == 0 && ChatService.Given(welcomeMessage) {
        state := Append(state, BotMessage(id, welcomeMessage.value, at, None));
      }
    }

    /** `sendMessage`, first phase: `started` tells whether the transport is
        called at all. */
    method SendMessage(text: string, id: string, at: Instant) returns (started: bool)
      modifies this
      ensures started == !IsBlank(text)
      ensures state == SendTransition(old(state), text, id, at)
    {
      if IsBlank(text) {
        return false;
      }
      state := Begin(state, UserMessage(id, text, at));
      started := true;
    }

    /** `sendMessage`, second phase: the transport call for `text` settles
        with what `fetched` says, and the state is updated by id.
        `followUpDue` is the response's follow-up flag. */
    method ResolveSend(sentId: string, text: string, fetched: ChatService.FetchResult,
                       replyId: string, at: Instant) returns (followUpDue: bool)
      modifies this
      ensures var x := ChatService.SendMessage(service, text, fetched);
        && state == Resolve(old(state), sentId, x.outcome, replyId, at)
        && followUpDue == (x.outcome.Success? && x.outcome.value.shouldSendFollowUp)
    {
      var x := ChatService.SendMessage(service, text, fetched);
      match x.outcome {
        case Success(resp) =>
          state := Succeed(state, sentId, BotMessage(replyId, resp.text, at, resp.products));
          followUpDue := resp.shouldSendFollowUp;
        case Failure(_) =>
          state := Fail(state, sentId);
          followUpDue := false;
      }
    }

    /** The delayed follow-up, when the response asked for one. */
    method DeliverFollowUp(id: string, at: Instant)
      modifies this
      ensures state == Append(old(state), BotMessage(id, FOLLOW_UP_TEXT, at, None))
    {
      state := Append(state, BotMessage(id, FOLLOW_UP_TEXT, at, None));
    }

    /** `toggleChat`: flips `isOpen` and reports opening or closing, judged
        by the state before the flip. */
    method ToggleChat() returns (event: Analytics.EventType)
      modifies this
      ensures state == Toggled(old(state))
      ensures event == if old(state).isOpen then Analytics.CloseChat else Analytics.OpenChat
    {
      event := if state.isOpen then Analytics.CloseChat else Analytics.OpenChat;
      state := Toggled(state);
    }

    /** `clearMessages`: empties the log and, with persistence on, the store. */
    method ClearMessages()
      modifies this, store
      ensures state == Cleared(old(state))
      ensures store.slot == if persistMessages && store.available then None else old(store.slot)
    {
      state := Cleared(state);
      if persistMessages {
        store.ClearMessages();
      }
    }

    /** `retryMessage`: `started` tells whether a new send began. */
    method RetryMessage(id: string, newId: string, at: Instant) returns (started: bool)
      modifies this
      ensures state == Retry(old(state), id, newId, at)
      ensures started <==> id in Ids(old(state).messages) && FindById(old(state).messages, id).value.isUser
                           && !IsBlank(FindById(old(state).messages, id).value.text)
    {
      var found := FindById(state.messages, id);
      started := false;
      if found.Some? && found.value.isUser {
        state := Removed(state, id);
        started := SendMessage(found.value.text, newId, at);
      }
    }
  }
}
