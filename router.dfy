/**
 * The conversation router: the allow-list gate, the entry keywords, and the
 * two-step flow "pick an action, type a container name, confirm" that ends
 * in one call of the Unraid dispatcher.
 *
 * The transition is a function of the state map that says which reply to
 * give (a Reply) and which dispatcher calls to make; Render words a reply
 * as the text or card the router sends. The Router class runs the same
 * steps on a StateStore, appending rendered messages to a log instead of
 * sending them and recording dispatcher calls. The dispatcher is a function
 * parameter and the elapsed-milliseconds figure is an opaque parameter.
 */
module Router {
  import opened Wrappers
  import opened Text
  import opened Clock
  import opened Message
  import opened State
  import Validation

  /** NewRouter gives its state store a TTL of 30 minutes. */
  const StateTtl: int := 30 * Minute

  const NoPermissionText: string := "无权限：该账号未加入白名单。"
  const UnsupportedTypeText: string := "暂不支持的消息类型。"
  const OpenMenuPromptText: string := "请输入“容器”打开操作菜单。"
  const SessionExpiredText: string := "会话已过期，请输入“容器”重新开始。"
  const CancelledText: string := "已取消。"

  /** isEntryKeyword: the words that open the action menu, matched case-insensitively after trimming. */
  predicate IsEntryKeyword(content: string) {
    var k := ToLower(TrimSpace(content));
    k == "help" || k == "菜单" || k == "容器" || k == "docker" || k == "unraid"
  }

  /** The Unraid dispatcher: None for success, Some(message) for an error. */
  type Executor = (Action, string) -> Option<string>

  /** One call of the Unraid dispatcher. */
  datatype Dispatch = Dispatch(action: Action, containerName: string)

  /** execAction: known actions go to the dispatcher; anything else fails without a call. */
  function ExecResult(exec: Executor, action: Action, containerName: string): Option<string> {
    if KnownAction(action) then exec(action, containerName) else Some("未知动作: " + action)
  }

  function ExecCalls(action: Action, containerName: string): (r: seq<Dispatch>)
    ensures |r| <= 1
    ensures r != [] <==> KnownAction(action)
  {
    if KnownAction(action) then [Dispatch(action, containerName)] else []
  }

  /** The replies the router can give. */
  datatype Reply =
    | NoPermission
    | UnsupportedType
    | ActionMenu
    | OpenMenuPrompt
    | InvalidName(reason: string)
    | ConfirmPrompt(action: Action, containerName: string)
    | ActionSelected(action: Action)
    | SessionExpired
    | ExecFinished(costMs: int, action: Action, containerName: string, outcome: Option<string>)
    | Cancelled

  /** The wording of each reply, addressed to the user. */
  function Render(userId: string, r: Reply): (m: Outbound)
    ensures m.toUser == userId
  {
    match r
    case NoPermission => Text(userId, NoPermissionText)
    case UnsupportedType => Text(userId, UnsupportedTypeText)
    case ActionMenu => Card(userId, NewUnraidActionCard())
    case OpenMenuPrompt => Text(userId, OpenMenuPromptText)
    case InvalidName(reason) => Text(userId, "容器名不合法：" + reason)
    case ConfirmPrompt(action, name) => Card(userId, NewConfirmCard(DisplayName(action), name))
    case ActionSelected(action) => Text(userId, "已选择动作：" + DisplayName(action) + "\n请输入容器名：")
    case SessionExpired => Text(userId, SessionExpiredText)
    case ExecFinished(costMs, action, name, outcome) =>
      if outcome.Some? then Text(userId, "执行失败（" + IntToDecimal(costMs) + "ms）：" + outcome.value)
      else Text(userId, "执行成功（" + IntToDecimal(costMs) + "ms）：" + DisplayName(action) + " " + name)
    case Cancelled => Text(userId, CancelledText)
  }

  function RenderAll(userId: string, rs: seq<Reply>): (ms: seq<Outbound>)
    ensures |ms| == |rs|
    ensures forall i :: 0 <= i < |rs| ==> ms[i] == Render(userId, rs[i])
  {
    if rs == [] then [] else [Render(userId, rs[0])] + RenderAll(userId, rs[1..])
  }

  /** The effect of handling one message: the new state map, the replies, the dispatcher calls. */
  datatype Effect = Effect(data: map<string, ConversationState>, replies: seq<Reply>, dispatches: seq<Dispatch>)

  // ---------------------------------------------------------------------
  // The transition, as a function of the state map

  /** handleText, on content already trimmed. */
  function TextStep(data: map<string, ConversationState>, ttl: int, userId: string, content: string, now: int): (e: Effect)
    ensures e.dispatches == []
    ensures |e.replies| <= 1 && (e.replies == [] <==> content == "")
  {
    if content == "" then Effect(data, [], [])
    else if IsEntryKeyword(content) then Effect(ClearStep(data, userId), [ActionMenu], [])
    else
      var got := GetStep(data, userId, now);
      if !got.ok || got.state.step != StepAwaitingContainerName then Effect(got.data, [OpenMenuPrompt], [])
      else
        match Validation.ValidateContainerName(content)
        case Err(e) => Effect(got.data, [InvalidName(e)], [])
        case Ok(name) =>
          var next := got.state.(containerName := name, step := StepAwaitingConfirm);
          Effect(SetStep(got.data, ttl, userId, next, now), [ConfirmPrompt(next.action, name)], [])
  }

  /** The confirm button: run the pending action, if a live AwaitingConfirm state holds one. */
  function ConfirmStep(data: map<string, ConversationState>, userId: string, now: int,
                       exec: Executor, costMs: int): (e: Effect)
    ensures |e.replies| == 1 && |e.dispatches| <= 1
    ensures e.dispatches != [] ==>
      && userId in data && data[userId].step == StepAwaitingConfirm && userId !in e.data
      && e.dispatches == [Dispatch(data[userId].action, data[userId].containerName)]
  {
    var got := GetStep(data, userId, now);
    if !got.ok || got.state.step != StepAwaitingConfirm then Effect(got.data, [SessionExpired], [])
    else
      var st := got.state;
      Effect(ClearStep(got.data, userId),
             [ExecFinished(costMs, st.action, st.containerName, ExecResult(exec, st.action, st.containerName))],
             ExecCalls(st.action, st.containerName))
  }

  /** handleEvent. */
  function EventStep(data: map<string, ConversationState>, ttl: int, userId: string, msg: IncomingMessage,
                     now: int, exec: Executor, costMs: int): (e: Effect)
    ensures |e.replies| <= 1 && |e.dispatches| <= 1
    ensures e.dispatches != [] ==> msg.event == "template_card_event" && TrimSpace(msg.eventKey) == EventKeyConfirm
  {
    if msg.event == "enter_agent" then Effect(ClearStep(data, userId), [ActionMenu], [])
    else if msg.event != "template_card_event" then Effect(data, [], [])
    else CardStep(data, ttl, userId, TrimSpace(msg.eventKey), now, exec, costMs)
  }

  /** A template-card click, by its trimmed event key: pick an action, confirm, cancel, or ignore. */
  function CardStep(data: map<string, ConversationState>, ttl: int, userId: string, key: string,
                    now: int, exec: Executor, costMs: int): (e: Effect)
    ensures |e.replies| <= 1 && |e.dispatches| <= 1
    ensures e.dispatches != [] ==> key == EventKeyConfirm
  {
    if IsActionKey(key) then
      var action := ActionFromEventKey(key);
      Effect(SetStep(data, ttl, userId, ConversationState(StepAwaitingContainerName, action, "", 0), now),
             [ActionSelected(action)], [])
    else if key == EventKeyConfirm then ConfirmStep(data, userId, now, exec, costMs)
    else if key == EventKeyCancel then Effect(ClearStep(data, userId), [Cancelled], [])
    else Effect(data, [], [])
  }

  /** HandleMessage: the sender gate, then the dispatch on the message type. Replies go to the trimmed sender. */
  function MessageStep(allowed: set<string>, data: map<string, ConversationState>, ttl: int,
                       msg: IncomingMessage, now: int, exec: Executor, costMs: int): (e: Effect)
    ensures |e.replies| <= 1 && |e.dispatches| <= 1
    ensures TrimSpace(msg.fromUserName) !in allowed ==> e.data == data && e.dispatches == []
  {
    var userId := TrimSpace(msg.fromUserName);
    if userId == "" then Effect(data, [], [])
    else if userId !in allowed then Effect(data, [NoPermission], [])
    else if msg.msgType == "text" then TextStep(data, ttl, userId, TrimSpace(msg.content), now)
    else if msg.msgType == "event" then EventStep(data, ttl, userId, msg, now, exec, costMs)
    else Effect(data, [UnsupportedType], [])
  }

  // ---------------------------------------------------------------------
  // The router object

  class Router {
    const allowed: set<string>
    const state: StateStore
    /** Every message sent, in order. */
    var sent: seq<Outbound>
    /** Every call made to the Unraid dispatcher, in order. */
    var dispatched: seq<Dispatch>

    constructor (allowed: set<string>)
      ensures this.allowed == allowed && fresh(state)
      ensures state.ttl == StateTtl && state.data == map[]
      ensures sent == [] && dispatched == []
    {
      this.allowed := allowed;
      state := new StateStore(StateTtl);
      sent := [];
      dispatched := [];
    }

    method Send(userId: string, r: Reply)
      modifies this
      ensures sent == old(sent) + [Render(userId, r)] && dispatched == old(dispatched)
    {
      sent := sent + [Render(userId, r)];
    }

    method ExecAction(exec: Executor, action: Action, containerName: string) returns (err: Option<string>)
      modifies this
      ensures err == ExecResult(exec, action, containerName)
      ensures dispatched == old(dispatched) + ExecCalls(action, containerName) && sent == old(sent)
    {
      if action == ActionRestart || action == ActionStop || action == ActionForceUpdate {
        dispatched := dispatched + [Dispatch(action, containerName)];
        err := exec(action, containerName);
      } else {
        err := Some("未知动作: " + action);
      }
    }

    method HandleText(userId: string, content: string, now: int)
      modifies this, state
      ensures var e := TextStep(old(state.data), state.ttl, userId, content, now);
        && state.data == e.data && sent == old(sent) + RenderAll(userId, e.replies)
        && dispatched == old(dispatched) + e.dispatches
    {
      ghost var e := TextStep(state.data, state.ttl, userId, content, now);
      if content == "" {
        return;
      }
      if IsEntryKeyword(content) {
        state.Clear(userId);
        Send(userId, ActionMenu);
        return;
      }
      ghost var got := GetStep(state.data, userId, now);
      var st, ok := state.Get(userId, now);
      if !ok || st.step != StepAwaitingContainerName {
        assert e == Effect(got.data, [OpenMenuPrompt], []);
        Send(userId, OpenMenuPrompt);
        return;
      }
      var validated := Validation.ValidateContainerName(content);
      if validated.Err? {
        assert e == Effect(got.data, [InvalidName(validated.error)], []);
        Send(userId, InvalidName(validated.error));
        return;
      }
      st := st.(containerName := validated.value, step := StepAwaitingConfirm);
      assert e == Effect(SetStep(got.data, state.ttl, userId, st, now), [ConfirmPrompt(st.action, st.containerName)], []);
      state.Set(userId, st, now);
      Send(userId, ConfirmPrompt(st.action, st.containerName));
    }

    method HandleEvent(userId: string, msg: IncomingMessage, now: int, exec: Executor, costMs: int)
      modifies this, state
      ensures var e := EventStep(old(state.data), state.ttl, userId, msg, now, exec, costMs);
        && state.data == e.data && sent == old(sent) + RenderAll(userId, e.replies)
        && dispatched == old(dispatched) + e.dispatches
    {
      ghost var e := EventStep(state.data, state.ttl, userId, msg, now, exec, costMs);
      if msg.event == "enter_agent" {
        state.Clear(userId);
        Send(userId, ActionMenu);
        return;
      }
      if msg.event != "template_card_event" {
        return;
      }
      var key := TrimSpace(msg.eventKey);
      HandleCardEvent(userId, key, now, exec, costMs);
    }

    /** The template-card branch of HandleEvent: dispatch on the trimmed event key. */
    method HandleCardEvent(userId: string, key: string, now: int, exec: Executor, costMs: int)
      modifies this, state
      ensures var e := CardStep(old(state.data), state.ttl, userId, key, now, exec, costMs);
        && state.data == e.data && sent == old(sent) + RenderAll(userId, e.replies)
        && dispatched == old(dispatched) + e.dispatches
    {
      ghost var e := CardStep(state.data, state.ttl, userId, key, now, exec, costMs);
      if IsActionKey(key) {
        var action := ActionFromEventKey(key);
        assert e == Effect(SetStep(state.data, state.ttl, userId, ConversationState(StepAwaitingContainerName, action, "", 0), now),
                           [ActionSelected(action)], []);
        state.Set(userId, ConversationState(StepAwaitingContainerName, action, "", 0), now);
        Send(userId, ActionSelected(action));
      } else if key == EventKeyConfirm {
        assert e == ConfirmStep(state.data, userId, now, exec, costMs);
        HandleConfirm(userId, now, exec, costMs);
      } else if key == EventKeyCancel {
        assert e == Effect(ClearStep(state.data, userId), [Cancelled], []);
        state.Clear(userId);
        Send(userId, Cancelled);
      } else {
        assert e == Effect(state.data, [], []);
      }
    }

    method HandleConfirm(userId: string, now: int, exec: Executor, costMs: int)
      modifies this, state
      ensures var e := ConfirmStep(old(state.data), userId, now, exec, costMs);
        && state.data == e.data && sent == old(sent) + RenderAll(userId, e.replies)
        && dispatched == old(dispatched) + e.dispatches
    {
      ghost var got := GetStep(state.data, userId, now);
      var st, ok := state.Get(userId, now);
      if !ok || st.step != StepAwaitingConfirm {
        Send(userId, SessionExpired);
        return;
      }
      state.Clear(userId);
      var err := ExecAction(exec, st.action, st.containerName);
      Send(userId, ExecFinished(costMs, st.action, st.containerName, err));
    }

    method HandleMessage(msg: IncomingMessage, now: int, exec: Executor, costMs: int)
      modifies this, state
      ensures var e := MessageStep(allowed, old(state.data), state.ttl, msg, now, exec, costMs);
        && state.data == e.data && sent == old(sent) + RenderAll(TrimSpace(msg.fromUserName), e.replies)
        && dispatched == old(dispatched) + e.dispatches
    {
      ghost var e := MessageStep(allowed, state.data, state.ttl, msg, now, exec, costMs);
      var userId := TrimSpace(msg.fromUserName);
      if userId == "" {
        return;
      }
      if userId !in allowed {
        Send(userId, NoPermission);
        return;
      }
      if msg.msgType == "text" {
        assert e == TextStep(state.data, state.ttl, userId, TrimSpace(msg.content), now);
        HandleText(userId, TrimSpace(msg.content), now);
      } else if msg.msgType == "event" {
        assert e == EventStep(state.data, state.ttl, userId, msg, now, exec, costMs);
        HandleEvent(userId, msg, now, exec, costMs);
      } else {
        Send(userId, UnsupportedType);
      }
    }
  }
}
