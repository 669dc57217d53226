/**
 * Safety and liveness properties of the router's transition: who can be
 * answered, when the dispatcher can run, and what the state map holds.
 */
module RouterProperties {
  import opened Wrappers
  import opened Text
  import opened Message
  import opened State
  import opened Router
  import Validation

  /** An entry keyword is never empty. */
  lemma EntryKeywordNonEmpty(content: string)
    requires IsEntryKeyword(content)
    ensures content != ""
  {
    assert |ToLower(TrimSpace(content))| > 0;
  }

  /** handleText never dispatches and touches only the user's entry. */
  lemma TextStepFacts(data: map<string, ConversationState>, ttl: int, userId: string, content: string, now: int)
    ensures var e := TextStep(data, ttl, userId, content, now);
      && e.dispatches == []
      && (forall o :: o != userId ==> (o in e.data <==> o in data))
      && (forall o :: o != userId && o in data ==> e.data[o] == data[o])
  {
    var e := TextStep(data, ttl, userId, content, now);
    if content != "" && !IsEntryKeyword(content) {
      var got := GetStep(data, userId, now);
      if got.ok && got.state.step == StepAwaitingContainerName {
        var v := Validation.ValidateContainerName(content);
        if v.Ok? {
          var next := got.state.(containerName := v.value, step := StepAwaitingConfirm);
          assert e.data == SetStep(got.data, ttl, userId, next, now);
        } else {
          assert e == Effect(got.data, [InvalidName(v.error)], []);
        }
      } else {
        assert e == Effect(got.data, [OpenMenuPrompt], []);
      }
    }
  }

  /** handleEvent touches only the user's entry. */
  lemma EventStepFacts(data: map<string, ConversationState>, ttl: int, userId: string, msg: IncomingMessage,
                       now: int, exec: Executor, costMs: int)
    ensures var e := EventStep(data, ttl, userId, msg, now, exec, costMs);
      && (forall o :: o != userId ==> (o in e.data <==> o in data))
      && (forall o :: o != userId && o in data ==> e.data[o] == data[o])
  {
    var e := EventStep(data, ttl, userId, msg, now, exec, costMs);
    var key := TrimSpace(msg.eventKey);
    if msg.event == "enter_agent" {
      assert e.data == ClearStep(data, userId);
    } else if msg.event == "template_card_event" {
      if IsActionKey(key) {
        var st := ConversationState(StepAwaitingContainerName, ActionFromEventKey(key), "", 0);
        assert e.data == SetStep(data, ttl, userId, st, now);
      } else if key == EventKeyConfirm {
        var got := GetStep(data, userId, now);
        if got.ok && got.state.step == StepAwaitingConfirm {
          assert e.data == ClearStep(got.data, userId);
        } else {
          assert e.data == got.data;
        }
      } else if key == EventKeyCancel {
        assert e.data == ClearStep(data, userId);
      }
    }
  }

  /** handleEvent dispatches only on a confirm over a live AwaitingConfirm state, which it clears. */
  lemma EventStepDispatch(data: map<string, ConversationState>, ttl: int, userId: string, msg: IncomingMessage,
                          now: int, exec: Executor, costMs: int)
    ensures var e := EventStep(data, ttl, userId, msg, now, exec, costMs);
      e.dispatches != [] ==>
        && msg.event == "template_card_event"
        && TrimSpace(msg.eventKey) == EventKeyConfirm
        && userId in data && !Clock.After(now, data[userId].expiresAt)
        && data[userId].step == StepAwaitingConfirm
        && e.dispatches == [Dispatch(data[userId].action, data[userId].containerName)]
        && userId !in e.data
  {
    var e := EventStep(data, ttl, userId, msg, now, exec, costMs);
    var key := TrimSpace(msg.eventKey);
    if msg.event != "template_card_event" || IsActionKey(key) || key != EventKeyConfirm {
      assert e.dispatches == [];
    } else {
      assert e == ConfirmStep(data, userId, now, exec, costMs);
    }
  }

  /** A sender that is blank after trimming gets nothing and changes nothing. */
  lemma BlankSenderIgnored(allowed: set<string>, data: map<string, ConversationState>, ttl: int,
                           msg: IncomingMessage, now: int, exec: Executor, costMs: int)
    requires TrimSpace(msg.fromUserName) == ""
    ensures MessageStep(allowed, data, ttl, msg, now, exec, costMs) == Effect(data, [], [])
  {
  }

  /** A sender outside the allow-list gets only the fixed refusal; nothing else happens. */
  lemma UnlistedSenderRefused(allowed: set<string>, data: map<string, ConversationState>, ttl: int,
                              msg: IncomingMessage, now: int, exec: Executor, costMs: int)
    requires TrimSpace(msg.fromUserName) != "" && TrimSpace(msg.fromUserName) !in allowed
    ensures MessageStep(allowed, data, ttl, msg, now, exec, costMs)
         == Effect(data, [NoPermission], [])
  {
  }

  /** Handling one user's message leaves every other user's conversation as it was. */
  lemma OtherUsersUntouched(allowed: set<string>, data: map<string, ConversationState>, ttl: int,
                            msg: IncomingMessage, now: int, exec: Executor, costMs: int, other: string)
    requires other != TrimSpace(msg.fromUserName)
    ensures var e := MessageStep(allowed, data, ttl, msg, now, exec, costMs);
      (other in e.data <==> other in data) && (other in data ==> e.data[other] == data[other])
  {
    var u := TrimSpace(msg.fromUserName);
    if u != "" && u in allowed {
      if msg.msgType == "text" {
        TextStepFacts(data, ttl, u, TrimSpace(msg.content), now);
      } else if msg.msgType == "event" {
        EventStepFacts(data, ttl, u, msg, now, exec, costMs);
      }
    }
  }

  /** An entry keyword resets the sender's conversation and sends the action card. */
  lemma EntryKeywordOpensMenu(allowed: set<string>, data: map<string, ConversationState>, ttl: int,
                              msg: IncomingMessage, now: int, exec: Executor, costMs: int)
    requires TrimSpace(msg.fromUserName) in allowed && TrimSpace(msg.fromUserName) != ""
    requires msg.msgType == "text" && IsEntryKeyword(TrimSpace(msg.content))
    ensures var u := TrimSpace(msg.fromUserName);
      MessageStep(allowed, data, ttl, msg, now, exec, costMs)
        == Effect(data - {u}, [ActionMenu], [])
  {
    EntryKeywordNonEmpty(TrimSpace(msg.content));
  }

  /** Entering the agent resets the conversation and sends the action card. */
  lemma EnterAgentOpensMenu(allowed: set<string>, data: map<string, ConversationState>, ttl: int,
                            msg: IncomingMessage, now: int, exec: Executor, costMs: int)
    requires TrimSpace(msg.fromUserName) in allowed && TrimSpace(msg.fromUserName) != ""
    requires msg.msgType == "event" && msg.event == "enter_agent"
    ensures var u := TrimSpace(msg.fromUserName);
      MessageStep(allowed, data, ttl, msg, now, exec, costMs)
        == Effect(data - {u}, [ActionMenu], [])
  {
  }

  /** Pressing an action button stores (AwaitingContainerName, that action) for the TTL. */
  lemma ActionKeyAwaitsName(allowed: set<string>, data: map<string, ConversationState>, ttl: int,
                            msg: IncomingMessage, now: int, exec: Executor, costMs: int)
    requires TrimSpace(msg.fromUserName) in allowed && TrimSpace(msg.fromUserName) != ""
    requires msg.msgType == "event" && msg.event == "template_card_event"
    requires IsActionKey(TrimSpace(msg.eventKey))
    ensures var u := TrimSpace(msg.fromUserName);
      var e := MessageStep(allowed, data, ttl, msg, now, exec, costMs);
      && e.data == data[u := ConversationState(StepAwaitingContainerName, ActionFromEventKey(TrimSpace(msg.eventKey)), "", now + ttl)]
      && e.dispatches == []
  {
  }

  /** Text outside the naming step gets the menu prompt; only an expired entry may be forgotten. */
  lemma TextOutsideNamingPrompts(allowed: set<string>, data: map<string, ConversationState>, ttl: int,
                                 msg: IncomingMessage, now: int, exec: Executor, costMs: int)
    requires TrimSpace(msg.fromUserName) in allowed && TrimSpace(msg.fromUserName) != ""
    requires msg.msgType == "text" && TrimSpace(msg.content) != "" && !IsEntryKeyword(TrimSpace(msg.content))
    requires var g := GetStep(data, TrimSpace(msg.fromUserName), now);
      !g.ok || g.state.step != StepAwaitingContainerName
    ensures var u := TrimSpace(msg.fromUserName);
      MessageStep(allowed, data, ttl, msg, now, exec, costMs)
        == Effect(GetStep(data, u, now).data, [OpenMenuPrompt], [])
  {
  }

  /** While awaiting a name, an invalid one is refused with the validator's reason and the state stays. */
  lemma InvalidNameKeepsState(allowed: set<string>, data: map<string, ConversationState>, ttl: int,
                              msg: IncomingMessage, now: int, exec: Executor, costMs: int)
    requires TrimSpace(msg.fromUserName) in allowed && TrimSpace(msg.fromUserName) != ""
    requires msg.msgType == "text" && TrimSpace(msg.content) != "" && !IsEntryKeyword(TrimSpace(msg.content))
    requires var g := GetStep(data, TrimSpace(msg.fromUserName), now);
      g.ok && g.state.step == StepAwaitingContainerName
    requires Validation.ValidateContainerName(TrimSpace(msg.content)).Err?
    ensures var u := TrimSpace(msg.fromUserName);
      MessageStep(allowed, data, ttl, msg, now, exec, costMs)
        == Effect(data, [InvalidName(Validation.ValidateContainerName(TrimSpace(msg.content)).error)], [])
  {
  }

  /** While awaiting a name, a valid one is stored and the confirmation card is sent. */
  lemma ValidNameAwaitsConfirm(allowed: set<string>, data: map<string, ConversationState>, ttl: int,
                               msg: IncomingMessage, now: int, exec: Executor, costMs: int)
    requires TrimSpace(msg.fromUserName) in allowed && TrimSpace(msg.fromUserName) != ""
    requires msg.msgType == "text" && TrimSpace(msg.content) != "" && !IsEntryKeyword(TrimSpace(msg.content))
    requires var g := GetStep(data, TrimSpace(msg.fromUserName), now);
      g.ok && g.state.step == StepAwaitingContainerName
    requires Validation.ValidateContainerName(TrimSpace(msg.content)).Ok?
    ensures var u := TrimSpace(msg.fromUserName);
      var name := TrimSpace(TrimSpace(msg.content));
      var e := MessageStep(allowed, data, ttl, msg, now, exec, costMs);
      && e.data == data[u := ConversationState(StepAwaitingConfirm, data[u].action, name, now + ttl)]
      && e.replies == [ConfirmPrompt(data[u].action, name)]
      && e.dispatches == []
  {
  }

  /** Confirm without a live AwaitingConfirm state gets "会话已过期" and never dispatches. */
  lemma ConfirmWithoutPendingNeverDispatches(allowed: set<string>, data: map<string, ConversationState>, ttl: int,
                                             msg: IncomingMessage, now: int, exec: Executor, costMs: int)
    requires TrimSpace(msg.fromUserName) in allowed && TrimSpace(msg.fromUserName) != ""
    requires msg.msgType == "event" && msg.event == "template_card_event"
    requires TrimSpace(msg.eventKey) == EventKeyConfirm
    requires var g := GetStep(data, TrimSpace(msg.fromUserName), now);
      !g.ok || g.state.step != StepAwaitingConfirm
    ensures var u := TrimSpace(msg.fromUserName);
      MessageStep(allowed, data, ttl, msg, now, exec, costMs)
        == Effect(GetStep(data, u, now).data, [SessionExpired], [])
  {
  }

  /**
   * The dispatcher runs only on a confirm from an allowed user whose live
   * state was AwaitingConfirm; it runs once, on the stored action and name,
   * and the state is already gone afterwards.
   */
  lemma DispatchOnlyOnPendingConfirm(allowed: set<string>, data: map<string, ConversationState>, ttl: int,
                                     msg: IncomingMessage, now: int, exec: Executor, costMs: int)
    ensures var u := TrimSpace(msg.fromUserName);
      var e := MessageStep(allowed, data, ttl, msg, now, exec, costMs);
      e.dispatches != [] ==>
      && u != "" && u in allowed
      && msg.msgType == "event" && msg.event == "template_card_event"
      && TrimSpace(msg.eventKey) == EventKeyConfirm
      && u in data && !Clock.After(now, data[u].expiresAt) && data[u].step == StepAwaitingConfirm
      && e.dispatches == [Dispatch(data[u].action, data[u].containerName)]
      && u !in e.data
  {
    var u := TrimSpace(msg.fromUserName);
    if u != "" && u in allowed {
      if msg.msgType == "text" {
        TextStepFacts(data, ttl, u, TrimSpace(msg.content), now);
      } else if msg.msgType == "event" {
        EventStepDispatch(data, ttl, u, msg, now, exec, costMs);
      }
    }
  }

  /** Cancel forgets the conversation unconditionally. */
  lemma CancelClears(allowed: set<string>, data: map<string, ConversationState>, ttl: int,
                     msg: IncomingMessage, now: int, exec: Executor, costMs: int)
    requires TrimSpace(msg.fromUserName) in allowed && TrimSpace(msg.fromUserName) != ""
    requires msg.msgType == "event" && msg.event == "template_card_event"
    requires TrimSpace(msg.eventKey) == EventKeyCancel
    ensures var u := TrimSpace(msg.fromUserName);
      MessageStep(allowed, data, ttl, msg, now, exec, costMs)
        == Effect(data - {u}, [Cancelled], [])
  {
  }

  /** Other events, and card events with unknown keys, do nothing at all. */
  lemma IgnoredEvents(allowed: set<string>, data: map<string, ConversationState>, ttl: int,
                      msg: IncomingMessage, now: int, exec: Executor, costMs: int)
    requires TrimSpace(msg.fromUserName) in allowed && TrimSpace(msg.fromUserName) != ""
    requires msg.msgType == "event" && msg.event != "enter_agent"
    requires msg.event == "template_card_event" ==>
      !IsActionKey(TrimSpace(msg.eventKey)) && TrimSpace(msg.eventKey) != EventKeyConfirm
      && TrimSpace(msg.eventKey) != EventKeyCancel
    ensures MessageStep(allowed, data, ttl, msg, now, exec, costMs) == Effect(data, [], [])
  {
  }

  /** Message types other than text and event get the "暂不支持" reply. */
  lemma UnsupportedTypeReply(allowed: set<string>, data: map<string, ConversationState>, ttl: int,
                             msg: IncomingMessage, now: int, exec: Executor, costMs: int)
    requires TrimSpace(msg.fromUserName) in allowed && TrimSpace(msg.fromUserName) != ""
    requires msg.msgType != "text" && msg.msgType != "event"
    ensures MessageStep(allowed, data, ttl, msg, now, exec, costMs)
         == Effect(data, [UnsupportedType], [])
  {
  }

  // ---------------------------------------------------------------------
  // An invariant of the state map

  /**
   * Every stored conversation is in one of the two steps with a known
   * action, and one awaiting confirmation holds a valid container name.
   */
  predicate WellFormed(data: map<string, ConversationState>) {
    forall u :: u in data ==> GoodState(data[u])
  }

  predicate GoodState(st: ConversationState) {
    && KnownAction(st.action)
    && (st.step == StepAwaitingContainerName || st.step == StepAwaitingConfirm)
    && (st.step == StepAwaitingConfirm ==> Validation.IsContainerName(st.containerName))
  }

  lemma WellFormedRemove(data: map<string, ConversationState>, userId: string)
    requires WellFormed(data)
    ensures WellFormed(data - {userId})
  {
  }

  lemma WellFormedSet(data: map<string, ConversationState>, ttl: int, userId: string,
                      st: ConversationState, now: int)
    requires WellFormed(data) && GoodState(st)
    ensures WellFormed(SetStep(data, ttl, userId, st, now))
  {
  }

  lemma {:induction false} TextStepPreservesWellFormed(data: map<string, ConversationState>, ttl: int,
                                                       userId: string, content: string, now: int)
    requires WellFormed(data)
    ensures WellFormed(TextStep(data, ttl, userId, content, now).data)
  {
    var e := TextStep(data, ttl, userId, content, now);
    if content == "" {
      assert e.data == data;
    } else if IsEntryKeyword(content) {
      assert e.data == ClearStep(data, userId);
      WellFormedRemove(data, userId);
    } else {
      var got := GetStep(data, userId, now);
      WellFormedRemove(data, userId);
      assert WellFormed(got.data);
      if got.ok && got.state.step == StepAwaitingContainerName {
        var v := Validation.ValidateContainerName(content);
        if v.Ok? {
          var next := got.state.(containerName := v.value, step := StepAwaitingConfirm);
          assert GoodState(next);
          assert e.data == SetStep(got.data, ttl, userId, next, now);
          WellFormedSet(got.data, ttl, userId, next, now);
        } else {
          assert e.data == got.data;
        }
      } else {
        assert e.data == got.data;
      }
    }
  }

  lemma EventStepPreservesWellFormed(data: map<string, ConversationState>, ttl: int, userId: string,
                                     msg: IncomingMessage, now: int, exec: Executor, costMs: int)
    requires WellFormed(data)
    ensures WellFormed(EventStep(data, ttl, userId, msg, now, exec, costMs).data)
  {
    var e := EventStep(data, ttl, userId, msg, now, exec, costMs);
    var key := TrimSpace(msg.eventKey);
    WellFormedRemove(data, userId);
    if msg.event == "enter_agent" {
      assert e.data == ClearStep(data, userId);
    } else if msg.event == "template_card_event" {
      if IsActionKey(key) {
        var st := ConversationState(StepAwaitingContainerName, ActionFromEventKey(key), "", 0);
        assert e.data == SetStep(data, ttl, userId, st, now);
        WellFormedSet(data, ttl, userId, st, now);
      } else if key == EventKeyConfirm {
        var got := GetStep(data, userId, now);
        if got.ok && got.state.step == StepAwaitingConfirm {
          assert e.data == ClearStep(got.data, userId);
        } else {
          assert e.data == got.data;
        }
      } else if key == EventKeyCancel {
        assert e.data == ClearStep(data, userId);
      } else {
        assert e.data == data;
      }
    } else {
      assert e.data == data;
    }
  }

  /** Every transition keeps the state map well-formed. */
  lemma {:induction false} StepPreservesWellFormed(allowed: set<string>, data: map<string, ConversationState>, ttl: int,
                                                   msg: IncomingMessage, now: int, exec: Executor, costMs: int)
    requires WellFormed(data)
    ensures WellFormed(MessageStep(allowed, data, ttl, msg, now, exec, costMs).data)
  {
    var u := TrimSpace(msg.fromUserName);
    if u != "" && u in allowed {
      if msg.msgType == "text" {
        TextStepPreservesWellFormed(data, ttl, u, TrimSpace(msg.content), now);
      } else if msg.msgType == "event" {
        EventStepPreservesWellFormed(data, ttl, u, msg, now, exec, costMs);
      }
    }
  }

  /** From a well-formed map, every dispatch is a known action on a valid container name. */
  lemma DispatchedRequestsAreValid(allowed: set<string>, data: map<string, ConversationState>, ttl: int,
                                   msg: IncomingMessage, now: int, exec: Executor, costMs: int)
    requires WellFormed(data)
    ensures forall d :: d in MessageStep(allowed, data, ttl, msg, now, exec, costMs).dispatches ==>
      KnownAction(d.action) && Validation.IsContainerName(d.containerName)
  {
    DispatchOnlyOnPendingConfirm(allowed, data, ttl, msg, now, exec, costMs);
  }

  /** A confirm on a live pending state clears it and runs execAction on the stored action and name. */
  lemma ConfirmRunsStoredAction(allowed: set<string>, data: map<string, ConversationState>, ttl: int,
                                msg: IncomingMessage, now: int, exec: Executor, costMs: int)
    requires TrimSpace(msg.fromUserName) in allowed && TrimSpace(msg.fromUserName) != ""
    requires msg.msgType == "event" && msg.event == "template_card_event"
    requires TrimSpace(msg.eventKey) == EventKeyConfirm
    requires var g := GetStep(data, TrimSpace(msg.fromUserName), now);
      g.ok && g.state.step == StepAwaitingConfirm
    ensures var u := TrimSpace(msg.fromUserName);
      var e := MessageStep(allowed, data, ttl, msg, now, exec, costMs);
      e.dispatches == ExecCalls(data[u].action, data[u].containerName) && e.data == data - {u}
      && e.replies == [ExecFinished(costMs, data[u].action, data[u].containerName,
                                    ExecResult(exec, data[u].action, data[u].containerName))]
  {
  }

  /** From a well-formed map, a confirm on a live pending state always reaches the dispatcher. */
  lemma PendingConfirmDispatches(allowed: set<string>, data: map<string, ConversationState>, ttl: int,
                                 msg: IncomingMessage, now: int, exec: Executor, costMs: int)
    requires WellFormed(data)
    requires TrimSpace(msg.fromUserName) in allowed && TrimSpace(msg.fromUserName) != ""
    requires msg.msgType == "event" && msg.event == "template_card_event"
    requires TrimSpace(msg.eventKey) == EventKeyConfirm
    requires var g := GetStep(data, TrimSpace(msg.fromUserName), now);
      g.ok && g.state.step == StepAwaitingConfirm
    ensures var u := TrimSpace(msg.fromUserName);
      var e := MessageStep(allowed, data, ttl, msg, now, exec, costMs);
      e.dispatches == [Dispatch(data[u].action, data[u].containerName)] && u !in e.data
  {
    ConfirmRunsStoredAction(allowed, data, ttl, msg, now, exec, costMs);
  }

  // ---------------------------------------------------------------------
  // Sequences of deliveries

  /** One delivered message, with the instant it is handled and the reported elapsed time. */
  datatype Delivery = Delivery(msg: IncomingMessage, now: int, costMs: int)

  /** Handling the deliveries in order: the final map, and all replies and dispatches in order. */
  function Run(allowed: set<string>, data: map<string, ConversationState>, ttl: int,
               deliveries: seq<Delivery>, exec: Executor): Effect
    decreases |deliveries|
  {
    if deliveries == [] then Effect(data, [], [])
    else
      var d := deliveries[0];
      var first := MessageStep(allowed, data, ttl, d.msg, d.now, exec, d.costMs);
      var rest := Run(allowed, first.data, ttl, deliveries[1..], exec);
      Effect(rest.data, first.replies + rest.replies, first.dispatches + rest.dispatches)
  }

  /**
   * Over any sequence of deliveries from a well-formed map (the empty map
   * of a new router in particular), the map stays well-formed and every
   * dispatch is a known action on a valid container name.
   */
  lemma {:induction false} RunKeepsDispatchesValid(allowed: set<string>, data: map<string, ConversationState>, ttl: int,
                                                   deliveries: seq<Delivery>, exec: Executor)
    requires WellFormed(data)
    ensures WellFormed(Run(allowed, data, ttl, deliveries, exec).data)
    ensures forall d :: d in Run(allowed, data, ttl, deliveries, exec).dispatches ==>
      KnownAction(d.action) && Validation.IsContainerName(d.containerName)
    decreases |deliveries|
  {
    if deliveries != [] {
      var d := deliveries[0];
      var first := MessageStep(allowed, data, ttl, d.msg, d.now, exec, d.costMs);
      StepPreservesWellFormed(allowed, data, ttl, d.msg, d.now, exec, d.costMs);
      DispatchedRequestsAreValid(allowed, data, ttl, d.msg, d.now, exec, d.costMs);
      RunKeepsDispatchesValid(allowed, first.data, ttl, deliveries[1..], exec);
    }
  }

  /** Deliveries from users outside the allow-list never reach the dispatcher. */
  lemma {:induction false} UnlistedUsersNeverDispatch(allowed: set<string>, data: map<string, ConversationState>, ttl: int,
                                                      deliveries: seq<Delivery>, exec: Executor)
    requires forall i :: 0 <= i < |deliveries| ==> TrimSpace(deliveries[i].msg.fromUserName) !in allowed
    ensures Run(allowed, data, ttl, deliveries, exec).dispatches == []
    ensures Run(allowed, data, ttl, deliveries, exec).data == data
    decreases |deliveries|
  {
    if deliveries != [] {
      var d := deliveries[0];
      if TrimSpace(d.msg.fromUserName) == "" {
        BlankSenderIgnored(allowed, data, ttl, d.msg, d.now, exec, d.costMs);
      } else {
        UnlistedSenderRefused(allowed, data, ttl, d.msg, d.now, exec, d.costMs);
      }
      UnlistedUsersNeverDispatch(allowed, data, ttl, deliveries[1..], exec);
    }
  }

  // ---------------------------------------------------------------------
  // A whole conversation

  /** The message was sent by the given user (after trimming). */
  predicate FromUser(msg: IncomingMessage, user: string) {
    TrimSpace(msg.fromUserName) == user
  }

  /** The message is a press of the template-card button with the given key. */
  predicate IsCardPress(msg: IncomingMessage, key: string) {
    msg.msgType == "event" && msg.event == "template_card_event" && TrimSpace(msg.eventKey) == key
  }

  /** The message is a text whose trimmed content is the given string. */
  predicate IsTextOf(msg: IncomingMessage, content: string) {
    msg.msgType == "text" && TrimSpace(msg.content) == content
  }

  /** Writing a key twice keeps only the second value. */
  lemma UpdateTwice<K, V>(m: map<K, V>, k: K, v: V, w: V)
    ensures m[k := v][k := w] == m[k := w]
  {
  }

  /** Writing a key and then deleting it is the same as deleting it. */
  lemma UpdateThenRemove<K, V>(m: map<K, V>, k: K, v: V)
    ensures m[k := v] - {k} == m - {k}
  {
  }

  /** Action button then a valid name: the conversation awaits confirmation of that action on that name. */
  lemma PickThenName(allowed: set<string>, data: map<string, ConversationState>, ttl: int, user: string,
                     m1: IncomingMessage, key: string, t1: int, m2: IncomingMessage, name: string, t2: int,
                     exec: Executor, costMs: int)
    requires user in allowed && user != "" && FromUser(m1, user) && FromUser(m2, user)
    requires IsCardPress(m1, key) && IsActionKey(key)
    requires IsTextOf(m2, name) && Validation.IsContainerName(name) && !IsEntryKeyword(name)
    requires t1 <= t2 <= t1 + ttl
    ensures
      var a := ActionFromEventKey(key);
      var d1 := data[user := ConversationState(StepAwaitingContainerName, a, "", t1 + ttl)];
      var e1 := MessageStep(allowed, data, ttl, m1, t1, exec, costMs);
      var e2 := MessageStep(allowed, d1, ttl, m2, t2, exec, costMs);
      && e1.data == d1 && e1.dispatches == []
      && e2.data == data[user := ConversationState(StepAwaitingConfirm, a, name, t2 + ttl)]
      && e2.dispatches == []
  {
    var a := ActionFromEventKey(key);
    var d1 := data[user := ConversationState(StepAwaitingContainerName, a, "", t1 + ttl)];
    var e1 := MessageStep(allowed, data, ttl, m1, t1, exec, costMs);
    assert e1.data == d1 && e1.dispatches == [] by {
      ActionKeyAwaitsName(allowed, data, ttl, m1, t1, exec, costMs);
    }
    var e2 := MessageStep(allowed, d1, ttl, m2, t2, exec, costMs);
    var st := ConversationState(StepAwaitingConfirm, a, name, t2 + ttl);
    assert e2.data == data[user := st] && e2.dispatches == [] by {
      Validation.ContainerNameIsTrimmed(name);
      assert GetStep(d1, user, t2).ok;
      ValidNameAwaitsConfirm(allowed, d1, ttl, m2, t2, exec, costMs);
      UpdateTwice(data, user, d1[user], st);
    }
  }

  /** A confirm button press from an allowed user is handled by the confirm step alone. */
  lemma ConfirmPressIsConfirmStep(allowed: set<string>, data: map<string, ConversationState>, ttl: int,
                                  user: string, msg: IncomingMessage, now: int, exec: Executor, costMs: int)
    requires user in allowed && user != "" && FromUser(msg, user) && IsCardPress(msg, EventKeyConfirm)
    ensures MessageStep(allowed, data, ttl, msg, now, exec, costMs) == ConfirmStep(data, user, now, exec, costMs)
  {
    assert !IsActionKey(EventKeyConfirm);
  }

  /** Confirming a pending known action dispatches it once and ends the conversation. */
  lemma ConfirmEndsConversation(allowed: set<string>, data: map<string, ConversationState>, ttl: int,
                                user: string, a: Action, name: string, expiresAt: int,
                                msg: IncomingMessage, now: int, exec: Executor, costMs: int)
    requires user in allowed && user != "" && FromUser(msg, user) && IsCardPress(msg, EventKeyConfirm)
    requires KnownAction(a) && now <= expiresAt
    ensures
      var d := data[user := ConversationState(StepAwaitingConfirm, a, name, expiresAt)];
      var e := MessageStep(allowed, d, ttl, msg, now, exec, costMs);
      e.data == data - {user} && e.dispatches == [Dispatch(a, name)]
  {
    var d := data[user := ConversationState(StepAwaitingConfirm, a, name, expiresAt)];
    ConfirmPressIsConfirmStep(allowed, d, ttl, user, msg, now, exec, costMs);
    var e := ConfirmStep(d, user, now, exec, costMs);
    assert e.data == d - {user} && e.dispatches == ExecCalls(a, name);
    UpdateThenRemove(data, user, d[user]);
  }

  /** Once the conversation has ended, a repeated confirm only gets "会话已过期". */
  lemma ConfirmAfterEndExpired(allowed: set<string>, data: map<string, ConversationState>, ttl: int,
                               user: string, msg: IncomingMessage, now: int, exec: Executor, costMs: int)
    requires user in allowed && user != "" && user !in data
    requires FromUser(msg, user) && IsCardPress(msg, EventKeyConfirm)
    ensures MessageStep(allowed, data, ttl, msg, now, exec, costMs) == Effect(data, [SessionExpired], [])
  {
    ConfirmPressIsConfirmStep(allowed, data, ttl, user, msg, now, exec, costMs);
  }
}
