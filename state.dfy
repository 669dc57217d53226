/**
 * The conversation layer's vocabulary and its per-user state store: the
 * steps and actions of the chat flow, the event-key to action mapping, the
 * Chinese display names, and a TTL map from user id to conversation state
 * whose Get forgets expired entries.
 */
module State {
  import opened Clock
  import Message

  /** Steps and actions are Go string types; the empty string is their zero value. */
  type Step = string
  type Action = string

  const StepAwaitingContainerName: Step := "awaiting_container_name"
  const StepAwaitingConfirm: Step := "awaiting_confirm"

  const ActionRestart: Action := "restart"
  const ActionStop: Action := "stop"
  const ActionForceUpdate: Action := "force_update"

  const UnknownActionName: string := "未知动作"

  predicate KnownAction(a: Action) {
    a == ActionRestart || a == ActionStop || a == ActionForceUpdate
  }

  predicate IsActionKey(key: string) {
    key == Message.EventKeyUnraidRestart || key == Message.EventKeyUnraidStop
    || key == Message.EventKeyUnraidForceUpdate
  }

  /** ActionFromEventKey: the three action keys name their action; every other key gives "". */
  function ActionFromEventKey(key: string): (a: Action)
    ensures IsActionKey(key) <==> a != ""
    ensures a == "" || KnownAction(a)
  {
    match key
    case "unraid.action.restart" => ActionRestart
    case "unraid.action.stop" => ActionStop
    case "unraid.action.force_update" => ActionForceUpdate
    case _ => ""
  }

  /** The event key a button carries for each known action. */
  function EventKeyOf(a: Action): string
    requires KnownAction(a)
  {
    if a == ActionRestart then Message.EventKeyUnraidRestart
    else if a == ActionStop then Message.EventKeyUnraidStop
    else Message.EventKeyUnraidForceUpdate
  }

  /** The action card's keys and ActionFromEventKey agree: each key maps back to its action. */
  lemma ActionKeysRoundTrip(a: Action)
    requires KnownAction(a)
    ensures ActionFromEventKey(EventKeyOf(a)) == a
    ensures IsActionKey(EventKeyOf(a))
  {
  }

  /** Every key ActionFromEventKey recognises is a button of the action card. */
  lemma RecognisedKeysAreCardKeys(key: string)
    requires ActionFromEventKey(key) != ""
    ensures key in Message.ButtonKeys(Message.NewUnraidActionCard()).value
  {
  }

  /** Action.DisplayName: total, with a fallback label for anything unknown. */
  function DisplayName(a: Action): (n: string)
    ensures KnownAction(a) <==> n != UnknownActionName
  {
    if a == ActionRestart then "重启"
    else if a == ActionStop then "停止"
    else if a == ActionForceUpdate then "强制更新"
    else UnknownActionName
  }

  /** Distinct known actions are shown under distinct names. */
  lemma DisplayNameInjective(a: Action, b: Action)
    requires KnownAction(a) && KnownAction(b) && DisplayName(a) == DisplayName(b)
    ensures a == b
  {
  }

  datatype ConversationState = ConversationState(
    step: Step,
    action: Action,
    containerName: string,
    expiresAt: int)

  /** Go's zero ConversationState (the zero time is written as instant 0). */
  const ZeroState: ConversationState := ConversationState("", "", "", 0)

  /** What a Get answers and the map it leaves behind. */
  datatype Lookup = Lookup(state: ConversationState, ok: bool, data: map<string, ConversationState>)

  /** Get: a live entry is returned; an expired one is deleted; a missing one changes nothing. */
  function GetStep(data: map<string, ConversationState>, userId: string, now: int): (r: Lookup)
    ensures r.ok ==> userId in data && r.state == data[userId] && r.data == data
    ensures r.ok <==> userId in data && !After(now, data[userId].expiresAt)
    ensures !r.ok ==> r.state == ZeroState && r.data == data - {userId}
  {
    if userId !in data then Lookup(ZeroState, false, data)
    else if After(now, data[userId].expiresAt) then Lookup(ZeroState, false, data - {userId})
    else Lookup(data[userId], true, data)
  }

  /** Set: store the state with its expiry replaced by now + ttl. */
  function SetStep(data: map<string, ConversationState>, ttl: int, userId: string,
                   state: ConversationState, now: int): (r: map<string, ConversationState>)
    ensures r.Keys == data.Keys + {userId}
    ensures r[userId] == state.(expiresAt := now + ttl)
    ensures forall u :: u in data && u != userId ==> r[u] == data[u]
  {
    data[userId := state.(expiresAt := now + ttl)]
  }

  /** Clear: forget the user's state. */
  function ClearStep(data: map<string, ConversationState>, userId: string): (r: map<string, ConversationState>)
    ensures r.Keys == data.Keys - {userId}
    ensures forall u :: u in r ==> r[u] == data[u]
  {
    data - {userId}
  }

  class StateStore {
    const ttl: int
    var data: map<string, ConversationState>

    constructor (ttl: int)
      ensures this.ttl == ttl && data == map[]
    {
      this.ttl := ttl;
      data := map[];
    }

    method Get(userId: string, now: int) returns (state: ConversationState, ok: bool)
      modifies this
      ensures Lookup(state, ok, data) == GetStep(old(data), userId, now)
    {
      if userId !in data {
        return ZeroState, false;
      }
      state := data[userId];
      if After(now, state.expiresAt) {
        data := data - {userId};
        return ZeroState, false;
      }
      ok := true;
    }

    method Set(userId: string, state: ConversationState, now: int)
      modifies this
      ensures data == SetStep(old(data), ttl, userId, state, now)
    {
      var stamped := state.(expiresAt := now + ttl);
      data := data[userId := stamped];
    }

    method Clear(userId: string)
      modifies this
      ensures data == ClearStep(old(data), userId)
    {
      data := data - {userId};
    }
  }

  // ---------------------------------------------------------------------
  // Properties of the store

  /** Within the TTL after a Set, Get returns what was stored (with the store's expiry). */
  lemma GetAfterSet(data: map<string, ConversationState>, ttl: int, userId: string,
                    state: ConversationState, setAt: int, now: int)
    requires setAt <= now <= setAt + ttl
    ensures var r := GetStep(SetStep(data, ttl, userId, state, setAt), userId, now);
      && r.ok
      && r.state.step == state.step && r.state.action == state.action
      && r.state.containerName == state.containerName
      && r.state.expiresAt == setAt + ttl
  {
  }

  /** Once the TTL has passed, Get reports nothing and the entry is gone. */
  lemma GetAfterExpiry(data: map<string, ConversationState>, ttl: int, userId: string,
                       state: ConversationState, setAt: int, now: int)
    requires now > setAt + ttl
    ensures var r := GetStep(SetStep(data, ttl, userId, state, setAt), userId, now);
      r.state == ZeroState && !r.ok && userId !in r.data
  {
  }

  /** Whatever expiry the caller supplies, Set replaces it. */
  lemma SetIgnoresCallerExpiry(data: map<string, ConversationState>, ttl: int, userId: string,
                               a: ConversationState, b: ConversationState, now: int)
    requires a.(expiresAt := 0) == b.(expiresAt := 0)
    ensures SetStep(data, ttl, userId, a, now) == SetStep(data, ttl, userId, b, now)
  {
  }

  /** Get on a missing user changes nothing. */
  lemma GetMissingChangesNothing(data: map<string, ConversationState>, userId: string, now: int)
    requires userId !in data
    ensures GetStep(data, userId, now) == Lookup(ZeroState, false, data)
  {
  }

  /** Get, Set and Clear on one user leave every other user's entry as it was. */
  lemma OtherUsersUntouched(data: map<string, ConversationState>, ttl: int, userId: string,
                            other: string, state: ConversationState, now: int)
    requires other != userId
    ensures other in GetStep(data, userId, now).data <==> other in data
    ensures other in SetStep(data, ttl, userId, state, now) <==> other in data
    ensures other in ClearStep(data, userId) <==> other in data
    ensures other in data ==>
      && GetStep(data, userId, now).data[other] == data[other]
      && SetStep(data, ttl, userId, state, now)[other] == data[other]
      && ClearStep(data, userId)[other] == data[other]
  {
  }
}
