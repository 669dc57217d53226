/**
 * WeCom message records: the decrypted callback message, the event keys the
 * cards carry, the two button cards, and the outbound messages the router
 * sends. A card is a JSON-like value, as Go's map[string]interface{} is.
 */
module Message {
  import opened Wrappers

  /** A decrypted callback message. MsgID and ResponseCode are read by the callback code. */
  datatype IncomingMessage = IncomingMessage(
    toUserName: string,
    fromUserName: string,
    msgType: string,
    content: string,
    event: string,
    eventKey: string,
    taskId: string,
    cardType: string,
    msgId: string,
    responseCode: string)

  const EventKeyUnraidRestart: string := "unraid.action.restart"
  const EventKeyUnraidStop: string := "unraid.action.stop"
  const EventKeyUnraidForceUpdate: string := "unraid.action.force_update"
  const EventKeyConfirm: string := "core.action.confirm"
  const EventKeyCancel: string := "core.action.cancel"

  function EventKeys(): seq<string> {
    [EventKeyUnraidRestart, EventKeyUnraidStop, EventKeyUnraidForceUpdate, EventKeyConfirm, EventKeyCancel]
  }

  /** The five event keys are pairwise distinct, so a button press is never ambiguous. */
  lemma EventKeysDistinct()
    ensures forall i, j :: 0 <= i < j < |EventKeys()| ==> EventKeys()[i] != EventKeys()[j]
  {
  }

  /** A JSON-like value: the payload shape of a template card. */
  datatype Value =
    | Str(s: string)
    | Int(i: int)
    | Obj(fields: map<string, Value>)
    | List(items: seq<Value>)

  type TemplateCard = map<string, Value>

  /** Outbound messages, recorded instead of being sent over the network. */
  datatype Outbound =
    | Text(toUser: string, content: string)
    | Card(toUser: string, card: TemplateCard)

  function Button(text: string, style: int, key: string): Value {
    Obj(map["text" := Str(text), "style" := Int(style), "key" := Str(key)])
  }

  function ButtonCard(title: string, desc: string, buttons: seq<Value>): TemplateCard {
    map[
      "card_type" := Str("button_interaction"),
      "main_title" := Obj(map["title" := Str(title), "desc" := Str(desc)]),
      "button_list" := List(buttons)]
  }

  // ---------------------------------------------------------------------
  // Readers: what a client of the card sees in it

  /** The "key" strings of a button list, in order; None if a button has no string key. */
  function KeysOf(buttons: seq<Value>): (r: Option<seq<string>>)
    ensures r.Some? ==> |r.value| == |buttons|
    decreases |buttons|
  {
    if buttons == [] then Some([])
    else if buttons[0].Obj? && "key" in buttons[0].fields && buttons[0].fields["key"].Str? then
      match KeysOf(buttons[1..])
      case None => None
      case Some(rest) => Some([buttons[0].fields["key"].s] + rest)
    else None
  }

  lemma KeysOfButtons(text: string, style: int, key: string, rest: seq<Value>)
    ensures KeysOf([Button(text, style, key)] + rest)
         == if KeysOf(rest).Some? then Some([key] + KeysOf(rest).value) else None
  {
    var bs := [Button(text, style, key)] + rest;
    assert bs[1..] == rest;
    assert bs[0].fields["key"] == Str(key);
  }

  lemma ButtonCardKeys(title: string, desc: string, buttons: seq<Value>)
    ensures ButtonKeys(ButtonCard(title, desc, buttons)) == KeysOf(buttons)
  {
    assert ButtonCard(title, desc, buttons)["button_list"] == List(buttons);
  }

  function ButtonKeys(card: TemplateCard): Option<seq<string>> {
    if "button_list" in card && card["button_list"].List? then KeysOf(card["button_list"].items) else None
  }

  function MainTitleField(card: TemplateCard, field: string): Option<string> {
    if "main_title" in card && card["main_title"].Obj? && field in card["main_title"].fields
       && card["main_title"].fields[field].Str?
    then Some(card["main_title"].fields[field].s)
    else None
  }

  function CardType(card: TemplateCard): Option<string> {
    if "card_type" in card && card["card_type"].Str? then Some(card["card_type"].s) else None
  }

  // ---------------------------------------------------------------------
  // The two cards

  /** The action menu: exactly three buttons, restart, stop and force update, in that order. */
  function NewUnraidActionCard(): (c: TemplateCard)
    ensures CardType(c) == Some("button_interaction")
    ensures ButtonKeys(c) == Some([EventKeyUnraidRestart, EventKeyUnraidStop, EventKeyUnraidForceUpdate])
    ensures MainTitleField(c, "title") == Some("Unraid 容器操作")
  {
    var buttons := [
      Button("重启容器", 1, EventKeyUnraidRestart),
      Button("停止容器", 2, EventKeyUnraidStop),
      Button("强制更新", 2, EventKeyUnraidForceUpdate)];
    KeysOfButtons("强制更新", 2, EventKeyUnraidForceUpdate, []);
    assert buttons[2..] == [Button("强制更新", 2, EventKeyUnraidForceUpdate)] + [];
    KeysOfButtons("停止容器", 2, EventKeyUnraidStop, buttons[2..]);
    assert buttons[1..] == [Button("停止容器", 2, EventKeyUnraidStop)] + buttons[2..];
    KeysOfButtons("重启容器", 1, EventKeyUnraidRestart, buttons[1..]);
    assert buttons == [Button("重启容器", 1, EventKeyUnraidRestart)] + buttons[1..];
    assert [EventKeyUnraidRestart] + ([EventKeyUnraidStop] + ([EventKeyUnraidForceUpdate] + []))
        == [EventKeyUnraidRestart, EventKeyUnraidStop, EventKeyUnraidForceUpdate];
    ButtonCardKeys("Unraid 容器操作", "请选择动作", buttons);
    ButtonCard("Unraid 容器操作", "请选择动作", buttons)
  }

  /** The confirmation card: confirm then cancel, described as "<action>：<container>". */
  function NewConfirmCard(actionDisplayName: string, containerName: string): (c: TemplateCard)
    ensures CardType(c) == Some("button_interaction")
    ensures ButtonKeys(c) == Some([EventKeyConfirm, EventKeyCancel])
    ensures MainTitleField(c, "title") == Some("确认执行")
    ensures MainTitleField(c, "desc") == Some(actionDisplayName + "：" + containerName)
  {
    var buttons := [Button("确认", 2, EventKeyConfirm), Button("取消", 1, EventKeyCancel)];
    KeysOfButtons("取消", 1, EventKeyCancel, []);
    assert buttons[1..] == [Button("取消", 1, EventKeyCancel)] + [];
    KeysOfButtons("确认", 2, EventKeyConfirm, buttons[1..]);
    assert buttons == [Button("确认", 2, EventKeyConfirm)] + buttons[1..];
    assert [EventKeyConfirm] + ([EventKeyCancel] + []) == [EventKeyConfirm, EventKeyCancel];
    ButtonCardKeys("确认执行", actionDisplayName + "：" + containerName, buttons);
    ButtonCard("确认执行", actionDisplayName + "：" + containerName, buttons)
  }

  /** Different confirmations produce different card descriptions only through their texts. */
  lemma ConfirmCardDescDeterminesName(display: string, a: string, b: string)
    requires NewConfirmCard(display, a) == NewConfirmCard(display, b)
    ensures a == b
  {
    assert MainTitleField(NewConfirmCard(display, a), "desc") == MainTitleField(NewConfirmCard(display, b), "desc");
    assert display + "：" + a == display + "：" + b;
    assert a == (display + "：" + a)[|display| + 1..];
  }
}
