/**
 * The JSON body of a WhatsApp Cloud API webhook call, and
 * `extract_whatsapp_message`, which digs the sender and the text out of it
 * with `.get` chains, `or` defaults and `[0]` indexing, any failure of which
 * is caught and turned into the pair ("desconhecido", "").
 */
module Payload {
  import opened Wrappers
  import opened PyText

  /** A parsed JSON value as Python's `json` module hands it over. */
  datatype Json =
    | JNull
    | JBool(b: bool)
    | JNum(n: real)
    | JStr(s: string)
    | JArr(items: seq<Json>)
    | JObj(fields: map<string, Json>)

  /** What Python's `bool(v)` says of a JSON value. */
  predicate Truthy(v: Json) {
    match v
    case JNull => false
    case JBool(b) => b
    case JNum(n) => n != 0.0
    case JStr(s) => s != []
    case JArr(items) => items != []
    case JObj(fields) => fields != map[]
  }

  /** Python's `v or default`. */
  function Or(v: Json, default: Json): (r: Json)
    ensures Truthy(v) ==> r == v
    ensures !Truthy(v) ==> r == default
  {
    if Truthy(v) then v else default
  }

  /** `v.get(key)`: None (as JNull) for a missing key; only a dict has `.get`. */
  function Get(v: Json, key: string): Option<Json> {
    match v
    case JObj(fields) => Some(if key in fields then fields[key] else JNull)
    case _ => None
  }

  /**
   * `v[0]`: the first element of a list, the first character of a string;
   * an empty sequence raises IndexError, a dict KeyError (its keys are
   * strings), anything else TypeError.
   */
  function First(v: Json): Option<Json> {
    match v
    case JArr(items) => if items == [] then None else Some(items[0])
    case JStr(s) => if s == [] then None else Some(JStr(s[..1]))
    case _ => None
  }

  /** The phone used when the payload does not say who sent it. */
  const Unknown: string := "desconhecido"

  datatype Message = Message(phone: Json, text: string)

  /** The answer of every failed lookup. */
  const NoMessage: Message := Message(JStr(Unknown), "")

  /** `str(v)`: a string is itself; other values go through Python's `str`, passed in as `pyStr`. */
  function ToStr(v: Json, pyStr: Json -> string): string {
    if v.JStr? then v.s else pyStr(v)
  }

  /** `entry[0].changes[0].value.messages`, with the `or` defaults; None where the source raises. */
  function Messages(payload: Json): (r: Option<Json>)
    ensures r.Some? ==> payload.JObj? && "entry" in payload.fields && Truthy(payload.fields["entry"])
  {
    var entries :- Get(payload, "entry");
    var entry :- First(Or(entries, JArr([])));
    var changesList :- Get(entry, "changes");
    var changes :- First(Or(changesList, JArr([])));
    var value :- Get(changes, "value");
    Get(Or(value, JObj(map[])), "messages")
  }

  /** The sender and the normalised text of one message object; None where the source raises. */
  function ReadMessage(msg: Json, pyStr: Json -> string): (r: Option<Message>)
    ensures r.Some? ==> IsTrimmed(r.value.text) && IsLowered(r.value.text)
  {
    var from :- Get(msg, "from");
    var textObj :- Get(msg, "text");
    var body :- Get(Or(textObj, JObj(map[])), "body");
    var text := Strip(ToStr(Or(body, JStr("")), pyStr));
    LowerKeepsTrimmed(text);
    Some(Message(Or(from, JStr(Unknown)), Lower(text)))
  }

  /** The body of the `try` block; None stands for an exception raised in it. */
  function Dig(payload: Json, pyStr: Json -> string): (r: Option<Message>)
    ensures r.Some? ==> IsTrimmed(r.value.text) && IsLowered(r.value.text)
  {
    var messages :- Messages(payload);
    if !Truthy(messages) then
      Some(NoMessage)
    else
      var msg :- First(messages);
      ReadMessage(msg, pyStr)
  }

  /**
   * `extract_whatsapp_message`: the sender and the stripped, lower-cased
   * text of the first message; ("desconhecido", "") when anything is missing.
   */
  function ExtractWhatsappMessage(payload: Json, pyStr: Json -> string): (r: Message)
    ensures IsTrimmed(r.text) && IsLowered(r.text)
    ensures Truthy(r.phone)
  {
    match Dig(payload, pyStr)
    case Some(m) => m
    case None => NoMessage
  }

  /**
   * A webhook body as the WhatsApp Cloud API sends it: an object with any
   * fields (`object`, ...) whose `entry` list starts with an entry with any
   * fields (`id`, ...) whose `changes` list starts with a change with any
   * fields (`field`, ...) holding `value`; further entries and changes follow.
   */
  function Delivery(top: map<string, Json>, entry: map<string, Json>, change: map<string, Json>,
                    value: Json, entries: seq<Json>, changes: seq<Json>): Json
  {
    JObj(top["entry" := JArr([JObj(entry["changes" := JArr([JObj(change["value" := value])] + changes)])] + entries)])
  }

  /** A message object with any fields (`id`, `timestamp`, `type`, ...) and the given sender and body. */
  function TextMessage(msg: map<string, Json>, from: Json, text: map<string, Json>, body: Json): Json {
    JObj(msg["from" := from]["text" := JObj(text["body" := body])])
  }

  /** Whatever else the payload holds, the lookups reach `value` and read its `messages`. */
  lemma MessagesOfDelivery(top: map<string, Json>, entry: map<string, Json>, change: map<string, Json>,
                           value: Json, entries: seq<Json>, changes: seq<Json>)
    ensures Messages(Delivery(top, entry, change, value, entries, changes))
            == Get(Or(value, JObj(map[])), "messages")
  {
    var c := JObj(change["value" := value]);
    var e := JObj(entry["changes" := JArr([c] + changes)]);
    assert Get(Delivery(top, entry, change, value, entries, changes), "entry") == Some(JArr([e] + entries));
    assert Get(e, "changes") == Some(JArr([c] + changes));
    assert Get(c, "value") == Some(value);
  }

  /** A delivered `value` holding a non-empty `messages` list: the lookups reach that list. */
  lemma MessagesListOfDelivery(top: map<string, Json>, entry: map<string, Json>, change: map<string, Json>,
                               value: map<string, Json>, entries: seq<Json>, changes: seq<Json>,
                               first: Json, others: seq<Json>)
    ensures var v := JObj(value["messages" := JArr([first] + others)]);
            Messages(Delivery(top, entry, change, v, entries, changes)) == Some(JArr([first] + others))
  {
    var v := JObj(value["messages" := JArr([first] + others)]);
    MessagesOfDelivery(top, entry, change, v, entries, changes);
    assert Get(Or(v, JObj(map[])), "messages") == Some(JArr([first] + others));
  }

  /** A message object whose `text.body` is a string yields its sender (or "desconhecido") and that body, normalised. */
  lemma ReadStringBody(m: map<string, Json>, text: map<string, Json>, body: string, pyStr: Json -> string)
    requires "text" in m && m["text"] == JObj(text["body" := JStr(body)])
    ensures var from := if "from" in m then m["from"] else JNull;
            ReadMessage(JObj(m), pyStr) == Some(Message(Or(from, JStr(Unknown)), Lower(Strip(body))))
  {
    var from := if "from" in m then m["from"] else JNull;
    var t := JObj(text["body" := JStr(body)]);
    assert Get(JObj(m), "from") == Some(from);
    assert Get(JObj(m), "text") == Some(t);
    assert Truthy(t) by {
      assert "body" in t.fields;
    }
    assert Get(Or(t, JObj(map[])), "body") == Some(JStr(body));
    assert ToStr(Or(JStr(body), JStr("")), pyStr) == body;
  }

  /** A text message, whatever other fields it has, yields its sender (or "desconhecido") and its normalised body. */
  lemma ReadTextMessage(msg: map<string, Json>, from: Json, text: map<string, Json>, body: string,
                        pyStr: Json -> string)
    ensures ReadMessage(TextMessage(msg, from, text, JStr(body)), pyStr)
            == Some(Message(Or(from, JStr(Unknown)), Lower(Strip(body))))
  {
    var m := msg["from" := from]["text" := JObj(text["body" := JStr(body)])];
    assert "from" in m && m["from"] == from;
    ReadStringBody(m, text, body, pyStr);
  }

  /** A text message from a non-empty phone is filed under that phone. */
  lemma ReadTextFrom(msg: map<string, Json>, phone: string, text: map<string, Json>, body: string,
                     pyStr: Json -> string)
    requires phone != ""
    ensures ReadMessage(TextMessage(msg, JStr(phone), text, JStr(body)), pyStr)
            == Some(Message(JStr(phone), Lower(Strip(body))))
  {
    var m := msg["from" := JStr(phone)]["text" := JObj(text["body" := JStr(body)])];
    assert "from" in m && m["from"] == JStr(phone);
    assert Or(JStr(phone), JStr(Unknown)) == JStr(phone) by {
      assert Truthy(JStr(phone));
    }
    ReadStringBody(m, text, body, pyStr);
  }

  /** A message with no `from` field is filed under "desconhecido" and keeps its text. */
  lemma ReadWithoutSender(msg: map<string, Json>, text: map<string, Json>, body: string, pyStr: Json -> string)
    requires "from" !in msg
    ensures ReadMessage(JObj(msg["text" := JObj(text["body" := JStr(body)])]), pyStr)
            == Some(Message(JStr(Unknown), Lower(Strip(body))))
  {
    var m := msg["text" := JObj(text["body" := JStr(body)])];
    assert "from" !in m;
    ReadStringBody(m, text, body, pyStr);
  }

  /** A message without text (an image, a location, ...) keeps its sender and gives the empty text. */
  lemma ReadWithoutText(msg: map<string, Json>, from: Json, pyStr: Json -> string)
    requires "text" !in msg || !Truthy(msg["text"])
    ensures ReadMessage(JObj(msg["from" := from]), pyStr) == Some(Message(Or(from, JStr(Unknown)), ""))
  {
    var m := msg["from" := from];
    assert Get(JObj(m), "from") == Some(from);
    assert Get(Or(Get(JObj(m), "text").value, JObj(map[])), "body") == Some(JNull);
    assert ToStr(Or(JNull, JStr("")), pyStr) == "";
    assert Strip("") == "";
  }

  /** With a non-empty `messages` list, the result is what reading its first message gives. */
  lemma ExtractFirstMessage(payload: Json, first: Json, others: seq<Json>, pyStr: Json -> string)
    requires Messages(payload) == Some(JArr([first] + others))
    ensures ExtractWhatsappMessage(payload, pyStr)
            == if ReadMessage(first, pyStr).Some? then ReadMessage(first, pyStr).value else NoMessage
  {
    assert First(JArr([first] + others)) == Some(first);
    assert Dig(payload, pyStr) == ReadMessage(first, pyStr);
  }

  /** A first message that reads as `m` makes `m` the result. */
  lemma ExtractReadsFirst(payload: Json, first: Json, others: seq<Json>, m: Message, pyStr: Json -> string)
    requires Messages(payload) == Some(JArr([first] + others))
    requires ReadMessage(first, pyStr) == Some(m)
    ensures ExtractWhatsappMessage(payload, pyStr) == m
  {
    ExtractFirstMessage(payload, first, others, pyStr);
  }

  /** A text message delivered first yields its sender and its normalised body. */
  lemma ExtractTextMessage(top: map<string, Json>, entry: map<string, Json>, change: map<string, Json>,
                           value: map<string, Json>, entries: seq<Json>, changes: seq<Json>,
                           msg: map<string, Json>, text: map<string, Json>, others: seq<Json>,
                           phone: string, body: string, pyStr: Json -> string)
    requires phone != ""
    ensures var first := TextMessage(msg, JStr(phone), text, JStr(body));
            var v := JObj(value["messages" := JArr([first] + others)]);
            ExtractWhatsappMessage(Delivery(top, entry, change, v, entries, changes), pyStr)
            == Message(JStr(phone), Lower(Strip(body)))
  {
    var first := TextMessage(msg, JStr(phone), text, JStr(body));
    var v := JObj(value["messages" := JArr([first] + others)]);
    var payload := Delivery(top, entry, change, v, entries, changes);
    MessagesListOfDelivery(top, entry, change, value, entries, changes, first, others);
    ReadTextFrom(msg, phone, text, body, pyStr);
    ExtractReadsFirst(payload, first, others, Message(JStr(phone), Lower(Strip(body))), pyStr);
  }

  /** A first message without `from` keeps its text and is filed under "desconhecido". */
  lemma ExtractWithoutSender(top: map<string, Json>, entry: map<string, Json>, change: map<string, Json>,
                             value: map<string, Json>, entries: seq<Json>, changes: seq<Json>,
                             msg: map<string, Json>, text: map<string, Json>, others: seq<Json>,
                             body: string, pyStr: Json -> string)
    requires "from" !in msg
    ensures var first := JObj(msg["text" := JObj(text["body" := JStr(body)])]);
            var v := JObj(value["messages" := JArr([first] + others)]);
            ExtractWhatsappMessage(Delivery(top, entry, change, v, entries, changes), pyStr)
            == Message(JStr(Unknown), Lower(Strip(body)))
  {
    var first := JObj(msg["text" := JObj(text["body" := JStr(body)])]);
    var v := JObj(value["messages" := JArr([first] + others)]);
    var payload := Delivery(top, entry, change, v, entries, changes);
    MessagesListOfDelivery(top, entry, change, value, entries, changes, first, others);
    ReadWithoutSender(msg, text, body, pyStr);
    ExtractReadsFirst(payload, first, others, Message(JStr(Unknown), Lower(Strip(body))), pyStr);
  }

  /**
   * A `value` with no messages (a status update: `messages` missing or
   * empty), or a `value` that is falsy or not an object, gives
   * ("desconhecido", "").
   */
  lemma ExtractWithoutMessages(top: map<string, Json>, entry: map<string, Json>, change: map<string, Json>,
                               value: Json, entries: seq<Json>, changes: seq<Json>, pyStr: Json -> string)
    requires || !Truthy(value) || !value.JObj?
             || "messages" !in value.fields || !Truthy(value.fields["messages"])
    ensures ExtractWhatsappMessage(Delivery(top, entry, change, value, entries, changes), pyStr) == NoMessage
  {
    MessagesOfDelivery(top, entry, change, value, entries, changes);
  }

  /** A first entry that is not an object, or has no `changes` or an empty one, gives ("desconhecido", ""). */
  lemma ExtractWithoutChanges(top: map<string, Json>, entry: Json, entries: seq<Json>, pyStr: Json -> string)
    requires !entry.JObj? || "changes" !in entry.fields || !Truthy(entry.fields["changes"])
    ensures ExtractWhatsappMessage(JObj(top["entry" := JArr([entry] + entries)]), pyStr) == NoMessage
  {
    var payload := JObj(top["entry" := JArr([entry] + entries)]);
    assert Get(payload, "entry") == Some(JArr([entry] + entries));
    assert Messages(payload).None?;
  }

  /** A first change that is not an object gives ("desconhecido", ""). */
  lemma ExtractChangeNotObject(top: map<string, Json>, entry: map<string, Json>, change: Json,
                               entries: seq<Json>, changes: seq<Json>, pyStr: Json -> string)
    requires !change.JObj?
    ensures ExtractWhatsappMessage(JObj(top["entry" := JArr([JObj(entry["changes" := JArr([change] + changes)])] + entries)]), pyStr)
            == NoMessage
  {
    var e := JObj(entry["changes" := JArr([change] + changes)]);
    var payload := JObj(top["entry" := JArr([e] + entries)]);
    assert Get(payload, "entry") == Some(JArr([e] + entries));
    assert Get(e, "changes") == Some(JArr([change] + changes));
    assert Messages(payload).None?;
  }

  /** A first message that is not an object gives ("desconhecido", ""). */
  lemma ExtractMessageNotObject(top: map<string, Json>, entry: map<string, Json>, change: map<string, Json>,
                                value: map<string, Json>, entries: seq<Json>, changes: seq<Json>,
                                first: Json, others: seq<Json>, pyStr: Json -> string)
    requires !first.JObj?
    ensures var v := JObj(value["messages" := JArr([first] + others)]);
            ExtractWhatsappMessage(Delivery(top, entry, change, v, entries, changes), pyStr) == NoMessage
  {
    var v := JObj(value["messages" := JArr([first] + others)]);
    var payload := Delivery(top, entry, change, v, entries, changes);
    MessagesListOfDelivery(top, entry, change, value, entries, changes, first, others);
    assert First(JArr([first] + others)) == Some(first);
    assert Dig(payload, pyStr).None?;
  }

  /** A non-empty list whose first element is an object. */
  predicate FirstIsObject(v: Json) {
    v.JArr? && v.items != [] && v.items[0].JObj?
  }

  /**
   * Every link the lookups follow has the type they need: `entry`,
   * `changes` and `messages` are non-empty lists starting with an object,
   * `value` is an object, and the first message's `text` is an object
   * when it is truthy.
   */
  predicate WellTyped(payload: Json) {
    payload.JObj? && "entry" in payload.fields && FirstIsObject(payload.fields["entry"]) &&
    (var entry := payload.fields["entry"].items[0].fields;
     "changes" in entry && FirstIsObject(entry["changes"]) &&
     (var change := entry["changes"].items[0].fields;
      "value" in change && change["value"].JObj? &&
      (var value := change["value"].fields;
       "messages" in value && FirstIsObject(value["messages"]) &&
       (var msg := value["messages"].items[0].fields;
        "text" !in msg || !Truthy(msg["text"]) || msg["text"].JObj?))))
  }

  /**
   * Fails closed on every ill-typed link: a result other than
   * ("desconhecido", "") comes only from a well-typed payload.
   */
  lemma ExtractNeedsWellTyped(payload: Json, pyStr: Json -> string)
    requires ExtractWhatsappMessage(payload, pyStr) != NoMessage
    ensures WellTyped(payload)
  {
  }

  /** Anything but an object at the top, or a missing or empty `entry`, gives ("desconhecido", ""). */
  lemma ExtractFailsClosed(payload: Json, pyStr: Json -> string)
    requires || !payload.JObj?
             || "entry" !in payload.fields
             || !Truthy(payload.fields["entry"])
    ensures ExtractWhatsappMessage(payload, pyStr) == NoMessage
  {
  }
}
