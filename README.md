# WhatsApp lead-intake bot: a Dafny model of its conversation core

The bot receives WhatsApp Cloud API webhook calls, walks each sender through a
short questionnaire (sector, name, e-mail, product, CEP, need, confirmation)
and hands the finished lead to a spreadsheet. This project models the part of
`app.py` that carries the logic:

- `extract_whatsapp_message`: digs the sender and the text out of the JSON
  payload (`payload.dfy`, module `Payload`);
- `normalize_cep` and `looks_like_email`: the two validators
  (`validators.dfy`, module `Validators`);
- `decide_reply`: the state machine over the steps START, MENU, LEAD_NAME,
  LEAD_EMAIL, LEAD_PRODUCT, LEAD_CEP, LEAD_NEED, CONFIRMA_SETOR and FINAL,
  with the reset words checked first and the fallback to START
  (`conversation.dfy`, module `Conversation`);
- `SESSIONS`, `get_session`, `reset_session` and the per-message part of
  `webhook`: a class `SessionStore` whose field `sessions` the methods update
  in place (`sessions.dfy`, module `Sessions`).

`pytext.dfy` (module `PyText`) gives the Python string operations the code
uses (`strip`, `lower`, `title`, `in`, `re.sub(r"\D", ...)`), and
`wrappers.dfy` an `Option` type for lookups that raise in Python.

How the model is laid out:

- `decide_reply` changes the caller's `data` dict in place. Here
  `DecideReply` returns the reply, the next step and the new answers. The
  method `SessionStore.Webhook` stores them back under the sender's phone.
  Since the model handles one message at a time, this write-back gives the
  same state as the source's aliasing.
- `decide_reply` returns a reply string. Here it returns a `Reply` value
  naming which message is sent, and `Text` gives each message's exact
  wording. The confirmation message is built from the answers by `Summary`.
  `webhook` only logs the reply, so the outcome carries the `Reply` value.
- A step is the `Step` datatype. `Unrecognised(name)` is any other stored
  string, which is what the source's fallback at line 294 handles.
  `ParseStep` and `Name` convert between the two forms.
- The sender is kept as a JSON value. The source uses whatever
  `msg.get("from") or "desconhecido"` gives as a dict key. A JSON list or
  object cannot be hashed, so `get_session` raises TypeError for it. The
  model returns `Crashed` in that case, before any state changes.
- Three things are parameters of `Webhook`: the timestamp
  (`datetime.utcnow().isoformat()`), Python's `str` applied to a non-string
  message body, and the spreadsheet sink `save_lead_to_gsheet`. The sink's
  answer goes into the outcome. It has no effect on the stored state.

Points where app.py's behaviour is easy to misread:

- "2" at the confirmation clears every answer, sector included, and
  returns START.
- A failed spreadsheet save still resets the session. Nothing stays
  pending and nothing is retried.
- The name is stored as `title()` of the lower-cased text.
- The CEP is stored as eight bare digits, with no hyphen.
- There is a LEAD_NEED step.
- There is no session expiry and no message deduplication.

## Model

| member | source | states |
|---|---|---|
| `Payload.ExtractWhatsappMessage` | app.py:102-124 | the returned text is always stripped and lower-cased; the phone is a truthy value (the sender or "desconhecido") |
| `Payload.Messages` | app.py:107-110 | the `entry[0].changes[0].value.messages` chain succeeds only on an object with a truthy `entry` |
| `Payload.Dig` | app.py:106-121 | when the lookups succeed, the text is stripped and lower-cased |
| `Payload.ReadMessage` | app.py:114-121 | the text read from a message object, `str(body).strip().lower()`, is stripped and lower-cased |
| `Payload.MessagesOfDelivery` | app.py:107-110 | on a payload of the API's nesting, with any other fields at every level and any further entries and changes, the lookups reach the first change's `value` and read its `messages` |
| `Payload.MessagesListOfDelivery` | app.py:107-110 | the same, when `value` holds a non-empty `messages` list: the lookups return that list |
| `Payload.ExtractFirstMessage` | app.py:111-121 | with a non-empty `messages` list, the result is what reading its first message gives, or ("desconhecido", "") when that raises |
| `Payload.ExtractReadsFirst` | app.py:111-121 | with a non-empty `messages` list whose first message reads successfully, the result is that reading |
| `Payload.ReadStringBody` | app.py:114-119 | a message object whose `text.body` is a string gives its `from` (or "desconhecido") and that body stripped and lower-cased |
| `Payload.ReadTextMessage` | app.py:114-119 | a text message with any other fields gives its sender (or "desconhecido" when the sender is falsy) and its normalised body |
| `Payload.ReadTextFrom` | app.py:114-119 | a text message from a non-empty phone string is filed under that phone, with its normalised body |
| `Payload.ReadWithoutSender` | app.py:115 | a message with no `from` field is filed under "desconhecido" and keeps its text |
| `Payload.ReadWithoutText` | app.py:117-119 | a message with no `text`, or a falsy one, keeps its sender and gives the empty text |
| `Payload.ExtractTextMessage` | app.py:102-121 | a text message delivered first, in a payload with any other fields, entries, changes and messages, gives (its sender, its stripped lower-cased body) |
| `Payload.ExtractWithoutSender` | app.py:115 | a first message without a `from` field keeps its text and gets the phone "desconhecido" |
| `Payload.ExtractWithoutMessages` | app.py:109-112 | a `value` that is falsy or not an object, or has no `messages` or an empty one, gives ("desconhecido", "") |
| `Payload.ExtractWithoutChanges` | app.py:107-108 | a first entry that is not an object, or has no `changes` or an empty one, gives ("desconhecido", "") |
| `Payload.ExtractChangeNotObject` | app.py:108-109 | a first change that is not an object gives ("desconhecido", "") |
| `Payload.ExtractMessageNotObject` | app.py:114-115 | a first message that is not an object gives ("desconhecido", "") |
| `Payload.ExtractNeedsWellTyped` | app.py:106-124 | any result other than ("desconhecido", "") comes from a payload whose `entry`, `changes` and `messages` are non-empty lists starting with an object, whose `value` is an object, and whose first message's `text` is an object when truthy: every other link type fails closed |
| `Payload.ExtractFailsClosed` | app.py:106-124 | a payload that is not an object, or has no truthy `entry`, gives ("desconhecido", "") |
| `PyText.Strip` | app.py:119 | `strip()` keeps a contiguous middle of the input and removes only whitespace, leaving no whitespace at either end |
| `PyText.StripTrimmed` | app.py:119 | `strip()` leaves a string with no whitespace at its ends unchanged |
| `PyText.StripIdempotent` | app.py:119 | stripping twice gives the same result as stripping once |
| `PyText.StripKeepsOut` | app.py:140 | `strip()` only removes characters: a character absent from the input is absent from the result |
| `PyText.StripKeepsFirst` | app.py:140 | a string starting with a non-space character keeps it as the first character of the result |
| `PyText.Lower` | app.py:119 | `lower()` maps each character to its lower case and leaves no upper-case letter |
| `PyText.LowerKeepsTrimmed` | app.py:119 | lower-casing a stripped text leaves it stripped |
| `PyText.Title` | app.py:231 | `title()` keeps the length |
| `PyText.TitleKeepsSpaces` | app.py:231 | `title()` changes case only: whitespace stays in place, so the words keep their boundaries |
| `PyText.Contains` | app.py:207 | Python's `p in t` holds exactly when `p` is a prefix of some suffix of `t` |
| `PyText.Digits` | app.py:133 | `re.sub(r"\D", "", s)` leaves only digits and never lengthens |
| `PyText.DigitsOfChar` | app.py:133 | one character survives the filter exactly when it is a digit; with `DigitsAppend` this fixes the filter on every string |
| `PyText.DigitsCount` | app.py:133 | every digit of the input is kept as often as it occurs, and no other character |
| `PyText.DigitsOfDigits` | app.py:133 | removing the non-digits from a string of digits leaves it unchanged |
| `PyText.DigitsAppend` | app.py:133 | the digit filter distributes over concatenation |
| `PyText.TitleExamples` | app.py:231 | `title()` capitalises each word of a lower-case name, accented letters included ("joão da silva" gives "João Da Silva") |
| `Validators.NormalizeCep` | app.py:126-136 | the result is "" or an 8-digit CEP; it is non-empty exactly when the input has 8 digits, and then it is those digits |
| `Validators.NormalizeCepOfCep` | app.py:126-136 | an 8-digit CEP is its own normal form |
| `Validators.NormalizeCepIdempotent` | app.py:126-136 | normalising twice gives the same result as normalising once |
| `Validators.NormalizeCepHyphenated` | app.py:127-128 | "NNNNN-NNN" normalises to the bare eight digits |
| `Validators.NormalizeCepExamples` | app.py:126-136 | "01001-000" and "01001000" both give "01001000"; "12345" gives "" |
| `Validators.IndexOf` | app.py:140 | the first '@' position: nothing before it is '@' |
| `Validators.LastIndexOf` | app.py:140 | the last '.' the regex's backtracking settles on: nothing after it is '.' |
| `Validators.LooksLikeEmail` | app.py:138-140 | the regex test on the stripped input; no contract of its own, `LooksLikeEmailIsShape` relates it to the pattern |
| `Validators.LooksLikeEmailIsLong` | app.py:138-140 | an accepted address has at least five characters once stripped, as in "a@b.c" |
| `Validators.EmailCheckSound` | app.py:140 | every string the check accepts matches `^[^@\s]+@[^@\s]+\.[^@\s]+$` |
| `Validators.EmailCheckComplete` | app.py:140 | every string matching the pattern passes the check |
| `Validators.LooksLikeEmailIsShape` | app.py:138-140 | `looks_like_email(s)` holds exactly when `s.strip()` is local@domain: neither part has '@' or whitespace, local is non-empty, and domain has a '.' with text on both sides |
| `Validators.LooksLikeEmailAccepts` | app.py:138-140 | every local@host.tld whose three parts are non-empty and free of '@' and whitespace is accepted |
| `Validators.LooksLikeEmailNeedsAt` | app.py:138-140 | a string without '@' is refused |
| `Validators.LooksLikeEmailNeedsDot` | app.py:138-140 | a string without '.' is refused |
| `Validators.LooksLikeEmailNeedsLocalPart` | app.py:138-140 | a string starting with '@' is refused: the local part must be non-empty |
| `Conversation.StepNameRoundTrip` | app.py:204-294 | reading a step name and writing it back gives the same name; a known step survives the round trip |
| `Conversation.Text` | app.py:194-291 | the wording of each reply as the source writes it, the confirmation being `Summary` of the answers; no contract of its own |
| `Conversation.SummaryShowsAnswers` | app.py:264-277 | the confirmation shows a line for the name, the e-mail ("(não informado)" when skipped), the product, the CEP, the need, and the sector as "Vendas" when it is "vendas" or missing, "Suporte" otherwise |
| `Conversation.Converse` | app.py:194-294 | replaying messages one after another from the step each one left; after at least one message, or from a known step, the conversation is at a known step |
| `Conversation.DecideReply` | app.py:194-294 | the next step is always one of the nine known steps; a reset word returns START with no answers, from every step, and the restart message is sent exactly on a reset word |
| `Conversation.ClearsExactly` | app.py:199-201 | a reset word, or "2" at CONFIRMA_SETOR, returns START with the answers emptied; on every other path no key is removed |
| `Conversation.StaysExactlyOnRejected` | app.py:204-287 | apart from reset words, a step stays where it is exactly on input it rejects, and then the answers are unchanged |
| `Conversation.AdvancesWritingOwnKey` | app.py:218-291 | accepted input moves to the step's single successor, records the step's own answer under its own key ("pular" records nothing), and leaves every other key as it was |
| `Conversation.AdvancesToSuccessor` | app.py:218-294 | accepted input moves to the successor given by the step table; FINAL and unknown steps go to START |
| `Conversation.RecordsOwnAnswer` | app.py:218-262 | accepted input writes exactly the answer the step table gives: sector, title-cased name, e-mail, product, normalised CEP, need |
| `Conversation.RecordsOwnAnswerEarly` | app.py:218-240 | the same, for MENU, LEAD_NAME and LEAD_EMAIL |
| `Conversation.RecordsSector` | app.py:218-223 | "1" at MENU records sector "vendas", "2" records "suporte" |
| `Conversation.RecordsName` | app.py:228-232 | a non-empty name is recorded title-cased |
| `Conversation.RecordsEmail` | app.py:235-240 | a valid e-mail is recorded as typed, and "pular" records nothing |
| `Conversation.RecordsOwnAnswerLate` | app.py:244-262 | the same, for LEAD_PRODUCT, LEAD_CEP and LEAD_NEED |
| `Conversation.WrittenKeepsOtherKeys` | app.py:220-262 | writing a step's answer leaves every other key alone |
| `Conversation.DecideKeepsConsistent` | app.py:194-294 | starting from a step other than FINAL that holds exactly the answers collected on the way to it, a message leads to a step with the same property, and every answer keeps the shape its validation allows |
| `Conversation.AdvanceKeepsConsistent` | app.py:218-287 | the same, for accepted input |
| `Conversation.AdvanceKeepsConsistentEarly` | app.py:204-241 | the same, for START to LEAD_EMAIL |
| `Conversation.AdvanceKeepsConsistentLate` | app.py:244-287 | the same, for LEAD_PRODUCT to CONFIRMA_SETOR |
| `Conversation.ConverseEndsWithReset` | app.py:199-201 | a conversation whose last message is a reset word ends at START with no answers, whatever came before |
| `Conversation.ConverseAppend` | app.py:194-294 | replaying two batches of messages one after the other is the same as replaying them together |
| `Conversation.ConverseCons` | app.py:194-294 | replaying one message and then the rest |
| `Conversation.HappyPath` | app.py:204-283 | greeting, "1", name, valid e-mail, product, CEP, need and "1" take a new conversation to FINAL, holding exactly those six answers in their recorded forms |
| `Conversation.HappyChain` | app.py:204-283 | the same path, with the messages taken two at a time |
| `Conversation.HappyAnswers` | app.py:220-262 | the six answers written one after another along that path are exactly the lead's answers |
| `Conversation.HappyGreeting` | app.py:204-221 | a greeting and "1", followed by any messages, record sector "vendas" and continue at LEAD_NAME |
| `Conversation.HappyContact` | app.py:228-240 | a name and a valid e-mail record the title-cased name and the e-mail and continue at LEAD_PRODUCT |
| `Conversation.HappyEmail` | app.py:235-240 | a valid e-mail other than "pular" is recorded and the conversation continues at LEAD_PRODUCT |
| `Conversation.HappyDetails` | app.py:244-256 | a product and a valid CEP record the product and the normalised CEP and continue at LEAD_NEED |
| `Conversation.HappyConfirm` | app.py:259-283 | a need and "1" record the need and reach FINAL |
| `Conversation.ConverseStep` | app.py:218-294 | a replay whose first message is accepted continues from the step's successor with the step's answer written |
| `Conversation.GreetingExamples` | app.py:207 | the greeting test is substring containment: "oi", "olá, tudo bem?" and "dois" pass, "sim" does not |
| `Sessions.AfterMessage` | app.py:334-366 | what the store holds after one message is never FINAL, and a resumable session stays resumable |
| `Sessions.BuildLead` | app.py:352-361 | the lead carries the timestamp and the phone, and each of the six answer columns holds the recorded answer, or "" when that answer was never given |
| `Sessions.LeadIsComplete` | app.py:351-361 | a lead built on reaching FINAL from a stored session has a sector of "vendas" or "suporte", a non-empty name, product and need, an 8-digit CEP, and an e-mail that is "" or valid |
| `Sessions.SessionStore.constructor` | app.py:18 | the store starts empty |
| `Sessions.SessionStore.GetSession` | app.py:20-23 | returns the stored session unchanged, or inserts and returns a fresh START session when the phone is absent; nothing else changes |
| `Sessions.SessionStore.ResetSession` | app.py:58-59 | overwrites only this phone's entry with a fresh START session |
| `Sessions.StoresUpdate` | app.py:20-23 | storing a resumable session under a hashable phone keeps every stored session resumable |
| `Sessions.SessionStore.HandleMessage` | app.py:334-366 | for an extracted (phone, text): an unhashable phone raises before any change; otherwise the session becomes `AfterMessage` of the stored one, the reply is `decide_reply`'s, a lead goes to the sink exactly on FINAL, and no other phone changes |
| `Sessions.SessionStore.Commit` | app.py:341-366 | stores the decided step and answers; on FINAL builds the lead, hands it to the sink and resets the session whatever the sink answered |
| `Sessions.SessionStore.Webhook` | app.py:328-371 | stores the step and answers `decide_reply` returns; on FINAL hands over the lead with missing fields as "" and resets to START whatever the sink answered; no other phone's session changes; keeps every stored session resumable |

## Left out

- Flask routes and the HTTP surface (`home`, `health`, `verify`, `request.get_json`, `jsonify`, status codes): framework I/O. `Webhook` takes the parsed payload and returns an outcome instead of an HTTP response.
- `test_google_sheets` and `save_lead_to_gsheet`: Google API clients, credential decoding and network calls. The sink is a function parameter of `Webhook`, and its boolean answer is recorded in the outcome.
- `send_whatsapp_message`: an HTTP POST, and the source never calls it.
- The clock, the environment-variable configuration and the `print` logging. The timestamp is a parameter.
- Python's `str` on a non-string message body is a parameter (`pyStr`). A string body is used as it is.
- `Payload.Json`: JSON numbers are reals. Python's dict-key equality between `True` and `1` is not modelled, so such senders get separate sessions in the model.
- `PyText.Lower`, `PyText.Title`: case mapping covers ASCII and the Latin-1 letters U+00C0 to U+00FF only. The special cases 'ß' (whose upper case is the two letters "SS", so `title()` changes the length) and 'ÿ' (whose upper case leaves Latin-1) and 'µ', 'ª', 'º' are not modelled.
- `PyText.Digits`: only ASCII digits count as digits. Python's `\D` also keeps other Unicode decimal digits.
- `Sessions.SessionStore.GetSession`, `Sessions.SessionStore.ResetSession`: they require a hashable phone. Python raises TypeError for any other phone, and `Webhook` models that as `Crashed`.
- Concurrent requests racing on the shared `SESSIONS` dict: the model handles one message at a time.
