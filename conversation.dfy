/**
 * `decide_reply`: the questionnaire as a transition function from
 * (step, lower-cased text, answers so far) to (reply, next step, answers).
 * The source mutates the caller's answer dict in place; here the new
 * answers are part of the result and the webhook stores them back.
 */
module Conversation {
  import opened PyText
  import opened Validators

  /**
   * The step names the bot stores.  `Unrecognised` stands for any other
   * stored name and never holds one of the nine known names: `ParseStep`
   * reads those as their own constructors.
   */
  datatype Step =
    | Start | Menu | LeadName | LeadEmail | LeadProduct | LeadCep | LeadNeed | ConfirmaSetor | Final
    | Unrecognised(name: string)

  function Name(step: Step): string {
    match step
    case Start => "START"
    case Menu => "MENU"
    case LeadName => "LEAD_NAME"
    case LeadEmail => "LEAD_EMAIL"
    case LeadProduct => "LEAD_PRODUCT"
    case LeadCep => "LEAD_CEP"
    case LeadNeed => "LEAD_NEED"
    case ConfirmaSetor => "CONFIRMA_SETOR"
    case Final => "FINAL"
    case Unrecognised(name) => name
  }

  /** The step a stored name stands for, as the chain of `step == "..."` tests reads it. */
  function ParseStep(name: string): Step {
    if name == "START" then Start
    else if name == "MENU" then Menu
    else if name == "LEAD_NAME" then LeadName
    else if name == "LEAD_EMAIL" then LeadEmail
    else if name == "LEAD_PRODUCT" then LeadProduct
    else if name == "LEAD_CEP" then LeadCep
    else if name == "LEAD_NEED" then LeadNeed
    else if name == "CONFIRMA_SETOR" then ConfirmaSetor
    else if name == "FINAL" then Final
    else Unrecognised(name)
  }

  /** A name read as a step and written back is the same name, and a known step survives the trip back. */
  lemma StepNameRoundTrip(name: string, step: Step)
    ensures Name(ParseStep(name)) == name
    ensures !step.Unrecognised? ==> ParseStep(Name(step)) == step
  {
  }

  /** The answers collected so far (the source's `data` dict). */
  type Data = map<string, string>

  const KeySetor: string := "setor"
  const KeyNome: string := "nome"
  const KeyEmail: string := "email"
  const KeyProduto: string := "produto"
  const KeyCep: string := "cep"
  const KeyNecessidade: string := "necessidade"

  /** `data.get(key, default)`. */
  function Lookup(data: Data, key: string, default: string): string {
    if key in data then data[key] else default
  }

  datatype Decision = Decision(reply: Reply, next: Step, data: Data)

  const ResetWords: set<string> := {"reset", "reiniciar", "começar", "comecar"}

  /** The greeting test at START: "oi", "olá" or "ola" anywhere in the text. */
  predicate IsGreeting(text: string) {
    Contains(text, "oi") || Contains(text, "olá") || Contains(text, "ola")
  }

  /**
   * The messages the bot sends.  `Text` gives each one's wording; the
   * confirmation is built from the answers by `Summary`.
   */
  datatype Reply =
    | Restarted | TypeHi | Welcome | NotUnderstood | SalesChosen | SupportChosen
    | BadOption | AskName | AskEmail | AskProduct | BadEmail | ProductAgain | AskCep
    | BadCep | AskNeed | NeedAgain | Confirmation(answers: Data) | Registering
    | StartOver | ConfirmHint | Done

  /** One line of the confirmation: a bullet, the caption, the value. */
  function Line(caption: string, value: string): string {
    "• " + caption + ": " + value + "\n"
  }

  /**
   * The six lines of the confirmation: the answers with their defaults (a
   * skipped e-mail shows "(não informado)") and the sector's label, sales
   * unless "suporte" was chosen.
   */
  function SummaryLines(data: Data): seq<string> {
    var sectorLabel := if Lookup(data, KeySetor, "vendas") == "vendas" then "Vendas" else "Suporte";
    [ Line("Nome", Lookup(data, KeyNome, "")),
      Line("Email", Lookup(data, KeyEmail, "(não informado)")),
      Line("Produto", Lookup(data, KeyProduto, "")),
      Line("CEP", Lookup(data, KeyCep, "")),
      Line("Necessidade", Lookup(data, KeyNecessidade, "")),
      Line("Setor", sectorLabel) ]
  }

  /** The confirmation message sent once the need is recorded. */
  function Summary(data: Data): string {
    "✅ Só pra confirmar:\n" + Join(SummaryLines(data))
    + "\nDigite 1 para confirmar ✅\nDigite 2 para recomeçar 🔄"
  }

  /** The confirmation shows every one of its six lines. */
  lemma SummaryShowsAnswers(data: Data, k: nat)
    requires k < 6
    ensures Contains(Summary(data), SummaryLines(data)[k])
  {
    var lines := SummaryLines(data);
    JoinContainsPieces(lines, k);
    ContainsAfter("✅ Só pra confirmar:\n", Join(lines), lines[k]);
    ContainsBefore("✅ Só pra confirmar:\n" + Join(lines), "\nDigite 1 para confirmar ✅\nDigite 2 para recomeçar 🔄", lines[k]);
  }

  /** The text of each reply, as the bot writes it. */
  function Text(reply: Reply): string {
    match reply
    case Restarted => "Perfeito. Vamos recomeçar. Digite 'oi' para iniciar. ✅"
    case TypeHi => "Digite 'oi' para começar. 🙂"
    case Welcome => "Olá! 👋\nSou o atendimento automático 🤖\n\nDigite:\n1️⃣ para Vendas\n2️⃣ para Suporte"
    case NotUnderstood => "Não entendi. Digite 'oi' para começar. 🙂"
    case SalesChosen => "Show! Antes de te encaminhar, me diga seu nome:"
    case SupportChosen => "Certo! Antes de te encaminhar, me diga seu nome:"
    case BadOption => "Opção inválida. Digite 1️⃣ (Vendas) ou 2️⃣ (Suporte)."
    case AskName => "Qual seu nome? (pode ser só o primeiro) 🙂"
    case AskEmail => "Obrigado! Agora me diga seu e-mail (se não tiver, digite 'pular'):"
    case AskProduct => "Perfeito. Qual produto você está procurando? (ex: 'iPhone 13', 'câmera', 'notebook')"
    case BadEmail => "E-mail inválido. Digite um e-mail válido ou 'pular'."
    case ProductAgain => "Qual produto você está procurando? 🙂"
    case AskCep => "Boa! Agora me diga seu CEP (somente números ou com hífen). Ex: 01001-000"
    case BadCep => "CEP inválido. Envie no formato 01001-000 ou 01001000."
    case AskNeed => "Agora descreva em 1 frase o que você precisa (ex: 'quero orçamento', 'tirar dúvida', 'acompanhar pedido'):"
    case NeedAgain => "Me diga em 1 frase o que você precisa 🙂"
    case Confirmation(answers) => Summary(answers)
    case Registering => "Perfeito! Registrando seus dados… ✅"
    case StartOver => "Beleza! Digite 'oi' para recomeçar. 🙂"
    case ConfirmHint => "Digite 1 para confirmar ou 2 para recomeçar."
    case Done => "Pronto! Registrei seus dados e vou encaminhar. Em breve alguém te chama por aqui. ✅"
  }

  /**
   * `decide_reply`.  A reset word wins from every step; otherwise each step
   * either re-asks (same step, same answers) or records its one answer and
   * moves on.  Whatever the step, the next one is a known step.
   */
  function DecideReply(step: Step, text: string, data: Data): (r: Decision)
    ensures !r.next.Unrecognised?
    ensures text in ResetWords ==> r.next == Start && r.data == map[]
    ensures r.reply == Restarted <==> text in ResetWords
  {
    if text in ResetWords then
      Decision(Restarted, Start, map[])
    else
      match step
      case Start =>
        if text == "" then Decision(TypeHi, Start, data)
        else if IsGreeting(text) then Decision(Welcome, Menu, data)
        else Decision(NotUnderstood, Start, data)
      case Menu =>
        if text == "1" then Decision(SalesChosen, LeadName, data[KeySetor := "vendas"])
        else if text == "2" then Decision(SupportChosen, LeadName, data[KeySetor := "suporte"])
        else Decision(BadOption, Menu, data)
      case LeadName =>
        if text == "" then Decision(AskName, LeadName, data)
        else Decision(AskEmail, LeadEmail, data[KeyNome := Title(text)])
      case LeadEmail =>
        if text == "pular" then Decision(AskProduct, LeadProduct, data)
        else if LooksLikeEmail(text) then Decision(AskProduct, LeadProduct, data[KeyEmail := text])
        else Decision(BadEmail, LeadEmail, data)
      case LeadProduct =>
        if text == "" then Decision(ProductAgain, LeadProduct, data)
        else Decision(AskCep, LeadCep, data[KeyProduto := text])
      case LeadCep =>
        var cep := NormalizeCep(text);
        if cep == "" then Decision(BadCep, LeadCep, data)
        else Decision(AskNeed, LeadNeed, data[KeyCep := cep])
      case LeadNeed =>
        if text == "" then Decision(NeedAgain, LeadNeed, data)
        else
          var answered := data[KeyNecessidade := text];
          Decision(Confirmation(answered), ConfirmaSetor, answered)
      case ConfirmaSetor =>
        if text == "1" then Decision(Registering, Final, data)
        else if text == "2" then Decision(StartOver, Start, map[])
        else Decision(ConfirmHint, ConfirmaSetor, data)
      case Final =>
        Decision(Done, Start, data)
      case Unrecognised(_) =>
        Decision(NotUnderstood, Start, data)
  }

  // ---------------------------------------------------------------------
  // The questionnaire as a table: the reference the lemmas below hold
  // DecideReply to.

  /** The single step each step leads to on acceptable input. */
  function Successor(step: Step): Step {
    match step
    case Start => Menu
    case Menu => LeadName
    case LeadName => LeadEmail
    case LeadEmail => LeadProduct
    case LeadProduct => LeadCep
    case LeadCep => LeadNeed
    case LeadNeed => ConfirmaSetor
    case ConfirmaSetor => Final
    case Final => Start
    case Unrecognised(_) => Start
  }

  /** The answer key a step owns ("" for the steps that record nothing). */
  function KeyOf(step: Step): string {
    match step
    case Menu => KeySetor
    case LeadName => KeyNome
    case LeadEmail => KeyEmail
    case LeadProduct => KeyProduto
    case LeadCep => KeyCep
    case LeadNeed => KeyNecessidade
    case _ => ""
  }

  /** Input a step refuses: it re-asks and stays put. */
  predicate Rejects(step: Step, text: string) {
    match step
    case Start => !IsGreeting(text)
    case Menu => text != "1" && text != "2"
    case LeadName => text == ""
    case LeadEmail => text != "pular" && !LooksLikeEmail(text)
    case LeadProduct => text == ""
    case LeadCep => NormalizeCep(text) == ""
    case LeadNeed => text == ""
    case ConfirmaSetor => text != "1" && text != "2"
    case Final => false
    case Unrecognised(_) => false
  }

  /** The two ways the answers are thrown away: a reset word, or "2" at the confirmation. */
  predicate Clears(step: Step, text: string) {
    text in ResetWords || (step == ConfirmaSetor && text == "2")
  }

  /** The value an accepted input records under the step's key, if any. */
  datatype Answer = Nothing | Record(value: string)

  function AnswerOf(step: Step, text: string): Answer {
    match step
    case Menu => Record(if text == "1" then "vendas" else "suporte")
    case LeadName => Record(Title(text))
    case LeadEmail => if text == "pular" then Nothing else Record(text)
    case LeadProduct => Record(text)
    case LeadCep => Record(NormalizeCep(text))
    case LeadNeed => Record(text)
    case _ => Nothing
  }

  /**
   * The answers are emptied and START returned exactly on `Clears`; on
   * every other path no key is removed.
   */
  lemma ClearsExactly(step: Step, text: string, data: Data)
    ensures var r := DecideReply(step, text, data);
            Clears(step, text) ==> r.next == Start && r.data == map[]
    ensures var r := DecideReply(step, text, data);
            !Clears(step, text) ==> data.Keys <= r.data.Keys
  {
  }

  /** Outside a reset, a step stays put exactly on input it rejects, and then the answers do not change. */
  lemma StaysExactlyOnRejected(step: Step, text: string, data: Data)
    requires text !in ResetWords
    ensures var r := DecideReply(step, text, data);
            r.next == step <==> Rejects(step, text)
    ensures var r := DecideReply(step, text, data);
            Rejects(step, text) ==> r.data == data
  {
  }

  /**
   * Input a step accepts moves to the step's successor and records the
   * step's own answer under the step's own key; every other key is left as
   * it was.
   */
  lemma AdvancesWritingOwnKey(step: Step, text: string, data: Data)
    requires !Clears(step, text) && !Rejects(step, text)
    ensures var r := DecideReply(step, text, data);
            r.next == Successor(step) && r.data == Written(step, data, AnswerOf(step, text))
    ensures var r := DecideReply(step, text, data);
            forall k :: k != KeyOf(step) ==> (k in r.data <==> k in data) && (k in data ==> r.data[k] == data[k])
  {
    AdvancesToSuccessor(step, text, data);
    RecordsOwnAnswer(step, text, data);
    WrittenKeepsOtherKeys(step, data, AnswerOf(step, text));
  }

  lemma WrittenKeepsOtherKeys(step: Step, data: Data, a: Answer)
    ensures var r := Written(step, data, a);
            forall k :: k != KeyOf(step) ==> (k in r <==> k in data) && (k in data ==> r[k] == data[k])
  {
  }

  lemma AdvancesToSuccessor(step: Step, text: string, data: Data)
    requires !Clears(step, text) && !Rejects(step, text)
    ensures DecideReply(step, text, data).next == Successor(step)
  {
  }

  lemma RecordsOwnAnswer(step: Step, text: string, data: Data)
    requires !Clears(step, text) && !Rejects(step, text)
    ensures DecideReply(step, text, data).data == Written(step, data, AnswerOf(step, text))
  {
    if step.Menu? || step.LeadName? || step.LeadEmail? {
      RecordsOwnAnswerEarly(step, text, data);
    } else {
      RecordsOwnAnswerLate(step, text, data);
    }
  }

  lemma RecordsOwnAnswerEarly(step: Step, text: string, data: Data)
    requires step.Menu? || step.LeadName? || step.LeadEmail?
    requires !Clears(step, text) && !Rejects(step, text)
    ensures DecideReply(step, text, data).data == Written(step, data, AnswerOf(step, text))
  {
    match step
    case Menu => RecordsSector(text, data);
    case LeadName => RecordsName(text, data);
    case LeadEmail => RecordsEmail(text, data);
  }

  /** "1" or "2" at MENU records the sector. */
  lemma RecordsSector(text: string, data: Data)
    requires text !in ResetWords && (text == "1" || text == "2")
    ensures DecideReply(Menu, text, data).data == data[KeySetor := if text == "1" then "vendas" else "suporte"]
  {
  }

  /** A non-empty name is recorded title-cased. */
  lemma RecordsName(text: string, data: Data)
    requires text !in ResetWords && text != ""
    ensures DecideReply(LeadName, text, data).data == data[KeyNome := Title(text)]
  {
  }

  /** A valid e-mail is recorded as typed; "pular" records nothing. */
  lemma RecordsEmail(text: string, data: Data)
    requires text !in ResetWords && (text == "pular" || LooksLikeEmail(text))
    ensures DecideReply(LeadEmail, text, data).data
            == if text == "pular" then data else data[KeyEmail := text]
  {
  }

  lemma RecordsOwnAnswerLate(step: Step, text: string, data: Data)
    requires !(step.Menu? || step.LeadName? || step.LeadEmail?)
    requires !Clears(step, text) && !Rejects(step, text)
    ensures DecideReply(step, text, data).data == Written(step, data, AnswerOf(step, text))
  {
  }

  /** The answers after a step records `a` under its own key. */
  function Written(step: Step, data: Data, a: Answer): Data {
    match a
    case Nothing => data
    case Record(v) => data[KeyOf(step) := v]
  }

  // ---------------------------------------------------------------------
  // Which answers a session holds at each step.

  /** The keys a step has collected on its way from START, e-mail aside (it may be skipped). */
  function Collected(step: Step): set<string> {
    match step
    case Start => {}
    case Menu => {}
    case LeadName => {KeySetor}
    case LeadEmail => {KeySetor, KeyNome}
    case LeadProduct => {KeySetor, KeyNome}
    case LeadCep => {KeySetor, KeyNome, KeyProduto}
    case LeadNeed => {KeySetor, KeyNome, KeyProduto, KeyCep}
    case ConfirmaSetor => {KeySetor, KeyNome, KeyProduto, KeyCep, KeyNecessidade}
    case Final => {KeySetor, KeyNome, KeyProduto, KeyCep, KeyNecessidade}
    case Unrecognised(_) => {}
  }

  /** The steps that come after the e-mail question. */
  predicate PastEmail(step: Step) {
    step.LeadProduct? || step.LeadCep? || step.LeadNeed? || step.ConfirmaSetor? || step.Final?
  }

  /** Every recorded answer has the shape its step's validation lets through. */
  predicate WellFormedAnswers(data: Data) {
    && (KeySetor in data ==> data[KeySetor] == "vendas" || data[KeySetor] == "suporte")
    && (KeyNome in data ==> data[KeyNome] != "")
    && (KeyEmail in data ==> LooksLikeEmail(data[KeyEmail]))
    && (KeyProduto in data ==> data[KeyProduto] != "")
    && (KeyCep in data ==> IsCep(data[KeyCep]))
    && (KeyNecessidade in data ==> data[KeyNecessidade] != "")
  }

  /** A known step together with exactly the answers the questionnaire has collected on the way to it. */
  predicate Consistent(step: Step, data: Data) {
    && !step.Unrecognised?
    && data.Keys - {KeyEmail} == Collected(step)
    && (KeyEmail in data ==> PastEmail(step))
    && WellFormedAnswers(data)
  }

  /** Every message sent to a consistent session other than FINAL leaves it consistent. */
  lemma DecideKeepsConsistent(step: Step, text: string, data: Data)
    requires Consistent(step, data) && step != Final
    ensures var r := DecideReply(step, text, data);
            Consistent(r.next, r.data)
  {
    if Clears(step, text) {
      ClearsExactly(step, text, data);
      var empty: Data := map[];
      assert empty.Keys == {};
    } else if Rejects(step, text) {
      StaysExactlyOnRejected(step, text, data);
    } else {
      AdvancesWritingOwnKey(step, text, data);
      AdvanceKeepsConsistent(step, text, data);
    }
  }

  /** Recording an accepted answer takes a consistent step to a consistent successor. */
  lemma AdvanceKeepsConsistent(step: Step, text: string, data: Data)
    requires Consistent(step, data) && step != Final
    requires !Clears(step, text) && !Rejects(step, text)
    ensures Consistent(Successor(step), Written(step, data, AnswerOf(step, text)))
  {
    if step.Start? || step.Menu? || step.LeadName? || step.LeadEmail? {
      AdvanceKeepsConsistentEarly(step, text, data);
    } else {
      AdvanceKeepsConsistentLate(step, text, data);
    }
  }

  lemma AdvanceKeepsConsistentEarly(step: Step, text: string, data: Data)
    requires step.Start? || step.Menu? || step.LeadName? || step.LeadEmail?
    requires Consistent(step, data)
    requires !Clears(step, text) && !Rejects(step, text)
    ensures Consistent(Successor(step), Written(step, data, AnswerOf(step, text)))
  {
  }

  lemma AdvanceKeepsConsistentLate(step: Step, text: string, data: Data)
    requires step.LeadProduct? || step.LeadCep? || step.LeadNeed? || step.ConfirmaSetor?
    requires Consistent(step, data)
    requires !Clears(step, text) && !Rejects(step, text)
    ensures Consistent(Successor(step), Written(step, data, AnswerOf(step, text)))
  {
  }

  // ---------------------------------------------------------------------
  // Whole conversations.

  /** The step and answers after a sequence of messages, each decided where the previous one left off. */
  function Converse(step: Step, data: Data, texts: seq<string>): (r: (Step, Data))
    ensures texts != [] || !step.Unrecognised? ==> !r.0.Unrecognised?
    decreases |texts|
  {
    if texts == [] then
      (step, data)
    else
      var d := DecideReply(step, texts[0], data);
      Converse(d.next, d.data, texts[1..])
  }

  /** A reset word as the last message ends any conversation at START with no answers. */
  lemma {:induction false} ConverseEndsWithReset(step: Step, data: Data, texts: seq<string>, word: string)
    requires word in ResetWords
    ensures Converse(step, data, texts + [word]) == (Start, map[])
    decreases |texts|
  {
    if texts == [] {
      assert [word][1..] == [];
    } else {
      var d := DecideReply(step, texts[0], data);
      assert (texts + [word])[1..] == texts[1..] + [word];
      ConverseEndsWithReset(d.next, d.data, texts[1..], word);
    }
  }

  /** Replaying two batches of messages one after the other is replaying them together. */
  lemma {:induction false} ConverseAppend(step: Step, data: Data, first: seq<string>, rest: seq<string>)
    ensures var (s, d) := Converse(step, data, first);
            Converse(step, data, first + rest) == Converse(s, d, rest)
    decreases |first|
  {
    if first == [] {
      assert first + rest == rest;
    } else {
      var d := DecideReply(step, first[0], data);
      assert (first + rest)[1..] == first[1..] + rest;
      ConverseAppend(d.next, d.data, first[1..], rest);
    }
  }

  /** The answers a full pass through the questionnaire records, e-mail given. */
  function LeadAnswers(sector: string, name: string, email: string, product: string, cep: string, need: string): Data {
    map[KeySetor := sector, KeyNome := Title(name), KeyEmail := email,
        KeyProduto := product, KeyCep := NormalizeCep(cep), KeyNecessidade := need]
  }

  /**
   * A greeting, "1" for sales, a name, a valid e-mail, a product, a CEP, a
   * need and "1" to confirm take a new conversation to FINAL holding
   * exactly those six answers, each in its recorded form.
   */
  lemma HappyPath(greeting: string, name: string, email: string, product: string, cep: string, need: string)
    requires IsGreeting(greeting)
    requires name != "" && product != "" && need != ""
    requires LooksLikeEmail(email) && email != "pular"
    requires NormalizeCep(cep) != ""
    requires greeting !in ResetWords && name !in ResetWords && email !in ResetWords
    requires product !in ResetWords && cep !in ResetWords && need !in ResetWords
    ensures Converse(Start, map[], [greeting, "1", name, email, product, cep, need, "1"])
            == (Final, LeadAnswers("vendas", name, email, product, cep, need))
  {
    InPairs(greeting, "1", name, email, product, cep, need, "1");
    HappyChain(greeting, name, email, product, cep, need);
  }

  /** Two messages in front of the rest, one at a time. */
  lemma Pair<T>(x: T, y: T, rest: seq<T>)
    ensures [x, y] + rest == [x] + ([y] + rest)
    ensures [x, y] == [x] + ([y] + [])
  {
  }

  /** Eight messages, grouped in pairs. */
  lemma InPairs<T>(a: T, b: T, c: T, d: T, e: T, f: T, g: T, h: T)
    ensures [a, b] + ([c, d] + ([e, f] + [g, h])) == [a, b, c, d, e, f, g, h]
  {
  }

  /** The happy path, message pair by message pair. */
  lemma HappyChain(greeting: string, name: string, email: string, product: string, cep: string, need: string)
    requires IsGreeting(greeting)
    requires name != "" && product != "" && need != ""
    requires LooksLikeEmail(email) && email != "pular"
    requires NormalizeCep(cep) != ""
    requires greeting !in ResetWords && name !in ResetWords && email !in ResetWords
    requires product !in ResetWords && cep !in ResetWords && need !in ResetWords
    ensures Converse(Start, map[], [greeting, "1"] + ([name, email] + ([product, cep] + [need, "1"])))
            == (Final, LeadAnswers("vendas", name, email, product, cep, need))
  {
    var d1: Data := map[KeySetor := "vendas"];
    var d3 := d1[KeyNome := Title(name)][KeyEmail := email];
    var d5 := d3[KeyProduto := product][KeyCep := NormalizeCep(cep)];
    HappyGreeting(greeting, [name, email] + ([product, cep] + [need, "1"]));
    HappyContact(d1, name, email, [product, cep] + [need, "1"]);
    HappyDetails(d3, product, cep, [need, "1"]);
    HappyConfirm(d5, need);
    HappyAnswers(name, email, product, cep, need);
  }

  /** The six answers, written one after another along the happy path. */
  lemma HappyAnswers(name: string, email: string, product: string, cep: string, need: string)
    ensures map[KeySetor := "vendas"][KeyNome := Title(name)][KeyEmail := email][KeyProduto := product]
              [KeyCep := NormalizeCep(cep)][KeyNecessidade := need]
            == LeadAnswers("vendas", name, email, product, cep, need)
  {
  }

  /** A greeting and "1": sales is recorded and the name is asked for. */
  lemma HappyGreeting(greeting: string, rest: seq<string>)
    requires IsGreeting(greeting) && greeting !in ResetWords
    ensures Converse(Start, map[], [greeting, "1"] + rest) == Converse(LeadName, map[KeySetor := "vendas"], rest)
  {
    ConverseStep(Start, map[], greeting, ["1"] + rest);
    ConverseStep(Menu, map[], "1", rest);
    Pair(greeting, "1", rest);
  }

  /** A name and a valid e-mail: both are recorded and the product is asked for. */
  lemma HappyContact(data: Data, name: string, email: string, rest: seq<string>)
    requires name != "" && LooksLikeEmail(email) && email != "pular"
    requires name !in ResetWords && email !in ResetWords
    ensures Converse(LeadName, data, [name, email] + rest)
            == Converse(LeadProduct, data[KeyNome := Title(name)][KeyEmail := email], rest)
  {
    ConverseStep(LeadName, data, name, [email] + rest);
    HappyEmail(data[KeyNome := Title(name)], email, rest);
    Pair(name, email, rest);
  }

  /** A valid e-mail is recorded and the product is asked for. */
  lemma HappyEmail(data: Data, email: string, rest: seq<string>)
    requires LooksLikeEmail(email) && email != "pular" && email !in ResetWords
    ensures Converse(LeadEmail, data, [email] + rest) == Converse(LeadProduct, data[KeyEmail := email], rest)
  {
    ConverseStep(LeadEmail, data, email, rest);
  }

  /** A product and a valid CEP: both are recorded and the need is asked for. */
  lemma HappyDetails(data: Data, product: string, cep: string, rest: seq<string>)
    requires product != "" && NormalizeCep(cep) != ""
    requires product !in ResetWords && cep !in ResetWords
    ensures Converse(LeadProduct, data, [product, cep] + rest)
            == Converse(LeadNeed, data[KeyProduto := product][KeyCep := NormalizeCep(cep)], rest)
  {
    ConverseStep(LeadProduct, data, product, [cep] + rest);
    ConverseStep(LeadCep, data[KeyProduto := product], cep, rest);
    Pair(product, cep, rest);
  }

  /** A need and "1": the need is recorded and the conversation reaches FINAL. */
  lemma HappyConfirm(data: Data, need: string)
    requires need != "" && need !in ResetWords
    ensures Converse(LeadNeed, data, [need, "1"]) == (Final, data[KeyNecessidade := need])
  {
    ConverseStep(LeadNeed, data, need, ["1"]);
    ConverseStep(ConfirmaSetor, data[KeyNecessidade := need], "1", []);
    Pair(need, "1", []);
  }

  /** A replay whose first message is accepted carries on from the successor with the answer written. */
  lemma ConverseStep(step: Step, data: Data, text: string, rest: seq<string>)
    requires !Clears(step, text) && !Rejects(step, text)
    ensures Converse(step, data, [text] + rest)
            == Converse(Successor(step), Written(step, data, AnswerOf(step, text)), rest)
  {
    AdvancesToSuccessor(step, text, data);
    RecordsOwnAnswer(step, text, data);
    ConverseCons(step, data, text, rest);
  }

  /** Replaying one message and then the rest. */
  lemma ConverseCons(step: Step, data: Data, text: string, rest: seq<string>)
    ensures var d := DecideReply(step, text, data);
            Converse(step, data, [text] + rest) == Converse(d.next, d.data, rest)
  {
    assert ([text] + rest)[1..] == rest;
  }

  /** The greeting test is a substring test: "dois" (two) passes through its "oi", "sim" does not. */
  lemma GreetingExamples()
    ensures IsGreeting("oi") && IsGreeting("olá, tudo bem?") && IsGreeting("dois")
    ensures !IsGreeting("sim")
  {
    assert "oi" <= "oi";
    assert "olá" <= "olá, tudo bem?";
    assert "oi" <= "dois"[1..];
    var no := "sim";
    assert forall i :: 0 <= i < |no| ==> no[i] != 'o';
    assert forall i :: 0 <= i <= |no| ==> no[i..] == [] || no[i..][0] != 'o';
  }
}
