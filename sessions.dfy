/**
 * The in-memory session store `SESSIONS` with `get_session` and
 * `reset_session`, and the per-message part of `webhook`: extract, look the
 * session up, decide, store the next step, and on FINAL hand the lead to the
 * spreadsheet sink and reset the session whatever the sink answered.
 */
module Sessions {
  import opened Wrappers
  import opened Validators
  import opened Payload
  import opened Conversation

  /** One conversation: `{"step": ..., "data": {...}}`. */
  datatype Session = Session(step: Step, data: Data)

  /** The session `get_session` creates and `reset_session` installs. */
  const Fresh: Session := Session(Start, map[])

  /** A stored session: consistent, and never FINAL (the webhook resets on reaching it). */
  predicate Resumable(s: Session) {
    Consistent(s.step, s.data) && s.step != Final
  }

  /** Python dict keys must be hashable; a JSON list or object is not. */
  predicate Hashable(phone: Json) {
    !phone.JArr? && !phone.JObj?
  }

  /** The session a lookup finds, or the fresh one `get_session` would create. */
  function SessionOf(sessions: map<Json, Session>, phone: Json): Session {
    if phone in sessions then sessions[phone] else Fresh
  }

  /** Every key can be hashed and every session can be resumed. */
  predicate Stores(sessions: map<Json, Session>) {
    forall phone :: phone in sessions ==> Hashable(phone) && Resumable(sessions[phone])
  }

  /** Storing a resumable session under a hashable phone keeps the store well formed. */
  lemma StoresUpdate(sessions: map<Json, Session>, phone: Json, s: Session)
    requires Stores(sessions) && Hashable(phone) && Resumable(s)
    ensures Stores(sessions[phone := s])
  {
  }

  /** Writing a key twice leaves only the second value. */
  lemma OverwriteTwice<K, V>(m: map<K, V>, k: K, first: V, second: V)
    ensures m[k := first][k := second] == m[k := second]
  {
  }

  /** The row handed to the spreadsheet sink. */
  datatype Lead = Lead(
    createdAt: string, phone: Json,
    setor: string, nome: string, email: string, produto: string, cep: string, necessidade: string)

  /** The lead built on FINAL: each answer, or "" when it was never given. */
  function BuildLead(createdAt: string, phone: Json, data: Data): (r: Lead)
    ensures r.createdAt == createdAt && r.phone == phone
    ensures KeySetor in data ==> r.setor == data[KeySetor]
    ensures KeySetor !in data ==> r.setor == ""
    ensures KeyNome in data ==> r.nome == data[KeyNome]
    ensures KeyNome !in data ==> r.nome == ""
    ensures KeyEmail in data ==> r.email == data[KeyEmail]
    ensures KeyEmail !in data ==> r.email == ""
    ensures KeyProduto in data ==> r.produto == data[KeyProduto]
    ensures KeyProduto !in data ==> r.produto == ""
    ensures KeyCep in data ==> r.cep == data[KeyCep]
    ensures KeyCep !in data ==> r.cep == ""
    ensures KeyNecessidade in data ==> r.necessidade == data[KeyNecessidade]
    ensures KeyNecessidade !in data ==> r.necessidade == ""
  {
    Lead(createdAt, phone,
         Lookup(data, KeySetor, ""), Lookup(data, KeyNome, ""), Lookup(data, KeyEmail, ""),
         Lookup(data, KeyProduto, ""), Lookup(data, KeyCep, ""), Lookup(data, KeyNecessidade, ""))
  }

  /** What the store keeps of a decision: the next step and answers, or a fresh session on FINAL. */
  function Stored(d: Decision): Session {
    if d.next == Final then Fresh else Session(d.next, d.data)
  }

  /** What the store holds for a conversation after one more message. */
  function AfterMessage(s: Session, text: string): (r: Session)
    ensures r.step != Final
    ensures Resumable(s) ==> Resumable(r)
  {
    var d := DecideReply(s.step, text, s.data);
    if Resumable(s) && d.next != Final then DecideKeepsConsistent(s.step, text, s.data); Stored(d)
    else Stored(d)
  }

  /**
   * A questionnaire that reaches FINAL from a stored session produces a
   * complete lead: every answer present and well formed, e-mail possibly
   * skipped.
   */
  lemma LeadIsComplete(s: Session, text: string, createdAt: string, phone: Json)
    requires Resumable(s)
    requires DecideReply(s.step, text, s.data).next == Final
    ensures var lead := BuildLead(createdAt, phone, DecideReply(s.step, text, s.data).data);
            && lead.createdAt == createdAt && lead.phone == phone
            && (lead.setor == "vendas" || lead.setor == "suporte")
            && lead.nome != "" && lead.produto != "" && IsCep(lead.cep) && lead.necessidade != ""
            && (lead.email == "" || LooksLikeEmail(lead.email))
  {
    DecideKeepsConsistent(s.step, text, s.data);
    var d := DecideReply(s.step, text, s.data);
    assert Collected(Final) <= d.data.Keys;
  }

  /** What the sink was given and what it answered. */
  datatype Handoff = Handoff(lead: Lead, saved: bool)

  /** The webhook's outcome: a TypeError for an unhashable sender, or the reply and any hand-off. */
  datatype Outcome = Crashed | Handled(reply: Reply, handoff: Option<Handoff>)

  class SessionStore {
    /** `SESSIONS`: phone -> session. */
    var sessions: map<Json, Session>

    ghost predicate Valid()
      reads this
    {
      Stores(sessions)
    }

    constructor ()
      ensures Valid() && sessions == map[]
    {
      sessions := map[];
    }

    /** `get_session`: the stored session, created fresh when the phone has none. */
    method GetSession(phone: Json) returns (s: Session)
      requires Hashable(phone)
      modifies this
      ensures s == SessionOf(old(sessions), phone)
      ensures sessions == old(sessions)[phone := s]
    {
      if phone !in sessions {
        sessions := sessions[phone := Fresh];
      }
      s := sessions[phone];
    }

    /** `reset_session`: a fresh session for this phone, every other one untouched. */
    method ResetSession(phone: Json)
      requires Hashable(phone)
      modifies this
      ensures sessions == old(sessions)[phone := Fresh]
    {
      sessions := sessions[phone := Fresh];
    }

    /**
     * `webhook` for one POSTed payload.  `createdAt` is the timestamp the
     * source takes from the clock, `pyStr` Python's `str` on a non-string
     * body, and `save` the spreadsheet sink.
     */
    method Webhook(payload: Json, pyStr: Json -> string, createdAt: string, save: Lead -> bool)
      returns (out: Outcome)
      requires Valid()
      modifies this
      ensures Valid()
      ensures var m := ExtractWhatsappMessage(payload, pyStr);
              !Hashable(m.phone) ==> out == Crashed && sessions == old(sessions)
      ensures var m := ExtractWhatsappMessage(payload, pyStr);
              var s := SessionOf(old(sessions), m.phone);
              var d := DecideReply(s.step, m.text, s.data);
              Hashable(m.phone) ==>
                && sessions == old(sessions)[m.phone := AfterMessage(s, m.text)]
                && out.Handled? && out.reply == d.reply
                && (d.next == Final <==> out.handoff.Some?)
                && (d.next == Final ==>
                      var lead := BuildLead(createdAt, m.phone, d.data);
                      out.handoff == Some(Handoff(lead, save(lead))))
      ensures forall phone :: phone != ExtractWhatsappMessage(payload, pyStr).phone ==>
                (phone in sessions <==> phone in old(sessions))
                && (phone in sessions ==> sessions[phone] == old(sessions)[phone])
    {
      var m := ExtractWhatsappMessage(payload, pyStr);
      out := HandleMessage(m.phone, m.text, createdAt, save);
    }

    /**
     * The part of `webhook` after the extraction: look the session up,
     * decide, store the next step, and on FINAL hand the lead over and reset.
     */
    method HandleMessage(phone: Json, text: string, createdAt: string, save: Lead -> bool)
      returns (out: Outcome)
      requires Valid()
      modifies this
      ensures Valid()
      ensures !Hashable(phone) ==> out == Crashed && sessions == old(sessions)
      ensures var s := SessionOf(old(sessions), phone);
              var d := DecideReply(s.step, text, s.data);
              Hashable(phone) ==>
                && sessions == old(sessions)[phone := AfterMessage(s, text)]
                && out.Handled? && out.reply == d.reply
                && (d.next == Final <==> out.handoff.Some?)
                && (d.next == Final ==>
                      var lead := BuildLead(createdAt, phone, d.data);
                      out.handoff == Some(Handoff(lead, save(lead))))
      ensures forall other :: other != phone ==>
                (other in sessions <==> other in old(sessions))
                && (other in sessions ==> sessions[other] == old(sessions)[other])
    {
      if !Hashable(phone) {
        return Crashed;
      }
      var session := GetSession(phone);
      assert Resumable(session);
      var d := DecideReply(session.step, text, session.data);
      assert AfterMessage(session, text) == Stored(d);
      out := Commit(phone, d, createdAt, save);
      OverwriteTwice(old(sessions), phone, session, Stored(d));
    }

    /**
     * Stores a decision for a phone whose session is already in the store:
     * the next step and answers, or, on FINAL, the lead handed to `save`
     * followed by `reset_session`.
     */
    method Commit(phone: Json, d: Decision, createdAt: string, save: Lead -> bool) returns (out: Outcome)
      requires Valid() && Hashable(phone) && phone in sessions
      requires Resumable(Stored(d))
      modifies this
      ensures Valid()
      ensures sessions == old(sessions)[phone := Stored(d)]
      ensures out.Handled? && out.reply == d.reply
      ensures d.next == Final <==> out.handoff.Some?
      ensures d.next == Final ==>
                var lead := BuildLead(createdAt, phone, d.data);
                out.handoff == Some(Handoff(lead, save(lead)))
    {
      StoresUpdate(sessions, phone, Stored(d));
      sessions := sessions[phone := Session(d.next, d.data)];
      var handoff := None;
      if d.next == Final {
        var lead := BuildLead(createdAt, phone, d.data);
        var saved := save(lead);
        handoff := Some(Handoff(lead, saved));
        ResetSession(phone);
        OverwriteTwice(old(sessions), phone, Session(d.next, d.data), Fresh);
      }
      out := Handled(d.reply, handoff);
    }
  }
}
