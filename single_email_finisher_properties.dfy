/** What the single-recipient finisher promises, stated over its specification functions. */
module SingleEmailFinisherProperties {
  import opened Wrappers
  import opened Php
  import opened SendGridMail
  import opened FinisherBase
  import opened SingleEmailFinisher

  /** The stages after Bcc, which cannot throw. */
  lemma FinishFacts(m: Message, o: map<string, Value>, body: string)
    ensures var r := ContentStage(OptionalStage(m, o), o, body);
      && r.tos == m.tos && r.ccs == m.ccs && r.bccs == m.bccs && r.from == m.from && r.subject == m.subject
      && r.attachments == m.attachments
      && r.contents == m.contents + [Content(MimeType(Opt(o, "format")), body)]
      && r.replyTo == (if Opt(o, "replyToAddress") != Null then Some(Opt(o, "replyToAddress")) else m.replyTo)
      && r.templateId == (if Opt(o, "templateId") != Null then Some(Opt(o, "templateId")) else m.templateId)
      && r.headers == m.headers + (if Opt(o, "additionalHeaders") != Null then [Opt(o, "additionalHeaders")] else [])
      && r.substitutions == m.substitutions + (if Opt(o, "substitutions") != Null then [Opt(o, "substitutions")] else [])
  {
  }

  /** Assemble, stage by stage. */
  lemma AssembleSteps(o: map<string, Value>, body: string)
    ensures var b1 := ToStage(Headed(o), o); var b := Assemble(o, body);
      && (b1.error.Some? ==> b == b1)
      && (b1.error.None? ==>
            var b2 := ListStage(b1.msg, o, Cc);
            && (b2.error.Some? ==> b == b2)
            && (b2.error.None? ==>
                  var b3 := ListStage(b2.msg, o, Bcc);
                  && (b3.error.Some? ==> b == b3)
                  && (b3.error.None? ==> b == Built(ContentStage(OptionalStage(b3.msg, o), o, body), None))))
  {
  }

  // ---------------------------------------------------------------------------
  // The recipient stages
  // ---------------------------------------------------------------------------

  /**
   * The To stage: a `recipients` array fails exactly when an entry lacks `email`, else
   * appends one To per entry; any other value appends the one scalar To and never fails.
   * Only the To list changes.
   */
  lemma ToStageFacts(m: Message, o: map<string, Value>)
    ensures var b := ToStage(m, o); var rs := Opt(o, "recipients");
      && b.msg.(tos := m.tos) == m
      && (b.error.Some? <==> SomeEntryLacksEmail(rs))
      && (b.error.Some? ==> b.error.value == MissingEmail)
      && (b.error.None? && rs.Arr? ==> b.msg.tos == m.tos + MapAddresses(EntryAddress, Elements(rs)))
      && (!rs.Arr? ==> b.msg.tos == m.tos + [EmailAddress(Opt(o, "recipientAddress"), Opt(o, "recipientName"), Null, Null)])
  {
    var rs := Opt(o, "recipients");
    if rs.Arr? {
      ListEntriesOutcome(m, To, rs, EntryAddress, MissingEmail);
    }
  }

  /**
   * A Cc (or Bcc) stage: it fails exactly when an entry of its list lacks `email`, else
   * appends one address per entry; a list option that is not an array adds nothing.
   * Only list `f` changes.
   */
  lemma ListStageFacts(m: Message, o: map<string, Value>, f: Field)
    requires f != To
    ensures var b := ListStage(m, o, f); var list := Opt(o, ListOption(f));
      && (forall g :: g != f ==> b.msg.Recipients(g) == m.Recipients(g))
      && b.msg.(tos := m.tos, ccs := m.ccs, bccs := m.bccs) == m
      && (b.error.Some? <==> SomeEntryLacksEmail(list))
      && (b.error.Some? ==> b.error.value == MissingEmail)
      && (b.error.None? && list.Arr? ==> b.msg.Recipients(f) == m.Recipients(f) + MapAddresses(EntryAddress, Elements(list)))
      && (!list.Arr? ==> b.msg == m)
  {
    var list := Opt(o, ListOption(f));
    if list.Arr? {
      ListEntriesOutcome(m, f, list, EntryAddress, MissingEmail);
    }
  }

  /**
   * Recipient source selection: a `recipients` array gives one To per entry, each with
   * the entry's email, name, substitutions and subject (null where absent); any other
   * value gives exactly the one To built from `recipientAddress` and `recipientName`,
   * and the finisher itself does not check it.
   */
  lemma RecipientSourceSelection(o: map<string, Value>, body: string)
    ensures var b := Assemble(o, body); var rs := Opt(o, "recipients");
      && (!rs.Arr? ==> b.msg.tos == [EmailAddress(Opt(o, "recipientAddress"), Opt(o, "recipientName"), Null, Null)])
      && (rs.Arr? && !SomeEntryLacksEmail(rs) ==>
            |b.msg.tos| == |rs.entries| &&
            forall i :: 0 <= i < |rs.entries| ==>
              var e := rs.entries[i].value;
              b.msg.tos[i] == EmailAddress(Lookup(e, "email"), Lookup(e, "name"), Lookup(e, "substitutions"), Lookup(e, "subject")))
  {
    TosFixedAfterToStage(o, body);
    ToStageFacts(Headed(o), o);
    var tos := ToStage(Headed(o), o).msg.tos;
    assert Headed(o).tos == [];
    var rs := Opt(o, "recipients");
    if rs.Arr? && !SomeEntryLacksEmail(rs) {
      var es := Elements(rs);
      assert tos == MapAddresses(EntryAddress, es);
      forall i | 0 <= i < |rs.entries|
        ensures tos[i] == EntryAddress(rs.entries[i].value)
      {
        assert es[i] == rs.entries[i].value;
      }
    }
  }

  /** The stages after To leave the To list alone. */
  lemma TosFixedAfterToStage(o: map<string, Value>, body: string)
    ensures Assemble(o, body).msg.tos == ToStage(Headed(o), o).msg.tos
  {
    AssembleSteps(o, body);
    var b1 := ToStage(Headed(o), o);
    if b1.error.None? {
      ListStageFacts(b1.msg, o, Cc);
      var b2 := ListStage(b1.msg, o, Cc);
      if b2.error.None? {
        ListStageFacts(b2.msg, o, Bcc);
        FinishFacts(ListStage(b2.msg, o, Bcc).msg, o, body);
      }
    }
  }

  /** The options a build succeeds with: no entry of any recipient list without `email`. */
  predicate Buildable(o: map<string, Value>) {
    && !SomeEntryLacksEmail(Opt(o, "recipients"))
    && !SomeEntryLacksEmail(Opt(o, "carbonCopyRecipients"))
    && !SomeEntryLacksEmail(Opt(o, "blindCarbonCopyRecipients"))
  }

  /**
   * The build fails exactly when an entry of `recipients`, `carbonCopyRecipients` or
   * `blindCarbonCopyRecipients` lacks `email`, and then always with the framework's
   * FinisherException, whichever list it was.
   */
  lemma MissingEmailAnywhere(o: map<string, Value>, body: string)
    ensures var b := Assemble(o, body);
      && (b.error.Some? <==>
            SomeEntryLacksEmail(Opt(o, "recipients")) ||
            SomeEntryLacksEmail(Opt(o, "carbonCopyRecipients")) ||
            SomeEntryLacksEmail(Opt(o, "blindCarbonCopyRecipients")))
      && (b.error.Some? ==> b.error.value == Exception(FinisherException, MissingEmailMessage, 0))
  {
    AssembleSteps(o, body);
    var b1 := ToStage(Headed(o), o);
    ToStageFacts(Headed(o), o);
    if b1.error.None? {
      ListStageFacts(b1.msg, o, Cc);
      var b2 := ListStage(b1.msg, o, Cc);
      if b2.error.None? {
        ListStageFacts(b2.msg, o, Bcc);
      }
    }
  }

  /**
   * After a successful build, Cc holds exactly one address per `carbonCopyRecipients`
   * entry and Bcc one per `blindCarbonCopyRecipients` entry, in order; there is no
   * scalar copy address.
   */
  lemma CopyLists(o: map<string, Value>, body: string)
    requires Buildable(o)
    ensures var b := Assemble(o, body);
      var cc := Opt(o, "carbonCopyRecipients"); var bcc := Opt(o, "blindCarbonCopyRecipients");
      && |b.msg.ccs| == ListCount(cc) && |b.msg.bccs| == ListCount(bcc)
      && (cc.Arr? ==> b.msg.ccs == MapAddresses(EntryAddress, Elements(cc)))
      && (bcc.Arr? ==> b.msg.bccs == MapAddresses(EntryAddress, Elements(bcc)))
  {
    MissingEmailAnywhere(o, body);
    AssembleSteps(o, body);
    var b1 := ToStage(Headed(o), o);
    ToStageFacts(Headed(o), o);
    ListStageFacts(b1.msg, o, Cc);
    var b2 := ListStage(b1.msg, o, Cc);
    ListStageFacts(b2.msg, o, Bcc);
    FinishFacts(ListStage(b2.msg, o, Bcc).msg, o, body);
  }

  // ---------------------------------------------------------------------------
  // Optional fields, content and attachments
  // ---------------------------------------------------------------------------

  /**
   * A built message has exactly one content part, `text/plain` exactly when `format`
   * is the string "plaintext", else `text/html`, holding the rendered body; reply-to,
   * template id, headers and substitutions are set exactly when their options are not null.
   */
  lemma ContentAndOptionalFields(o: map<string, Value>, body: string)
    requires Buildable(o)
    ensures var b := Assemble(o, body);
      && b.msg.contents == [Content(if Opt(o, "format") == Str("plaintext") then "text/plain" else "text/html", body)]
      && (b.msg.replyTo.Some? <==> Opt(o, "replyToAddress") != Null)
      && (b.msg.replyTo.Some? ==> b.msg.replyTo.value == Opt(o, "replyToAddress"))
      && (b.msg.templateId.Some? <==> Opt(o, "templateId") != Null)
      && (b.msg.templateId.Some? ==> b.msg.templateId.value == Opt(o, "templateId"))
      && b.msg.headers == (if Opt(o, "additionalHeaders") != Null then [Opt(o, "additionalHeaders")] else [])
      && b.msg.substitutions == (if Opt(o, "substitutions") != Null then [Opt(o, "substitutions")] else [])
      && b.msg.from == Some(EmailAddress(Opt(o, "senderAddress"), Opt(o, "senderName"), Null, Null))
      && b.msg.subject == Some(Opt(o, "subject"))
  {
    MissingEmailAnywhere(o, body);
    AssembleSteps(o, body);
    var b1 := ToStage(Headed(o), o);
    ToStageFacts(Headed(o), o);
    ListStageFacts(b1.msg, o, Cc);
    var b2 := ListStage(b1.msg, o, Cc);
    ListStageFacts(b2.msg, o, Bcc);
    FinishFacts(ListStage(b2.msg, o, Bcc).msg, o, body);
  }

  /** This finisher never attaches anything, whatever `attachAllPersistentResources` and `attachments` say. */
  lemma NoAttachments(o: map<string, Value>, body: string)
    ensures Assemble(o, body).msg.attachments == []
  {
    AssembleSteps(o, body);
    var b1 := ToStage(Headed(o), o);
    ToStageFacts(Headed(o), o);
    if b1.error.None? {
      ListStageFacts(b1.msg, o, Cc);
      var b2 := ListStage(b1.msg, o, Cc);
      if b2.error.None? {
        ListStageFacts(b2.msg, o, Bcc);
        FinishFacts(ListStage(b2.msg, o, Bcc).msg, o, body);
      }
    }
  }

  // ---------------------------------------------------------------------------
  // The send decision
  // ---------------------------------------------------------------------------

  /** Nothing is sent exactly when `testMode` is truthy, so `1` and `"1"` count as test mode too. */
  lemma TestModeIsTruthy(testMode: Value, t: Transport)
    ensures Deliver(testMode, t).sent <==> !Truthy(testMode)
    ensures !Deliver(testMode, t).sent ==> Deliver(testMode, t).outcome == Pass
    ensures !Deliver(Int(1), t).sent && !Deliver(Str("1"), t).sent
    ensures Deliver(Str("0"), t).sent && Deliver(Str(""), t).sent && Deliver(Null, t).sent
  {
  }

  /**
   * Outside test mode the answer is never looked at, so any status code passes, and an
   * exception from the send reaches the caller unchanged; no response is kept.
   */
  lemma AnswerIgnored(testMode: Value, t: Transport)
    requires !Truthy(testMode)
    ensures Deliver(testMode, t).sent && Deliver(testMode, t).response == None
    ensures t.Responds? ==> Deliver(testMode, t).outcome == Pass
    ensures t.Raises? ==> Deliver(testMode, t).outcome == Fail(Exception(SdkException, t.message, t.code))
  {
  }

  /** As written, an exception from the send keeps the SDK's class: the catch matches no existing class. */
  lemma SendExceptionEscapes()
    ensures Deliver(Bool(false), Raises("timeout", 7)).outcome.error.kind == SdkException
  {
  }

  /**
   * With the intended catch, every exception from the send becomes a FinisherException
   * with the same message, and nothing else about the decision changes.
   */
  lemma CorrectedWrapsSendErrors(testMode: Value, t: Transport)
    ensures t.Raises? && !Truthy(testMode) ==>
      CorrectedDeliver(testMode, t).outcome == Fail(Exception(FinisherException, t.message, 0))
    ensures CorrectedDeliver(testMode, t) != Deliver(testMode, t) <==> t.Raises? && !Truthy(testMode)
  {
  }
}
