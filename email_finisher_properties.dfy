/** What the multi-recipient finisher promises, stated over its specification functions. */
module EmailFinisherProperties {
  import opened Wrappers
  import opened Php
  import opened Paths
  import opened SendGridMail
  import opened FinisherBase
  import opened EmailFinisher

  /** 1 when the scalar Cc (or Bcc) address has a non-empty string form, else 0. */
  function ScalarCopyCount(o: map<string, Value>, f: Field): nat
    requires f != To
  {
    if NonEmptyString(Opt(o, CopyOptions(f).0)) then 1 else 0
  }

  /** The stages after Bcc, which cannot throw. */
  lemma FinishFacts(m: Message, o: map<string, Value>, body: string, values: seq<FormValue>, encodedFile: string -> string)
    ensures var r := AttachmentStage(ContentStage(OptionalStage(m, o), o, body), o, values, encodedFile);
      && r.tos == m.tos && r.ccs == m.ccs && r.bccs == m.bccs && r.from == m.from && r.subject == m.subject
      && r.contents == m.contents + [Content(MimeType(Opt(o, "format")), body)]
      && r.replyTo == (if Opt(o, "replyToAddress") != Null then Some(Opt(o, "replyToAddress")) else m.replyTo)
      && r.templateId == (if Opt(o, "templateId") != Null then Some(Opt(o, "templateId")) else m.templateId)
      && r.headers == m.headers + (if Opt(o, "additionalHeaders") != Null then [Opt(o, "additionalHeaders")] else [])
      && r.substitutions == m.substitutions + (if Opt(o, "substitutions") != Null then [Opt(o, "substitutions")] else [])
      && r.attachments == m.attachments
           + (if Truthy(Opt(o, "attachAllPersistentResources")) then ResourceAttachments(values) else [])
           + (if Opt(o, "attachments").Arr? then ConfiguredAttachments(Elements(Opt(o, "attachments")), encodedFile) else [])
  {
  }

  /** Assemble, stage by stage. */
  lemma AssembleSteps(o: map<string, Value>, body: string, values: seq<FormValue>, encodedFile: string -> string)
    ensures var b1 := ToStage(Headed(o), o); var b := Assemble(o, body, values, encodedFile);
      && (b1.error.Some? ==> b == b1)
      && (b1.error.None? ==>
            var b2 := CopyStage(b1.msg, o, Cc);
            && (b2.error.Some? ==> b == b2)
            && (b2.error.None? ==>
                  var b3 := CopyStage(b2.msg, o, Bcc);
                  && (b3.error.Some? ==> b == b3)
                  && (b3.error.None? ==>
                        b == Built(AttachmentStage(ContentStage(OptionalStage(b3.msg, o), o, body), o, values, encodedFile), None))))
  {
  }

  /**
   * The options a build succeeds with: a recipient source (the scalar pair, or a
   * `recipients` array whose every entry has `email`) and no copy-list entry without `email`.
   */
  predicate Buildable(o: map<string, Value>) {
    && (ScalarRecipient(o) || (Opt(o, "recipients").Arr? && !SomeEntryLacksEmail(Opt(o, "recipients"))))
    && !SomeEntryLacksEmail(Opt(o, "carbonCopyRecipients"))
    && !SomeEntryLacksEmail(Opt(o, "blindCarbonCopyRecipients"))
  }

  /** The build throws nothing exactly for buildable options, whatever the body, form values and files. */
  lemma BuildSucceedsExactly(o: map<string, Value>, body: string, values: seq<FormValue>, encodedFile: string -> string)
    ensures Assemble(o, body, values, encodedFile).error.None? <==> Buildable(o)
  {
    AssembleSteps(o, body, values, encodedFile);
    var rs := Opt(o, "recipients");
    if !ScalarRecipient(o) && rs.Arr? {
      ListEntriesOutcome(Headed(o), To, rs, EntryAddress, MissingEmail(To));
    }
    var b1 := ToStage(Headed(o), o);
    if b1.error.None? {
      CopyStageFacts(b1.msg, o, Cc);
      var b2 := CopyStage(b1.msg, o, Cc);
      if b2.error.None? {
        CopyStageFacts(b2.msg, o, Bcc);
      }
    }
  }

  // ---------------------------------------------------------------------------
  // To
  // ---------------------------------------------------------------------------

  /**
   * Recipient source selection: the scalar pair gives exactly one To; otherwise a
   * `recipients` array gives one To per entry up to the first without `email`;
   * otherwise the run fails with "at least one recipient" and no To.
   */
  lemma RecipientSourceSelection(o: map<string, Value>, body: string, values: seq<FormValue>, encodedFile: string -> string)
    ensures var b := Assemble(o, body, values, encodedFile); var rs := Opt(o, "recipients");
      && (ScalarRecipient(o) ==>
            b.msg.tos == [EmailAddress(Opt(o, "recipientAddress"), Opt(o, "recipientName"), Null, Null)])
      && (!ScalarRecipient(o) && rs.Arr? ==>
            b.msg.tos == MapAddresses(EntryAddress, Elements(rs)[..FirstMissingEmail(Elements(rs))]))
      && (!ScalarRecipient(o) && !rs.Arr? ==>
            b.error == Some(Exception(SendgridFinisherException, NoRecipientMessage, 0)) && b.msg.tos == [])
  {
    TosFixedAfterToStage(o, body, values, encodedFile);
  }

  /** With the scalar pair set, the `recipients` option, whatever it holds, changes nothing. */
  lemma RecipientsIgnoredWithScalarPair(o: map<string, Value>, other: Value, body: string, values: seq<FormValue>, encodedFile: string -> string)
    requires ScalarRecipient(o)
    ensures Assemble(o["recipients" := other], body, values, encodedFile) == Assemble(o, body, values, encodedFile)
  {
    var o2 := o["recipients" := other];
    assert AgreeExceptRecipients(o, o2) by {
      forall name | name != "recipients" ensures Opt(o2, name) == Opt(o, name) {
      }
    }
    AssembleSteps(o, body, values, encodedFile);
    AssembleSteps(o2, body, values, encodedFile);
    assert Headed(o2) == Headed(o) by {
      assert Opt(o2, "senderAddress") == Opt(o, "senderAddress");
      assert Opt(o2, "senderName") == Opt(o, "senderName");
      assert Opt(o2, "subject") == Opt(o, "subject");
    }
    var b1 := ToStage(Headed(o), o);
    ToStageIgnoresRecipients(Headed(o), o, o2);
    LaterStagesSkipRecipients(o, o2);
    CopyStageAgrees(b1.msg, o, o2, Cc);
    var b2 := CopyStage(b1.msg, o, Cc);
    CopyStageAgrees(b2.msg, o, o2, Bcc);
    FinishAgrees(CopyStage(b2.msg, o, Bcc).msg, o, o2, body, values, encodedFile);
  }

  /** Two option sets that resolve alike on every option except `recipients`. */
  ghost predicate AgreeExceptRecipients(o: map<string, Value>, o2: map<string, Value>) {
    forall name :: name != "recipients" ==> Opt(o2, name) == Opt(o, name)
  }

  /** Two option sets that resolve alike on each of the given option names. */
  predicate AgreeOn(o: map<string, Value>, o2: map<string, Value>, names: seq<string>) {
    forall i :: 0 <= i < |names| ==> Opt(o2, names[i]) == Opt(o, names[i])
  }

  /** The three options a Cc or Bcc stage reads: scalar address, scalar name and list. */
  function CopyOptionNames(f: Field): seq<string>
    requires f != To
  {
    [CopyOptions(f).0, CopyOptions(f).1, CopyOptions(f).2]
  }

  /** The options the steps after Bcc read. */
  const FinishOptionNames := ["replyToAddress", "templateId", "additionalHeaders", "substitutions",
                              "format", "attachAllPersistentResources", "attachments"]

  lemma AgreeExceptRecipientsOn(o: map<string, Value>, o2: map<string, Value>, names: seq<string>)
    requires AgreeExceptRecipients(o, o2) && "recipients" !in names
    ensures AgreeOn(o, o2, names)
  {
    forall i | 0 <= i < |names| ensures Opt(o2, names[i]) == Opt(o, names[i]) {
      assert names[i] in names;
    }
  }

  /** None of the stages after To reads `recipients`. */
  lemma LaterStagesSkipRecipients(o: map<string, Value>, o2: map<string, Value>)
    requires AgreeExceptRecipients(o, o2)
    ensures AgreeOn(o, o2, CopyOptionNames(Cc)) && AgreeOn(o, o2, CopyOptionNames(Bcc))
    ensures AgreeOn(o, o2, FinishOptionNames)
  {
    assert "recipients" !in CopyOptionNames(Cc);
    AgreeExceptRecipientsOn(o, o2, CopyOptionNames(Cc));
    assert "recipients" !in CopyOptionNames(Bcc);
    AgreeExceptRecipientsOn(o, o2, CopyOptionNames(Bcc));
    assert "recipients" !in FinishOptionNames;
    AgreeExceptRecipientsOn(o, o2, FinishOptionNames);
  }

  /**
   * The scalar pair needs both halves: `recipientName` defaults to the empty string,
   * so options that set only `recipientAddress` (and no `recipients` array) end the
   * To stage with the "at least one recipient" exception and no To.
   */
  lemma AddressAloneIsNoRecipient(m: Message, address: Value)
    ensures ToStage(m, map["recipientAddress" := address]) == Built(m, Some(Exception(SendgridFinisherException, NoRecipientMessage, 0)))
  {
    var o := map["recipientAddress" := address];
    assert Opt(o, "recipientName") == Str("");
    assert Opt(o, "recipients") == Null;
  }

  lemma ToStageIgnoresRecipients(m: Message, o: map<string, Value>, o2: map<string, Value>)
    requires ScalarRecipient(o) && AgreeExceptRecipients(o, o2)
    ensures ToStage(m, o2) == ToStage(m, o)
  {
    assert Opt(o2, "recipientName") == Opt(o, "recipientName");
    assert Opt(o2, "recipientAddress") == Opt(o, "recipientAddress");
  }

  /** A copy stage reads only its own three options: agreeing on them gives the same stage. */
  lemma CopyStageAgrees(m: Message, o: map<string, Value>, o2: map<string, Value>, f: Field)
    requires f != To && AgreeOn(o, o2, CopyOptionNames(f))
    ensures CopyStage(m, o2, f) == CopyStage(m, o, f)
  {
    var names := CopyOptionNames(f);
    assert Opt(o2, names[0]) == Opt(o, names[0]);
    assert Opt(o2, names[1]) == Opt(o, names[1]);
    assert Opt(o2, names[2]) == Opt(o, names[2]);
  }

  /** The steps after Bcc read only their own seven options. */
  lemma FinishAgrees(m: Message, o: map<string, Value>, o2: map<string, Value>, body: string, values: seq<FormValue>, encodedFile: string -> string)
    requires AgreeOn(o, o2, FinishOptionNames)
    ensures AttachmentStage(ContentStage(OptionalStage(m, o2), o2, body), o2, values, encodedFile)
         == AttachmentStage(ContentStage(OptionalStage(m, o), o, body), o, values, encodedFile)
  {
    var names := FinishOptionNames;
    assert Opt(o2, names[0]) == Opt(o, names[0]) && Opt(o2, names[1]) == Opt(o, names[1]);
    assert Opt(o2, names[2]) == Opt(o, names[2]) && Opt(o2, names[3]) == Opt(o, names[3]);
    assert Opt(o2, names[4]) == Opt(o, names[4]) && Opt(o2, names[5]) == Opt(o, names[5]);
    assert Opt(o2, names[6]) == Opt(o, names[6]);
    assert OptionalStage(m, o2) == OptionalStage(m, o) by {
      assert Opt(o2, "replyToAddress") == Opt(o, "replyToAddress");
      assert Opt(o2, "templateId") == Opt(o, "templateId");
      assert Opt(o2, "additionalHeaders") == Opt(o, "additionalHeaders");
      assert Opt(o2, "substitutions") == Opt(o, "substitutions");
    }
    var m4 := OptionalStage(m, o);
    assert ContentStage(m4, o2, body) == ContentStage(m4, o, body) by {
      assert Opt(o2, "format") == Opt(o, "format");
    }
    assert Opt(o2, "attachAllPersistentResources") == Opt(o, "attachAllPersistentResources");
    assert Opt(o2, "attachments") == Opt(o, "attachments");
  }

  /**
   * The `recipients` array path: the run fails with SendgridFinisherException exactly
   * when some entry lacks `email`; otherwise there is one To per entry, in order, with
   * a null name where the entry has none. An empty array is no error and adds no To.
   */
  lemma RecipientsArray(o: map<string, Value>, body: string, values: seq<FormValue>, encodedFile: string -> string)
    requires !ScalarRecipient(o) && Opt(o, "recipients").Arr?
    ensures var b := Assemble(o, body, values, encodedFile); var es := Elements(Opt(o, "recipients"));
      && (SomeEntryLacksEmail(Opt(o, "recipients")) ==> b.error == Some(MissingEmail(To)) && MissingEmail(To).kind == SendgridFinisherException)
      && (!SomeEntryLacksEmail(Opt(o, "recipients")) ==>
            |b.msg.tos| == |es| &&
            (forall i :: 0 <= i < |es| ==> b.msg.tos[i] == EntryAddress(es[i])) &&
            (forall i :: 0 <= i < |es| && !KeyExists(es[i], "name") ==> b.msg.tos[i].name == Null))
      && (es == [] ==> b.msg.tos == [])
      && (!SomeEntryLacksEmail(Opt(o, "recipients")) ==> (b.error.Some? ==> b.error.value.kind == FinisherException))
  {
    var rs := Opt(o, "recipients");
    var es := Elements(rs);
    TosFixedAfterToStage(o, body, values, encodedFile);
    AddEntriesOutcome(Headed(o), To, es, EntryAddress, MissingEmail(To));
    if SomeEntryLacksEmail(rs) {
      var i :| 0 <= i < |rs.entries| && !HasEmail(rs.entries[i].value);
      assert !HasEmail(es[i]);
    }
    if !SomeEntryLacksEmail(rs) {
      assert ToStage(Headed(o), o).error.None?;
      ErrorsAfterToStage(o, body, values, encodedFile);
    }
  }

  /** The stages after To leave the To list alone. */
  lemma TosFixedAfterToStage(o: map<string, Value>, body: string, values: seq<FormValue>, encodedFile: string -> string)
    ensures Assemble(o, body, values, encodedFile).msg.tos == ToStage(Headed(o), o).msg.tos
  {
    AssembleSteps(o, body, values, encodedFile);
    var b1 := ToStage(Headed(o), o);
    if b1.error.None? {
      CopyStageKeepsTos(b1.msg, o, Cc);
      var b2 := CopyStage(b1.msg, o, Cc);
      if b2.error.None? {
        CopyStageKeepsTos(b2.msg, o, Bcc);
        FinishFacts(CopyStage(b2.msg, o, Bcc).msg, o, body, values, encodedFile);
      }
    }
  }

  /** A copy stage never touches the To list. */
  lemma CopyStageKeepsTos(m: Message, o: map<string, Value>, f: Field)
    requires f != To
    ensures CopyStage(m, o, f).msg.tos == m.tos
  {
    ScalarCopyFacts(m, o, f);
    var list := Opt(o, CopyOptions(f).2);
    if list.Arr? {
      ListEntriesOutcome(ScalarCopy(m, o, f), f, list, EntryAddress, MissingEmail(f));
    }
  }

  /** Once the To stage has passed, the only exception building can still throw is the framework's missing-email one. */
  lemma ErrorsAfterToStage(o: map<string, Value>, body: string, values: seq<FormValue>, encodedFile: string -> string)
    requires ToStage(Headed(o), o).error.None?
    ensures var b := Assemble(o, body, values, encodedFile);
      b.error.Some? ==> b.error.value == Exception(FinisherException, MissingEmailMessage, 0)
  {
    var b1 := ToStage(Headed(o), o);
    CopyStageFacts(b1.msg, o, Cc);
    CopyStageFacts(CopyStage(b1.msg, o, Cc).msg, o, Bcc);
  }

  // ---------------------------------------------------------------------------
  // Cc and Bcc
  // ---------------------------------------------------------------------------

  /**
   * One Cc (or Bcc) stage: it fails with FinisherException exactly when a list entry
   * lacks `email`; otherwise it adds the scalar address first (when non-empty) and then
   * one address per list entry. No other list and no other field changes.
   */
  lemma CopyStageFacts(m: Message, o: map<string, Value>, f: Field)
    requires f != To
    ensures var b := CopyStage(m, o, f); var list := Opt(o, CopyOptions(f).2); var n := |m.Recipients(f)|;
      && (forall g :: g != f ==> b.msg.Recipients(g) == m.Recipients(g))
      && b.msg.(tos := m.tos, ccs := m.ccs, bccs := m.bccs) == m
      && (b.error.Some? <==> SomeEntryLacksEmail(list))
      && (b.error.Some? ==> b.error.value == Exception(FinisherException, MissingEmailMessage, 0))
      && (b.error.None? ==> |b.msg.Recipients(f)| == n + ScalarCopyCount(o, f) + ListCount(list))
      && b.msg.Recipients(f)[..n] == m.Recipients(f)
      && (ScalarCopyCount(o, f) == 1 ==>
            |b.msg.Recipients(f)| > n &&
            b.msg.Recipients(f)[n] == EmailAddress(Opt(o, CopyOptions(f).0), Opt(o, CopyOptions(f).1), Null, Null))
      && (b.error.None? && list.Arr? ==>
            b.msg.Recipients(f)[n + ScalarCopyCount(o, f)..] == MapAddresses(EntryAddress, Elements(list)))
  {
    var m1 := ScalarCopy(m, o, f);
    ScalarCopyFacts(m, o, f);
    var n := |m.Recipients(f)|;
    var list := Opt(o, CopyOptions(f).2);
    var b := CopyStage(m, o, f);
    if list.Arr? {
      ListEntriesOutcome(m1, f, list, EntryAddress, MissingEmail(f));
      AddEntriesOutcome(m1, f, Elements(list), EntryAddress, MissingEmail(f));
      var n1 := |m1.Recipients(f)|;
      assert b.msg.Recipients(f)[..n1] == m1.Recipients(f);
      assert b.msg.Recipients(f)[..n] == b.msg.Recipients(f)[..n1][..n];
    }
  }

  /** The scalar half of a copy stage adds at most the one scalar address, after the existing ones. */
  lemma ScalarCopyFacts(m: Message, o: map<string, Value>, f: Field)
    requires f != To
    ensures var m1 := ScalarCopy(m, o, f);
      && m1.Recipients(f) == m.Recipients(f) +
           (if ScalarCopyCount(o, f) == 1 then [EmailAddress(Opt(o, CopyOptions(f).0), Opt(o, CopyOptions(f).1), Null, Null)] else [])
      && (forall g :: g != f ==> m1.Recipients(g) == m.Recipients(g))
      && m1.(tos := m.tos, ccs := m.ccs, bccs := m.bccs) == m
  {
  }

  /** The scalar copy address as a list: one address when it is a non-empty string, else none. */
  function ScalarCopies(o: map<string, Value>, f: Field): seq<EmailAddress>
    requires f != To
  {
    if ScalarCopyCount(o, f) == 1 then [EmailAddress(Opt(o, CopyOptions(f).0), Opt(o, CopyOptions(f).1), Null, Null)] else []
  }

  /** The addresses of a copy list option: one per element when it is an array, else none. */
  function ListCopies(o: map<string, Value>, f: Field): seq<EmailAddress>
    requires f != To
  {
    var list := Opt(o, CopyOptions(f).2);
    if list.Arr? then MapAddresses(EntryAddress, Elements(list)) else []
  }

  /** A copy stage that throws nothing appends the scalar address (if any) and then every list address. */
  lemma CopyStageSuccess(m: Message, o: map<string, Value>, f: Field)
    requires f != To && CopyStage(m, o, f).error.None?
    ensures CopyStage(m, o, f).msg == m.Added(f, ScalarCopies(o, f) + ListCopies(o, f))
  {
    var m1 := ScalarCopy(m, o, f);
    assert m1 == m.Added(f, ScalarCopies(o, f)) by {
      ScalarCopyFacts(m, o, f);
    }
    var list := Opt(o, CopyOptions(f).2);
    if list.Arr? {
      ListEntriesOutcome(m1, f, list, EntryAddress, MissingEmail(f));
    }
    AddedTwice(m, f, ScalarCopies(o, f), ListCopies(o, f));
  }

  /**
   * After a successful build, Cc holds the scalar `carbonCopyAddress` (when non-empty)
   * followed by one address per `carbonCopyRecipients` element, and Bcc the same for the
   * blind-copy options.
   */
  lemma CopyCounts(o: map<string, Value>, body: string, values: seq<FormValue>, encodedFile: string -> string)
    requires Buildable(o)
    ensures var b := Assemble(o, body, values, encodedFile);
      && b.msg.ccs == ScalarCopies(o, Cc) + ListCopies(o, Cc)
      && b.msg.bccs == ScalarCopies(o, Bcc) + ListCopies(o, Bcc)
      && |b.msg.ccs| == ScalarCopyCount(o, Cc) + ListCount(Opt(o, "carbonCopyRecipients"))
      && |b.msg.bccs| == ScalarCopyCount(o, Bcc) + ListCount(Opt(o, "blindCarbonCopyRecipients"))
  {
    BuildSucceedsExactly(o, body, values, encodedFile);
    AssembleSteps(o, body, values, encodedFile);
    var b1 := ToStage(Headed(o), o);
    ToStageTouchesOnlyTos(Headed(o), o);
    CopyStageSuccess(b1.msg, o, Cc);
    var b2 := CopyStage(b1.msg, o, Cc);
    CopyStageSuccess(b2.msg, o, Bcc);
    FinishFacts(CopyStage(b2.msg, o, Bcc).msg, o, body, values, encodedFile);
  }

  /** The To stage changes the To list and nothing else. */
  lemma ToStageTouchesOnlyTos(m: Message, o: map<string, Value>)
    ensures ToStage(m, o).msg.(tos := m.tos) == m
  {
    var rs := Opt(o, "recipients");
    if !ScalarRecipient(o) && rs.Arr? {
      AddEntriesOutcome(m, To, Elements(rs), EntryAddress, MissingEmail(To));
    }
  }

  /**
   * An entry without `email` in the Cc (or Bcc) list, once the earlier stages have
   * passed, ends the run with FinisherException.
   */
  lemma CopyEntryWithoutEmail(o: map<string, Value>, f: Field, body: string, values: seq<FormValue>, encodedFile: string -> string)
    requires f != To
    requires ToStage(Headed(o), o).error.None?
    requires f == Bcc ==> !SomeEntryLacksEmail(Opt(o, "carbonCopyRecipients"))
    requires SomeEntryLacksEmail(Opt(o, CopyOptions(f).2))
    ensures Assemble(o, body, values, encodedFile).error == Some(Exception(FinisherException, MissingEmailMessage, 0))
  {
    var b1 := ToStage(Headed(o), o);
    CopyStageFacts(b1.msg, o, Cc);
    CopyStageFacts(CopyStage(b1.msg, o, Cc).msg, o, Bcc);
  }

  // ---------------------------------------------------------------------------
  // Optional fields and content
  // ---------------------------------------------------------------------------

  /**
   * A built message has exactly one content part, `text/plain` exactly when `format`
   * is the string "plaintext", else `text/html`, holding the rendered body; reply-to,
   * template id, headers and substitutions are set exactly when their options are not null.
   */
  lemma ContentAndOptionalFields(o: map<string, Value>, body: string, values: seq<FormValue>, encodedFile: string -> string)
    requires Buildable(o)
    ensures var b := Assemble(o, body, values, encodedFile);
      && |b.msg.contents| == 1
      && b.msg.contents[0].value == body
      && (b.msg.contents[0].mimeType == "text/plain" <==> Opt(o, "format") == Str("plaintext"))
      && (b.msg.contents[0].mimeType != "text/plain" ==> b.msg.contents[0].mimeType == "text/html")
      && (b.msg.replyTo.Some? <==> Opt(o, "replyToAddress") != Null)
      && (b.msg.replyTo.Some? ==> b.msg.replyTo.value == Opt(o, "replyToAddress"))
      && (b.msg.templateId.Some? <==> Opt(o, "templateId") != Null)
      && (b.msg.templateId.Some? ==> b.msg.templateId.value == Opt(o, "templateId"))
      && b.msg.headers == (if Opt(o, "additionalHeaders") != Null then [Opt(o, "additionalHeaders")] else [])
      && b.msg.substitutions == (if Opt(o, "substitutions") != Null then [Opt(o, "substitutions")] else [])
      && b.msg.from == Some(EmailAddress(Opt(o, "senderAddress"), Opt(o, "senderName"), Null, Null))
      && b.msg.subject == Some(Opt(o, "subject"))
  {
    BuildSucceedsExactly(o, body, values, encodedFile);
    AssembleSteps(o, body, values, encodedFile);
    var b1 := ToStage(Headed(o), o);
    ToStageTouchesOnlyTos(Headed(o), o);
    CopyStageFacts(b1.msg, o, Cc);
    var b2 := CopyStage(b1.msg, o, Cc);
    CopyStageFacts(b2.msg, o, Bcc);
    FinishFacts(CopyStage(b2.msg, o, Bcc).msg, o, body, values, encodedFile);
  }

  /** A failed build stops before the optional fields, the content part and the attachments. */
  lemma FailedBuildHasNoContent(o: map<string, Value>, body: string, values: seq<FormValue>, encodedFile: string -> string)
    requires !Buildable(o)
    ensures var b := Assemble(o, body, values, encodedFile);
      && b.msg.contents == [] && b.msg.attachments == []
      && b.msg.replyTo == None && b.msg.templateId == None
      && b.msg.headers == [] && b.msg.substitutions == []
  {
    BuildSucceedsExactly(o, body, values, encodedFile);
    AssembleSteps(o, body, values, encodedFile);
    var b1 := ToStage(Headed(o), o);
    ToStageTouchesOnlyTos(Headed(o), o);
    if b1.error.None? {
      CopyStageFacts(b1.msg, o, Cc);
      var b2 := CopyStage(b1.msg, o, Cc);
      if b2.error.None? {
        CopyStageFacts(b2.msg, o, Bcc);
      }
    }
  }

  // ---------------------------------------------------------------------------
  // Attachments
  // ---------------------------------------------------------------------------

  /** The positions in `s` whose element satisfies `p`. */
  function Positions<T>(s: seq<T>, p: T -> bool): set<int> {
    set i | 0 <= i < |s| && p(s[i])
  }

  /** Extending a sequence by one element adds its position exactly when the element qualifies. */
  lemma PositionsSnoc<T>(s: seq<T>, p: T -> bool)
    requires s != []
    ensures |Positions(s, p)| == |Positions(s[..|s| - 1], p)| + (if p(s[|s| - 1]) then 1 else 0)
  {
    var n := |s| - 1;
    var init := s[..n];
    assert forall i :: 0 <= i < n ==> init[i] == s[i];
    if p(s[n]) {
      assert Positions(s, p) == Positions(init, p) + {n};
    } else {
      assert Positions(s, p) == Positions(init, p);
    }
  }

  /** The positions of the uploaded resources among the form values. */
  function ResourcePositions(values: seq<FormValue>): set<int> {
    Positions(values, (v: FormValue) => v.PersistentResource?)
  }

  /** The positions of the configurations that set `resource`. */
  function ConfiguredPositions(configs: seq<Value>): set<int> {
    Positions(configs, (c: Value) => IsSet(c, "resource"))
  }

  /** One attachment per uploaded resource. */
  lemma {:induction false} ResourceAttachmentCount(values: seq<FormValue>)
    ensures |ResourceAttachments(values)| == |ResourcePositions(values)|
    decreases |values|
  {
    if values != [] {
      ResourceAttachmentCount(values[..|values| - 1]);
      PositionsSnoc(values, (v: FormValue) => v.PersistentResource?);
    }
  }

  /** One attachment per configuration that sets `resource`; the others are skipped. */
  lemma {:induction false} ConfiguredAttachmentCount(configs: seq<Value>, encodedFile: string -> string)
    ensures |ConfiguredAttachments(configs, encodedFile)| == |ConfiguredPositions(configs)|
    decreases |configs|
  {
    if configs != [] {
      ConfiguredAttachmentCount(configs[..|configs| - 1], encodedFile);
      PositionsSnoc(configs, (c: Value) => IsSet(c, "resource"));
    }
  }

  /**
   * A built message has (the number of uploaded resources, when
   * `attachAllPersistentResources` is truthy, else 0) plus (the number of
   * configurations that set `resource`) attachments, the uploaded ones first.
   */
  lemma AttachmentCount(o: map<string, Value>, body: string, values: seq<FormValue>, encodedFile: string -> string)
    requires Buildable(o)
    ensures var b := Assemble(o, body, values, encodedFile); var configs := Opt(o, "attachments");
      && |b.msg.attachments| ==
           (if Truthy(Opt(o, "attachAllPersistentResources")) then |ResourcePositions(values)| else 0) +
           (if configs.Arr? then |ConfiguredPositions(Elements(configs))| else 0)
      && (forall a :: a in b.msg.attachments && a.mediaType == None && a.filename.Some? ==> '/' !in a.filename.value)
  {
    BuildSucceedsExactly(o, body, values, encodedFile);
    AssembleSteps(o, body, values, encodedFile);
    var b1 := ToStage(Headed(o), o);
    ToStageTouchesOnlyTos(Headed(o), o);
    CopyStageFacts(b1.msg, o, Cc);
    var b2 := CopyStage(b1.msg, o, Cc);
    CopyStageFacts(b2.msg, o, Bcc);
    FinishFacts(CopyStage(b2.msg, o, Bcc).msg, o, body, values, encodedFile);
    ResourceAttachmentCount(values);
    var configs := Opt(o, "attachments");
    if configs.Arr? {
      ConfiguredAttachmentCount(Elements(configs), encodedFile);
    }
  }

  /** A configured attachment with a scalar `resource` is named by the text after the last slash of its path, or the whole path. */
  lemma ConfiguredAttachmentName(config: Value, encodedFile: string -> string)
    requires IsSet(config, "resource") && !Lookup(config, "resource").Arr?
    ensures var a := ConfiguredAttachment(config, encodedFile); var path := ResourcePath(config);
      && |a| == 1 && a[0].mediaType == None && a[0].content == encodedFile(path)
      && a[0].filename.Some? && var name := a[0].filename.value;
      && '/' !in name
      && path == path[..|path| - |name|] + name
      && (name == path <==> '/' !in path)
      && (name != path ==> path[|path| - |name| - 1] == '/')
  {
  }

  /** A configured attachment whose `resource` is an array is still added: empty content, no media type, no file name. */
  lemma ArrayResourceAttachment(config: Value, encodedFile: string -> string)
    requires IsSet(config, "resource") && Lookup(config, "resource").Arr?
    ensures var a := ConfiguredAttachment(config, encodedFile);
      |a| == 1 && a[0].content == "" && a[0].mediaType == None && a[0].filename == None
  {
  }

  // ---------------------------------------------------------------------------
  // The send decision
  // ---------------------------------------------------------------------------

  /** Nothing is sent exactly when `testMode` is the boolean `true`; a truthy non-boolean still sends. */
  lemma TestModeIsStrict(testMode: Value, t: Transport)
    ensures Deliver(testMode, t).sent <==> testMode != Bool(true)
    ensures !Deliver(testMode, t).sent ==> Deliver(testMode, t) == Delivery(false, None, Pass)
    ensures Deliver(Int(1), t).sent && Deliver(Str("1"), t).sent
  {
  }

  /** The as-written guard holds for every status code. */
  lemma StatusGuardAlwaysHolds(code: int)
    ensures StatusGuard(code)
  {
  }

  /**
   * `json_decode` without `true` never yields an array listing errors: a JSON object
   * becomes a `stdClass` object, and a JSON array's keys are all integers, so it has
   * no `errors` key.
   */
  lemma PlainDecodeListsNoErrors(b: Body)
    ensures !ListsErrors(b, false)
    ensures b.JsonObject? ==> DecodedArray(b, false).None?
  {
    if b.JsonArray? {
      var d := DecodedArray(b, false).value;
      assert forall i :: 0 <= i < |d.entries| ==> d.entries[i].key == IntKey(i);
    }
  }

  /**
   * Every answer is kept, and none fails the run, whatever its status code and body:
   * the always-true guard lets every answer through to a body check that never holds.
   */
  lemma NoAnswerFails(testMode: Value, r: Response)
    requires testMode != Bool(true)
    ensures Deliver(testMode, Responds(r)) == Delivery(true, Some(r), Pass)
  {
    PlainDecodeListsNoErrors(r.body);
  }

  /** An exception from the send is rethrown as SendgridFinisherException with the same message. */
  lemma SendExceptionRewrapped(testMode: Value, message: string, code: int)
    requires testMode != Bool(true)
    ensures Deliver(testMode, Raises(message, code)) ==
      Delivery(true, None, Fail(Exception(SendgridFinisherException, message, 0)))
  {
  }

  /** A SendGrid error answer: a JSON object whose `errors` member lists one error. */
  const ErrorBody := JsonObject([Entry(StrKey("errors"), Arr([Entry(IntKey(0), Str("invalid request"))]))])

  /**
   * As written, a 400 answer whose body lists an error passes the run, although the
   * body does list errors once decoded as an array; the corrected decision fails it.
   */
  lemma ErrorAnswerPasses()
    ensures ListsErrors(ErrorBody, true) && !ListsErrors(ErrorBody, false)
    ensures Deliver(Bool(false), Responds(Response(400, ErrorBody))).outcome == Pass
    ensures CorrectedDeliver(Bool(false), Responds(Response(400, ErrorBody))).outcome
         == Fail(Exception(SendgridFinisherException, ProviderErrorsMessage, 0))
  {
    assert FindKey(ErrorBody.members, StrKey("errors")) == Some(0);
    NoAnswerFails(Bool(false), Response(400, ErrorBody));
  }

  /** With the corrected guard, a success code never fails the run. */
  lemma CorrectedAcceptsSuccess(testMode: Value, r: Response)
    requires IsSuccessStatus(r.statusCode)
    ensures CorrectedDeliver(testMode, Responds(r)).outcome == Pass
  {
  }

  /**
   * The corrected decision fails a non-success answer exactly when its body, decoded
   * as an array, lists errors; it rethrows with the provider-errors message and code 0.
   */
  lemma CorrectedRejectsListedErrors(testMode: Value, r: Response)
    requires testMode != Bool(true) && !IsSuccessStatus(r.statusCode)
    ensures CorrectedDeliver(testMode, Responds(r)).outcome.Fail? <==> ListsErrors(r.body, true)
    ensures CorrectedDeliver(testMode, Responds(r)).outcome.Fail? ==>
      CorrectedDeliver(testMode, Responds(r)).outcome.error == Exception(SendgridFinisherException, ProviderErrorsMessage, 0)
  {
  }

  /** The corrected and as-written decisions differ exactly on a non-success answer whose body lists errors. */
  lemma CorrectedDiffersExactly(testMode: Value, t: Transport)
    ensures CorrectedDeliver(testMode, t) != Deliver(testMode, t) <==>
      testMode != Bool(true) && t.Responds? && !IsSuccessStatus(t.response.statusCode) && ListsErrors(t.response.body, true)
  {
    if testMode != Bool(true) && t.Responds? {
      NoAnswerFails(testMode, t.response);
    }
  }
}
