/**
 * The single-recipient finisher (Classes/Finishers/SingleEmailFinisher.php):
 * per form submission it builds a SendGrid message whose recipient entries carry
 * their own substitutions and subject, and either dumps it (test mode) or sends it
 * without looking at the answer. It adds no attachments and applies no tracking
 * settings.
 */
module SingleEmailFinisher {
  import opened Wrappers
  import opened Php
  import opened SendGridMail
  import opened FinisherBase

  /** The finisher's `defaultOptions`. */
  const DefaultOptions: map<string, Value> := map[
    "recipientName" := Str(""),
    "senderName" := Str(""),
    "format" := Str(PlaintextFormat),
    "attachAllPersistentResources" := Bool(false),
    "attachments" := Arr([]),
    "testMode" := Bool(false)]

  /** `parseOption(name)` as this finisher sees it. */
  function Opt(o: map<string, Value>, name: string): Value {
    Resolve(o, DefaultOptions, name)
  }

  // ---------------------------------------------------------------------------
  // Specification of the message, stage by stage
  // ---------------------------------------------------------------------------

  /** The address built from one list entry: email, name, substitutions and subject, each null when absent. */
  function EntryAddress(entry: Value): EmailAddress {
    EmailAddress(Lookup(entry, "email"), Lookup(entry, "name"), Lookup(entry, "substitutions"), Lookup(entry, "subject"))
  }

  /** Every loop of this finisher throws the framework's exception for an entry without `email`. */
  const MissingEmail := Exception(FinisherException, MissingEmailMessage, 0)

  /** A fresh message with sender and subject set. */
  function Headed(o: map<string, Value>): Message {
    EmptyMessage.(
      from := Some(EmailAddress(Opt(o, "senderAddress"), Opt(o, "senderName"), Null, Null)),
      subject := Some(Opt(o, "subject")))
  }

  /** The To stage: the `recipients` array when it is one, else the scalar address and name, unchecked. */
  function ToStage(m: Message, o: map<string, Value>): Built {
    var recipients := Opt(o, "recipients");
    if recipients.Arr? then AddEntriesSpec(m, To, Elements(recipients), EntryAddress, MissingEmail)
    else Built(m.Added(To, [EmailAddress(Opt(o, "recipientAddress"), Opt(o, "recipientName"), Null, Null)]), None)
  }

  /** The list option that feeds Cc or Bcc. */
  function ListOption(f: Field): string
    requires f != To
  {
    if f == Cc then "carbonCopyRecipients" else "blindCarbonCopyRecipients"
  }

  /** The Cc or Bcc stage: one address per list entry; no scalar address. */
  function ListStage(m: Message, o: map<string, Value>, f: Field): Built
    requires f != To
  {
    var list := Opt(o, ListOption(f));
    if list.Arr? then AddEntriesSpec(m, f, Elements(list), EntryAddress, MissingEmail)
    else Built(m, None)
  }

  /** Reply-to, template id, headers and substitutions. */
  function OptionalStage(m: Message, o: map<string, Value>): Message {
    OptionalFields(m, Opt(o, "replyToAddress"), Opt(o, "templateId"), Opt(o, "additionalHeaders"), Opt(o, "substitutions"))
  }

  /** The single content part. */
  function ContentStage(m: Message, o: map<string, Value>, body: string): Message {
    WithContent(m, Opt(o, "format"), body)
  }

  /** The whole message as `executeInternal` builds it, up to the first exception. */
  function Assemble(o: map<string, Value>, body: string): Built {
    var b1 := ToStage(Headed(o), o);
    if b1.error.Some? then b1 else
    var b2 := ListStage(b1.msg, o, Cc);
    if b2.error.Some? then b2 else
    var b3 := ListStage(b2.msg, o, Bcc);
    if b3.error.Some? then b3 else
    Built(ContentStage(OptionalStage(b3.msg, o), o, body), None)
  }

  /** Test mode for any truthy `testMode`; otherwise one send, whose answer is not looked at and whose exceptions pass through. */
  function Deliver(testMode: Value, t: Transport): Delivery {
    if Truthy(testMode) then Delivery(false, None, Pass)
    else match t
      case Raises(message, code) => Delivery(true, None, Fail(Exception(SdkException, message, code)))
      case Responds(_) => Delivery(true, None, Pass)
  }

  /**
   * The send decision with the catch the code evidently intends: an exception from the
   * send is rethrown as the framework's FinisherException with the same message.
   */
  function CorrectedDeliver(testMode: Value, t: Transport): Delivery {
    if Truthy(testMode) then Delivery(false, None, Pass)
    else match t
      case Raises(message, _) => Delivery(true, None, Fail(Exception(FinisherException, message, 0)))
      case Responds(_) => Delivery(true, None, Pass)
  }

  // ---------------------------------------------------------------------------
  // The per-entry step and the finisher object
  // ---------------------------------------------------------------------------

  /** One entry made into an address; missing `name`, `substitutions` and `subject` are first set to null in the entry. */
  method EntryToAddress(entry: Value) returns (a: EmailAddress)
    requires HasEmail(entry)
    ensures a == EntryAddress(entry)
  {
    var recipient := entry;
    if !KeyExists(recipient, "name") {
      NullFillKeepsReads(recipient, "name");
      recipient := SetKey(recipient, "name", Null);
    }
    if !KeyExists(recipient, "substitutions") {
      NullFillKeepsReads(recipient, "substitutions");
      recipient := SetKey(recipient, "substitutions", Null);
    }
    if !KeyExists(recipient, "subject") {
      NullFillKeepsReads(recipient, "subject");
      recipient := SetKey(recipient, "subject", Null);
    }
    assert forall k :: Lookup(recipient, k) == Lookup(entry, k);
    a := EmailAddress(Lookup(recipient, "email"), Lookup(recipient, "name"),
                      Lookup(recipient, "substitutions"), Lookup(recipient, "subject"));
  }

  /** One pass of a recipient `foreach` for an entry that has `email`: its address joins list `f`. */
  method AppendEntry(mail: Mail, f: Field, entry: Value)
    requires HasEmail(entry)
    modifies mail
    ensures mail.Snapshot() == old(mail.Snapshot()).Added(f, [EntryAddress(entry)])
  {
    var a := EntryToAddress(entry);
    AppendTo(mail, f, a);
  }

  /** The body of one recipient `foreach`: each entry is checked, completed and appended to list `f`. */
  method AppendEntries(mail: Mail, f: Field, entries: seq<Value>) returns (error: Option<Exception>)
    modifies mail
    ensures var b := AddEntriesSpec(old(mail.Snapshot()), f, entries, EntryAddress, MissingEmail);
      mail.Snapshot() == b.msg && error == b.error
  {
    ghost var m0 := mail.Snapshot();
    var i := 0;
    while i < |entries|
      invariant i <= |entries|
      invariant forall j :: 0 <= j < i ==> HasEmail(entries[j])
      invariant mail.Snapshot() == m0.Added(f, MapAddresses(EntryAddress, entries[..i]))
    {
      if !KeyExists(entries[i], "email") {
        AddEntriesStops(m0, f, entries, EntryAddress, MissingEmail, i);
        return Some(MissingEmail);
      }
      AppendEntry(mail, f, entries[i]);
      AddEntriesStep(m0, f, entries, EntryAddress, i);
      i := i + 1;
    }
    AddEntriesCompletes(m0, f, entries, EntryAddress, MissingEmail);
    return None;
  }

  class SingleEmailFinisher {
    /** The injected API key; this finisher never checks it. */
    const apiKey: Value
    /** The finisher's configured options. */
    const options: map<string, Value>
    var email: Mail?

    constructor (apiKey: Value, options: map<string, Value>)
      ensures this.apiKey == apiKey && this.options == options && email == null
    {
      this.apiKey, this.options := apiKey, options;
      email := null;
    }

    /**
     * `executeInternal` from the rendered body on: builds a new message, and when
     * nothing was thrown, sends it or not.
     */
    method ExecuteInternal(body: string, transport: Transport) returns (outcome: Outcome<Exception>, sent: bool)
      modifies this
      ensures email != null && fresh(email)
      ensures var b := Assemble(options, body);
        && email.Snapshot() == b.msg
        && (b.error.Some? ==> outcome == Fail(b.error.value) && !sent)
        && (b.error.None? ==>
              var d := Deliver(Opt(options, "testMode"), transport);
              outcome == d.outcome && sent == d.sent)
    {
      email := new Mail();
      email.SetFrom(Opt(options, "senderAddress"), Opt(options, "senderName"));
      email.SetSubject(Opt(options, "subject"));
      assert email.Snapshot() == Headed(options);
      var error := AddRecipients();
      if error.Some? {
        return Fail(error.value), false;
      }
      error := AddList(Cc);
      if error.Some? {
        return Fail(error.value), false;
      }
      error := AddList(Bcc);
      if error.Some? {
        return Fail(error.value), false;
      }
      SetOptionalFields(email, Opt(options, "replyToAddress"), Opt(options, "templateId"),
                        Opt(options, "additionalHeaders"), Opt(options, "substitutions"));
      AddContentPart(email, Opt(options, "format"), body);
      outcome, sent := Send(transport);
    }

    /** The To stage. */
    method AddRecipients() returns (error: Option<Exception>)
      requires email != null
      modifies email
      ensures var b := ToStage(old(email.Snapshot()), options); email.Snapshot() == b.msg && error == b.error
    {
      var recipients := Opt(options, "recipients");
      if recipients.Arr? {
        error := AppendEntries(email, To, Elements(recipients));
      } else {
        email.AddTo(EmailAddress(Opt(options, "recipientAddress"), Opt(options, "recipientName"), Null, Null));
        error := None;
      }
    }

    /** The Cc or the Bcc stage. */
    method AddList(f: Field) returns (error: Option<Exception>)
      requires email != null && f != To
      modifies email
      ensures var b := ListStage(old(email.Snapshot()), options, f); email.Snapshot() == b.msg && error == b.error
    {
      var list := Opt(options, ListOption(f));
      if list.Arr? {
        error := AppendEntries(email, f, Elements(list));
      } else {
        error := None;
      }
    }

    /** The test-mode check and the send. */
    method Send(transport: Transport) returns (outcome: Outcome<Exception>, sent: bool)
      ensures var d := Deliver(Opt(options, "testMode"), transport); outcome == d.outcome && sent == d.sent
    {
      if Truthy(Opt(options, "testMode")) {
        // the message is dumped for inspection instead of being sent
        outcome, sent := Pass, false;
      } else {
        sent := true;
        match transport {
          case Raises(message, code) =>
            outcome := Fail(Exception(SdkException, message, code));
          case Responds(_) =>
            outcome := Pass;
        }
      }
    }
  }
}
