/**
 * The multi-recipient finisher (Classes/Finishers/EmailFinisher.php): checks the
 * API key when the object is set up, then per form submission builds a SendGrid
 * message from the resolved options and either dumps it (test mode) or sends it
 * and inspects the answer.
 */
module EmailFinisher {
  import opened Wrappers
  import opened Php
  import opened Paths
  import opened SendGridMail
  import opened FinisherBase

  const NoRecipientMessage := "You need to add at least one recipient!"
  const ApiKeyMessage := "You neet to set an API key in Gmedia.SendgridFinisher.apiKey"
  const ApiKeyCode := 1556031609884
  const ProviderErrorsMessage := "SendGrid returned errors for your request. Please check your finisher configuration!"
  const ProviderErrorsCode := 1556031947996

  /** The finisher's `defaultOptions`. */
  const DefaultOptions: map<string, Value> := map[
    "recipientName" := Str(""),
    "senderName" := Str(""),
    "format" := Str(PlaintextFormat),
    "attachAllPersistentResources" := Bool(false),
    "attachments" := Arr([]),
    "testMode" := Bool(false)]

  /** `parseOption(name)` as this finisher sees it. */
  function Opt(o: map<string, Value>, name: string): Value {
    Resolve(o, DefaultOptions, name)
  }

  // ---------------------------------------------------------------------------
  // Specification of the message, stage by stage
  // ---------------------------------------------------------------------------

  /** The address built from one list entry: its email and its name, each null when absent. */
  function EntryAddress(entry: Value): EmailAddress {
    EmailAddress(Lookup(entry, "email"), Lookup(entry, "name"), Null, Null)
  }

  /** The exception for a list entry without `email`: the To loop throws its own class, the Cc and Bcc loops the framework's. */
  function MissingEmail(f: Field): Exception {
    if f == To then Exception(SendgridFinisherException, MissingEmailMessage, 0)
    else Exception(FinisherException, MissingEmailMessage, 0)
  }

  /** A fresh message with sender and subject set. */
  function Headed(o: map<string, Value>): Message {
    EmptyMessage.(
      from := Some(EmailAddress(Opt(o, "senderAddress"), Opt(o, "senderName"), Null, Null)),
      subject := Some(Opt(o, "subject")))
  }

  /** Both `recipientName` and `recipientAddress` have a non-empty string form. */
  predicate ScalarRecipient(o: map<string, Value>) {
    NonEmptyString(Opt(o, "recipientName")) && NonEmptyString(Opt(o, "recipientAddress"))
  }

  /** The To stage: the scalar pair wins over the `recipients` array; with neither, the run fails. */
  function ToStage(m: Message, o: map<string, Value>): Built {
    var recipients := Opt(o, "recipients");
    if ScalarRecipient(o) then
      Built(m.Added(To, [EmailAddress(Opt(o, "recipientAddress"), Opt(o, "recipientName"), Null, Null)]), None)
    else if recipients.Arr? then
      AddEntriesSpec(m, To, Elements(recipients), EntryAddress, MissingEmail(To))
    else
      Built(m, Some(Exception(SendgridFinisherException, NoRecipientMessage, 0)))
  }

  /** The option names (address, name, list) that feed the Cc or the Bcc stage. */
  function CopyOptions(f: Field): (string, string, string)
    requires f != To
  {
    if f == Cc then ("carbonCopyAddress", "carbonCopyName", "carbonCopyRecipients")
    else ("blindCarbonCopyAddress", "blindCarbonCopyName", "blindCarbonCopyRecipients")
  }

  /** The first half of a Cc or Bcc stage: the scalar address, added only when it is a non-empty string. */
  function ScalarCopy(m: Message, o: map<string, Value>, f: Field): Message
    requires f != To
  {
    var address := Opt(o, CopyOptions(f).0);
    if NonEmptyString(address) then m.Added(f, [EmailAddress(address, Opt(o, CopyOptions(f).1), Null, Null)]) else m
  }

  /** The Cc or Bcc stage: first the scalar address, then every list entry. */
  function CopyStage(m: Message, o: map<string, Value>, f: Field): Built
    requires f != To
  {
    var m1 := ScalarCopy(m, o, f);
    var list := Opt(o, CopyOptions(f).2);
    if list.Arr? then AddEntriesSpec(m1, f, Elements(list), EntryAddress, MissingEmail(f))
    else Built(m1, None)
  }

  /** Reply-to, template id, headers and substitutions. */
  function OptionalStage(m: Message, o: map<string, Value>): Message {
    OptionalFields(m, Opt(o, "replyToAddress"), Opt(o, "templateId"), Opt(o, "additionalHeaders"), Opt(o, "substitutions"))
  }

  /** The single content part. */
  function ContentStage(m: Message, o: map<string, Value>, body: string): Message {
    WithContent(m, Opt(o, "format"), body)
  }

  /** The attachment for one uploaded resource, or none for any other form value. */
  function ResourceAttachment(v: FormValue): seq<Attachment> {
    match v
    case PersistentResource(stream, mediaType, filename) => [Attachment(stream, Some(mediaType), Some(filename))]
    case OtherValue(_) => []
  }

  /** One attachment per uploaded resource among the form values, in order, each keeping its media type. */
  function ResourceAttachments(values: seq<FormValue>): (r: seq<Attachment>)
    ensures forall a :: a in r ==> a.mediaType.Some?
    decreases |values|
  {
    if values == [] then []
    else ResourceAttachments(values[..|values| - 1]) + ResourceAttachment(values[|values| - 1])
  }

  /** The path named by a configuration's `resource`. */
  function ResourcePath(config: Value): string {
    ToPhpString(Lookup(config, "resource"))
  }

  /**
   * The attachment for one `attachments` configuration: the encoded file at its
   * `resource` path, no media type, and the path's last segment as file name; none
   * when `resource` is not set. An array-valued `resource` makes `file_get_contents`,
   * `explode` and `end` warn and return null under PHP 7, so the attachment is the
   * base64 encoding of null (the empty string) with no file name.
   */
  function ConfiguredAttachment(config: Value, encodedFile: string -> string): seq<Attachment> {
    if !IsSet(config, "resource") then []
    else if Lookup(config, "resource").Arr? then [Attachment("", None, None)]
    else
      var path := ResourcePath(config);
      [Attachment(encodedFile(path), None, Some(Basename(path)))]
  }

  /** One attachment per configuration that sets `resource`, in order; none has a media type or a slash in its name. */
  function ConfiguredAttachments(configs: seq<Value>, encodedFile: string -> string): (r: seq<Attachment>)
    ensures forall a :: a in r ==> a.mediaType == None && (a.filename.Some? ==> '/' !in a.filename.value)
    decreases |configs|
  {
    if configs == [] then []
    else ConfiguredAttachments(configs[..|configs| - 1], encodedFile) + ConfiguredAttachment(configs[|configs| - 1], encodedFile)
  }

  /** The attachment stage: uploaded resources when `attachAllPersistentResources` is truthy, then configured files. */
  function AttachmentStage(m: Message, o: map<string, Value>, values: seq<FormValue>, encodedFile: string -> string): Message {
    var fromForm := if Truthy(Opt(o, "attachAllPersistentResources")) then ResourceAttachments(values) else [];
    var configs := Opt(o, "attachments");
    var fromConfig := if configs.Arr? then ConfiguredAttachments(Elements(configs), encodedFile) else [];
    m.(attachments := m.attachments + fromForm + fromConfig)
  }

  /** The whole message as `executeInternal` builds it, up to the first exception. */
  function Assemble(o: map<string, Value>, body: string, values: seq<FormValue>, encodedFile: string -> string): Built {
    var b1 := ToStage(Headed(o), o);
    if b1.error.Some? then b1 else
    var b2 := CopyStage(b1.msg, o, Cc);
    if b2.error.Some? then b2 else
    var b3 := CopyStage(b2.msg, o, Bcc);
    if b3.error.Some? then b3 else
    Built(AttachmentStage(ContentStage(OptionalStage(b3.msg, o), o, body), o, values, encodedFile), None)
  }

  // ---------------------------------------------------------------------------
  // The send decision
  // ---------------------------------------------------------------------------

  /** The guard before the body check, as written: the code differs from 200 or it differs from 202. */
  predicate StatusGuard(code: int) {
    code != 200 || code != 202
  }

  /** What the catch-all around the send rethrows: this finisher's exception with the same message and code 0. */
  function Rewrapped(e: Exception): Exception {
    Exception(SendgridFinisherException, e.message, 0)
  }

  /**
   * Test mode only for exactly `true`; otherwise send, keep the response, and fail if
   * the body, decoded without `true` (so a JSON object is no array), lists errors.
   */
  function Deliver(testMode: Value, t: Transport): Delivery {
    if testMode == Bool(true) then Delivery(false, None, Pass)
    else match t
      case Raises(message, code) =>
        Delivery(true, None, Fail(Rewrapped(Exception(SdkException, message, code))))
      case Responds(r) =>
        if StatusGuard(r.statusCode) && ListsErrors(r.body, false) then
          Delivery(true, Some(r), Fail(Rewrapped(Exception(SendgridFinisherException, ProviderErrorsMessage, ProviderErrorsCode))))
        else Delivery(true, Some(r), Pass)
  }

  /** The success codes SendGrid answers with: 200 and 202. */
  predicate IsSuccessStatus(code: int) {
    code == 200 || code == 202
  }

  /**
   * The send decision the code evidently intends: inspect the body only for a
   * non-success code, decoding JSON objects as arrays (`json_decode($body, true)`).
   */
  function CorrectedDeliver(testMode: Value, t: Transport): Delivery {
    if testMode == Bool(true) then Delivery(false, None, Pass)
    else match t
      case Raises(message, code) =>
        Delivery(true, None, Fail(Rewrapped(Exception(SdkException, message, code))))
      case Responds(r) =>
        if !IsSuccessStatus(r.statusCode) && ListsErrors(r.body, true) then
          Delivery(true, Some(r), Fail(Rewrapped(Exception(SendgridFinisherException, ProviderErrorsMessage, ProviderErrorsCode))))
        else Delivery(true, Some(r), Pass)
  }

  // ---------------------------------------------------------------------------
  // The loops over one list, on a given message object
  // ---------------------------------------------------------------------------

  /** One entry of a recipient list made into an address; a missing `name` is first set to null in the entry. */
  method EntryToAddress(entry: Value) returns (a: EmailAddress)
    requires HasEmail(entry)
    ensures a == EntryAddress(entry)
  {
    var recipient := entry;
    if !KeyExists(recipient, "name") {
      recipient := SetKey(recipient, "name", Null);
    }
    a := EmailAddress(Lookup(recipient, "email"), Lookup(recipient, "name"), Null, Null);
  }

  /** The first loop of `addAttachments`: every uploaded resource among the form values. */
  method AddResourceAttachments(mail: Mail, values: seq<FormValue>)
    modifies mail
    ensures mail.Snapshot() == old(mail.Snapshot()).(attachments := old(mail.attachments) + ResourceAttachments(values))
  {
    var i := 0;
    while i < |values|
      invariant i <= |values|
      invariant mail.Snapshot() == old(mail.Snapshot()).(attachments := old(mail.attachments) + ResourceAttachments(values[..i]))
    {
      match values[i] {
        case PersistentResource(stream, mediaType, filename) =>
          mail.AddAttachment(stream, Some(mediaType), Some(filename));
        case OtherValue(_) =>
      }
      assert values[..i + 1][..i] == values[..i];
      i := i + 1;
    }
    assert values[..i] == values;
  }

  /** One more configuration contributes exactly its own attachment. */
  lemma ConfiguredAttachmentsSnoc(configs: seq<Value>, j: nat, encodedFile: string -> string)
    requires j < |configs|
    ensures ConfiguredAttachments(configs[..j + 1], encodedFile)
         == ConfiguredAttachments(configs[..j], encodedFile) + ConfiguredAttachment(configs[j], encodedFile)
  {
    assert configs[..j + 1][..j] == configs[..j];
  }

  /** One pass of the second loop: a configuration with `resource` set adds the encoded file under its last path segment. */
  method AddConfiguredAttachment(mail: Mail, config: Value, encodedFile: string -> string)
    modifies mail
    ensures mail.Snapshot() == old(mail.Snapshot()).(attachments := old(mail.attachments) + ConfiguredAttachment(config, encodedFile))
  {
    if IsSet(config, "resource") {
      var resource := Lookup(config, "resource");
      var fileEncoded: string, fileName: Option<string>;
      if resource.Arr? {
        // PHP 7: file_get_contents, explode and end give null for an array
        fileEncoded, fileName := "", None;
      } else {
        var path := ToPhpString(resource);
        fileEncoded := encodedFile(path);
        var pieces := Explode(path);
        fileName := Some(pieces[|pieces| - 1]);
        assert path == ResourcePath(config) && fileName.value == Basename(path);
      }
      assert ConfiguredAttachment(config, encodedFile) == [Attachment(fileEncoded, None, fileName)];
      mail.AddAttachment(fileEncoded, None, fileName);
    } else {
      assert ConfiguredAttachment(config, encodedFile) == [];
    }
  }

  /** The second loop of `addAttachments`: every configuration with `resource` set. */
  method AddConfiguredAttachments(mail: Mail, configs: seq<Value>, encodedFile: string -> string)
    modifies mail
    ensures mail.Snapshot() == old(mail.Snapshot()).(attachments := old(mail.attachments) + ConfiguredAttachments(configs, encodedFile))
  {
    var j := 0;
    while j < |configs|
      invariant j <= |configs|
      invariant mail.Snapshot() == old(mail.Snapshot()).(attachments := old(mail.attachments) + ConfiguredAttachments(configs[..j], encodedFile))
    {
      AddConfiguredAttachment(mail, configs[j], encodedFile);
      ConfiguredAttachmentsSnoc(configs, j, encodedFile);
      j := j + 1;
    }
    assert configs[..j] == configs;
  }

  // ---------------------------------------------------------------------------
  // The finisher object
  // ---------------------------------------------------------------------------

  class EmailFinisher {
    /** The package settings (injected configuration). */
    const settings: map<string, Value>
    /** The finisher's configured options. */
    const options: map<string, Value>
    var apiKey: Value
    var email: Mail?
    var response: Option<Response>

    constructor (settings: map<string, Value>, options: map<string, Value>)
      ensures this.settings == settings && this.options == options
      ensures apiKey == Str("") && email == null && response == None
    {
      this.settings, this.options := settings, options;
      apiKey, email, response := Str(""), null, None;
    }

    /** `initializeObject`: keeps the configured API key, or throws when it is missing or empty. */
    method InitializeObject() returns (outcome: Outcome<Exception>)
      modifies this`apiKey
      ensures outcome.Pass? <==> "apiKey" in settings && NonEmptyString(settings["apiKey"])
      ensures outcome.Pass? ==> apiKey == settings["apiKey"]
      ensures outcome.Fail? ==> apiKey == old(apiKey)
      ensures outcome.Fail? ==> outcome.error == Exception(SendgridFinisherException, ApiKeyMessage, ApiKeyCode)
    {
      if "apiKey" in settings && NonEmptyString(settings["apiKey"]) {
        apiKey := settings["apiKey"];
        outcome := Pass;
      } else {
        outcome := Fail(Exception(SendgridFinisherException, ApiKeyMessage, ApiKeyCode));
      }
    }

    /**
     * `executeInternal` from the rendered body on: builds a new message, and when
     * nothing was thrown, sends it or not.
     */
    method ExecuteInternal(body: string, values: seq<FormValue>, encodedFile: string -> string, transport: Transport)
      returns (outcome: Outcome<Exception>, sent: bool)
      modifies this
      ensures email != null && fresh(email) && apiKey == old(apiKey)
      ensures var b := Assemble(options, body, values, encodedFile);
        && email.Snapshot() == b.msg
        && (b.error.Some? ==> outcome == Fail(b.error.value) && !sent && response == old(response))
        && (b.error.None? ==>
              var d := Deliver(Opt(options, "testMode"), transport);
              outcome == d.outcome && sent == d.sent &&
              response == if d.response.Some? then d.response else old(response))
    {
      email := new Mail();
      email.SetFrom(Opt(options, "senderAddress"), Opt(options, "senderName"));
      email.SetSubject(Opt(options, "subject"));
      assert email.Snapshot() == Headed(options);
      var error := AddRecipients();
      if error.Some? {
        return Fail(error.value), false;
      }
      error := AddCopies(Cc);
      if error.Some? {
        return Fail(error.value), false;
      }
      error := AddCopies(Bcc);
      if error.Some? {
        return Fail(error.value), false;
      }
      SetOptionalFields(email, Opt(options, "replyToAddress"), Opt(options, "templateId"),
                        Opt(options, "additionalHeaders"), Opt(options, "substitutions"));
      AddContentPart(email, Opt(options, "format"), body);
      AddAttachments(values, encodedFile);
      outcome, sent := Send(transport);
    }

    /** The To stage. */
    method AddRecipients() returns (error: Option<Exception>)
      requires email != null
      modifies email
      ensures var b := ToStage(old(email.Snapshot()), options); email.Snapshot() == b.msg && error == b.error
    {
      var recipients := Opt(options, "recipients");
      var recipientName := Opt(options, "recipientName");
      var recipientAddress := Opt(options, "recipientAddress");
      if NonEmptyString(recipientName) && NonEmptyString(recipientAddress) {
        email.AddTo(EmailAddress(recipientAddress, recipientName, Null, Null));
        error := None;
      } else if recipients.Arr? {
        error := AddEntries(To, Elements(recipients));
      } else {
        error := Some(Exception(SendgridFinisherException, NoRecipientMessage, 0));
      }
    }

    /** The Cc or the Bcc stage. */
    method AddCopies(f: Field) returns (error: Option<Exception>)
      requires email != null && f != To
      modifies email
      ensures var b := CopyStage(old(email.Snapshot()), options, f); email.Snapshot() == b.msg && error == b.error
    {
      var (addressOption, nameOption, listOption) := CopyOptions(f);
      var address := Opt(options, addressOption);
      if NonEmptyString(address) {
        var a := EmailAddress(address, Opt(options, nameOption), Null, Null);
        if f == Cc {
          email.AddCc(a);
        } else {
          email.AddBcc(a);
        }
      }
      var list := Opt(options, listOption);
      if list.Arr? {
        error := AddEntries(f, Elements(list));
      } else {
        error := None;
      }
    }

    /** One `foreach` over a recipient list. */
    method AddEntries(f: Field, entries: seq<Value>) returns (error: Option<Exception>)
      requires email != null
      modifies email
      ensures var b := AddEntriesSpec(old(email.Snapshot()), f, entries, EntryAddress, MissingEmail(f));
        email.Snapshot() == b.msg && error == b.error
    {
      var i := 0;
      while i < |entries|
        invariant i <= |entries|
        invariant forall j :: 0 <= j < i ==> HasEmail(entries[j])
        invariant email.Snapshot() == old(email.Snapshot()).Added(f, MapAddresses(EntryAddress, entries[..i]))
      {
        if !KeyExists(entries[i], "email") {
          AddEntriesStops(old(email.Snapshot()), f, entries, EntryAddress, MissingEmail(f), i);
          return Some(MissingEmail(f));
        }
        var a := EntryToAddress(entries[i]);
        AppendTo(email, f, a);
        AddEntriesStep(old(email.Snapshot()), f, entries, EntryAddress, i);
        i := i + 1;
      }
      AddEntriesCompletes(old(email.Snapshot()), f, entries, EntryAddress, MissingEmail(f));
      return None;
    }

    /** `addAttachments`: uploaded resources, then the configured files. */
    method AddAttachments(values: seq<FormValue>, encodedFile: string -> string)
      requires email != null
      modifies email
      ensures email.Snapshot() == AttachmentStage(old(email.Snapshot()), options, values, encodedFile)
    {
      ghost var m0 := email.Snapshot();
      ghost var fromForm := if Truthy(Opt(options, "attachAllPersistentResources")) then ResourceAttachments(values) else [];
      if Truthy(Opt(options, "attachAllPersistentResources")) {
        AddResourceAttachments(email, values);
      }
      assert email.Snapshot() == m0.(attachments := m0.attachments + fromForm);
      var configs := Opt(options, "attachments");
      ghost var fromConfig := if configs.Arr? then ConfiguredAttachments(Elements(configs), encodedFile) else [];
      if configs.Arr? {
        AddConfiguredAttachments(email, Elements(configs), encodedFile);
      }
      assert email.Snapshot() == m0.(attachments := m0.attachments + fromForm + fromConfig);
    }

    /** The test-mode check, the send and the inspection of the answer. */
    method Send(transport: Transport) returns (outcome: Outcome<Exception>, sent: bool)
      modifies this`response
      ensures var d := Deliver(Opt(options, "testMode"), transport);
        outcome == d.outcome && sent == d.sent &&
        response == if d.response.Some? then d.response else old(response)
    {
      var testMode := Opt(options, "testMode");
      if testMode == Bool(true) {
        // the message is dumped for inspection instead of being sent
        outcome, sent := Pass, false;
      } else {
        sent := true;
        match transport {
          case Raises(message, code) =>
            outcome := Fail(Rewrapped(Exception(SdkException, message, code)));
          case Responds(r) =>
            response := Some(r);
            if StatusGuard(r.statusCode) && ListsErrors(r.body, false) {
              // thrown inside the try block, so the catch-all rethrows it
              outcome := Fail(Rewrapped(Exception(SendgridFinisherException, ProviderErrorsMessage, ProviderErrorsCode)));
            } else {
              outcome := Pass;
            }
        }
      }
    }
  }
}
