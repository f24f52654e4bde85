/**
 * What the two SendGrid finishers share: the exceptions they raise, option
 * resolution with class defaults, the transport's possible answers, and the
 * specification of one recipient-list loop (validate each entry's `email` key,
 * append one address per entry, stop at the first entry without one).
 */
module FinisherBase {
  import opened Wrappers
  import opened Php
  import opened SendGridMail

  /** The exception classes a finisher run can end with. `SdkException` is whatever the SDK's send throws. */
  datatype ExceptionKind = SendgridFinisherException | FinisherException | SdkException

  /** A thrown exception: its class, message and code (0 when the constructor is given none). */
  datatype Exception = Exception(kind: ExceptionKind, message: string, code: int)

  const MissingEmailMessage := "You must at least define an email address for your recipient!"

  /** A submitted form value: an uploaded persistent resource (its stream's bytes, media type, file name) or anything else. */
  datatype FormValue = PersistentResource(stream: string, mediaType: string, filename: string) | OtherValue(v: Value)

  /**
   * What a response body holds as JSON: an object (given as the entries of the array
   * that `json_decode($body, true)` makes of it), an array (its elements), or
   * anything else (a scalar, `null`, or text that is not JSON).
   */
  datatype Body = JsonObject(members: seq<Entry>) | JsonArray(elements: seq<Value>) | OtherBody

  /** What SendGrid answered: the status code and the body. */
  datatype Response = Response(statusCode: int, body: Body)

  /**
   * `json_decode($body, $assoc)` when the result is a PHP array. A JSON array becomes a
   * list keyed 0, 1, ...; a JSON object becomes an array only with `$assoc`, and a
   * `stdClass` object otherwise; anything else decodes to no array.
   */
  function DecodedArray(b: Body, assoc: bool): Option<Value> {
    match b
    case JsonObject(members) => if assoc then Some(Arr(members)) else None
    case JsonArray(elements) => Some(Arr(seq(|elements|, i requires 0 <= i < |elements| => Entry(IntKey(i), elements[i]))))
    case OtherBody => None
  }

  /**
   * The body check after a send: the decoded body is an array that has an `errors`
   * entry whose `sizeof` is positive.
   */
  predicate ListsErrors(b: Body, assoc: bool) {
    match DecodedArray(b, assoc)
    case None => false
    case Some(d) => KeyExists(d, "errors") && Count(Lookup(d, "errors")) > 0
  }

  /** What the SDK's `send` does when called: it answers, or it throws. */
  datatype Transport = Responds(response: Response) | Raises(message: string, code: int)

  /** The send decision: whether `send` was called, the response kept, and how the run ends. */
  datatype Delivery = Delivery(sent: bool, response: Option<Response>, outcome: Outcome<Exception>)

  /** A message as built so far, and the exception that stopped the building, if any. */
  datatype Built = Built(msg: Message, error: Option<Exception>)

  /**
   * An option's value as the finisher reads it: the configured value unless it is
   * absent or null, then the class default, then null.
   */
  function Resolve(options: map<string, Value>, defaults: map<string, Value>, name: string): Value {
    if name in options && options[name] != Null then options[name]
    else if name in defaults then defaults[name]
    else Null
  }

  /** `array_key_exists('email', $recipient)`. */
  predicate HasEmail(entry: Value) {
    KeyExists(entry, "email")
  }

  /** The position of the first entry without an `email` key, or the length when every entry has one. */
  function FirstMissingEmail(entries: seq<Value>): (k: nat)
    ensures k <= |entries|
    ensures forall i :: 0 <= i < k ==> HasEmail(entries[i])
    ensures k < |entries| ==> !HasEmail(entries[k])
  {
    if entries == [] || !HasEmail(entries[0]) then 0
    else
      var k := FirstMissingEmail(entries[1..]);
      assert forall i :: 1 <= i < k + 1 ==> entries[i] == entries[1..][i - 1];
      1 + k
  }

  /** One address per entry, in order. */
  function MapAddresses(conv: Value -> EmailAddress, entries: seq<Value>): seq<EmailAddress> {
    seq(|entries|, i requires 0 <= i < |entries| => conv(entries[i]))
  }

  lemma MapAddressesSnoc(conv: Value -> EmailAddress, entries: seq<Value>, i: nat)
    requires i < |entries|
    ensures MapAddresses(conv, entries[..i + 1]) == MapAddresses(conv, entries[..i]) + [conv(entries[i])]
  {
  }

  /** One more iteration of a recipient loop appends exactly the next entry's address. */
  lemma AddEntriesStep(m: Message, f: Field, entries: seq<Value>, conv: Value -> EmailAddress, i: nat)
    requires i < |entries|
    ensures m.Added(f, MapAddresses(conv, entries[..i])).Added(f, [conv(entries[i])])
         == m.Added(f, MapAddresses(conv, entries[..i + 1]))
  {
    MapAddressesSnoc(conv, entries, i);
    AddedTwice(m, f, MapAddresses(conv, entries[..i]), [conv(entries[i])]);
  }

  /**
   * One `foreach` over a recipient list: entries are appended to list `f` through
   * `conv` until the first entry without `email`, where `failure` is thrown; the
   * entries before it stay appended.
   */
  function AddEntriesSpec(m: Message, f: Field, entries: seq<Value>, conv: Value -> EmailAddress, failure: Exception): Built {
    var k := FirstMissingEmail(entries);
    Built(m.Added(f, MapAddresses(conv, entries[..k])), if k < |entries| then Some(failure) else None)
  }

  /**
   * The loop fails exactly when some entry lacks `email`, and then with `failure`;
   * otherwise it appends one address per entry in order (none for an empty list).
   * Only list `f` changes.
   */
  lemma AddEntriesOutcome(m: Message, f: Field, entries: seq<Value>, conv: Value -> EmailAddress, failure: Exception)
    ensures var b := AddEntriesSpec(m, f, entries, conv, failure);
      && (b.error.None? <==> forall i :: 0 <= i < |entries| ==> HasEmail(entries[i]))
      && (b.error.Some? ==> b.error.value == failure)
      && (b.error.None? ==> b.msg == m.Added(f, MapAddresses(conv, entries)))
      && |b.msg.Recipients(f)| <= |m.Recipients(f)| + |entries|
      && b.msg.Recipients(f)[..|m.Recipients(f)|] == m.Recipients(f)
      && (forall i :: 0 <= i < FirstMissingEmail(entries) ==> b.msg.Recipients(f)[|m.Recipients(f)| + i] == conv(entries[i]))
      && (forall g :: g != f ==> b.msg.Recipients(g) == m.Recipients(g))
      && b.msg.(tos := m.tos, ccs := m.ccs, bccs := m.bccs) == m
  {
    var k := FirstMissingEmail(entries);
    var xs := MapAddresses(conv, entries[..k]);
    var r := m.Added(f, xs);
    assert r.Recipients(f) == m.Recipients(f) + xs;
    assert forall i :: 0 <= i < k ==> xs[i] == conv(entries[i]);
    if k == |entries| {
      assert entries[..k] == entries;
    } else {
      assert !HasEmail(entries[k]);
    }
  }

  /** A loop that meets an entry without `email` after `i` good ones stops there, with `failure`. */
  lemma AddEntriesStops(m: Message, f: Field, entries: seq<Value>, conv: Value -> EmailAddress, failure: Exception, i: nat)
    requires i < |entries| && !HasEmail(entries[i])
    requires forall j :: 0 <= j < i ==> HasEmail(entries[j])
    ensures AddEntriesSpec(m, f, entries, conv, failure) == Built(m.Added(f, MapAddresses(conv, entries[..i])), Some(failure))
  {
    var k := FirstMissingEmail(entries);
    assert k == i;
  }

  /** A loop whose every entry has `email` appends them all and throws nothing. */
  lemma AddEntriesCompletes(m: Message, f: Field, entries: seq<Value>, conv: Value -> EmailAddress, failure: Exception)
    requires forall j :: 0 <= j < |entries| ==> HasEmail(entries[j])
    ensures AddEntriesSpec(m, f, entries, conv, failure) == Built(m.Added(f, MapAddresses(conv, entries)), None)
  {
    assert entries[..|entries|] == entries;
  }

  /** The number of elements of an option that is an array, else 0. */
  function ListCount(v: Value): nat {
    if v.Arr? then |v.entries| else 0
  }

  /** Some element of an array option lacks `email`. */
  predicate SomeEntryLacksEmail(v: Value) {
    v.Arr? && exists i :: 0 <= i < |v.entries| && !HasEmail(v.entries[i].value)
  }

  /** The loop over an array option, stated over the option itself. */
  lemma ListEntriesOutcome(m: Message, f: Field, list: Value, conv: Value -> EmailAddress, failure: Exception)
    requires list.Arr?
    ensures var b := AddEntriesSpec(m, f, Elements(list), conv, failure);
      && (b.error.Some? <==> SomeEntryLacksEmail(list))
      && (b.error.Some? ==> b.error.value == failure)
      && (b.error.None? ==> b.msg == m.Added(f, MapAddresses(conv, Elements(list))))
      && (forall g :: g != f ==> b.msg.Recipients(g) == m.Recipients(g))
      && b.msg.(tos := m.tos, ccs := m.ccs, bccs := m.bccs) == m
  {
    var es := Elements(list);
    AddEntriesOutcome(m, f, es, conv, failure);
    if SomeEntryLacksEmail(list) {
      var i :| 0 <= i < |list.entries| && !HasEmail(list.entries[i].value);
      assert !HasEmail(es[i]);
    }
  }

  // ---------------------------------------------------------------------------
  // The steps after the recipient lists, identical in both finishers
  // ---------------------------------------------------------------------------

  const PlaintextFormat := "plaintext"

  /** Reply-to, template id, headers and substitutions, each applied only when its value is not null. */
  function OptionalFields(m: Message, replyTo: Value, templateId: Value, headers: Value, substitutions: Value): Message {
    var m1 := if replyTo != Null then m.(replyTo := Some(replyTo)) else m;
    var m2 := if templateId != Null then m1.(templateId := Some(templateId)) else m1;
    var m3 := if headers != Null then m2.(headers := m2.headers + [headers]) else m2;
    if substitutions != Null then m3.(substitutions := m3.substitutions + [substitutions]) else m3
  }

  /** The MIME type chosen by `format`: plain text only for exactly the string "plaintext". */
  function MimeType(format: Value): string {
    if format == Str(PlaintextFormat) then "text/plain" else "text/html"
  }

  /** The message with its one content part appended. */
  function WithContent(m: Message, format: Value, body: string): Message {
    m.(contents := m.contents + [Content(MimeType(format), body)])
  }

  /** `addTo`, `addCc` or `addBcc`, by list. */
  method AppendTo(mail: Mail, f: Field, a: EmailAddress)
    modifies mail
    ensures mail.Snapshot() == old(mail.Snapshot()).Added(f, [a])
  {
    match f {
      case To => mail.AddTo(a);
      case Cc => mail.AddCc(a);
      case Bcc => mail.AddBcc(a);
    }
  }

  /** The `if (.. !== null)` block setting reply-to, template id, headers and substitutions. */
  method SetOptionalFields(mail: Mail, replyTo: Value, templateId: Value, headers: Value, substitutions: Value)
    modifies mail
    ensures mail.Snapshot() == OptionalFields(old(mail.Snapshot()), replyTo, templateId, headers, substitutions)
  {
    if replyTo != Null {
      mail.SetReplyTo(replyTo);
    }
    if templateId != Null {
      mail.SetTemplateId(templateId);
    }
    if headers != Null {
      mail.AddHeaders(headers);
    }
    if substitutions != Null {
      mail.AddSubstitutions(substitutions);
    }
  }

  /** The content part, plain text or HTML by `format`. */
  method AddContentPart(mail: Mail, format: Value, body: string)
    modifies mail
    ensures mail.Snapshot() == WithContent(old(mail.Snapshot()), format, body)
  {
    if format == Str(PlaintextFormat) {
      mail.AddContent("text/plain", body);
    } else {
      mail.AddContent("text/html", body);
    }
  }
}
