/**
 * The parts of the SendGrid SDK's `Mail` object that the finishers write: sender,
 * subject, To/Cc/Bcc lists, reply-to, template id, headers, substitutions, content
 * parts and attachments. Every `add*` appends, every `set*` overwrites.
 */
module SendGridMail {
  import opened Wrappers
  import opened Php

  /** The fields an SDK `EmailAddress` (and its To, Cc, Bcc, From subclasses) is built from. */
  datatype EmailAddress = EmailAddress(email: Value, name: Value, substitutions: Value, subject: Value)

  /** One body part: a MIME type and the rendered text. */
  datatype Content = Content(mimeType: string, value: string)

  /** One attachment: (already encoded) content, an optional media type and an optional file name. */
  datatype Attachment = Attachment(content: string, mediaType: Option<string>, filename: Option<string>)

  /** The three recipient lists of a message. */
  datatype Field = To | Cc | Bcc

  /** The state of a `Mail` object, as a value. */
  datatype Message = Message(
    from: Option<EmailAddress>,
    subject: Option<Value>,
    tos: seq<EmailAddress>,
    ccs: seq<EmailAddress>,
    bccs: seq<EmailAddress>,
    replyTo: Option<Value>,
    templateId: Option<Value>,
    headers: seq<Value>,
    substitutions: seq<Value>,
    contents: seq<Content>,
    attachments: seq<Attachment>)
  {
    /** The recipient list named by `f`. */
    function Recipients(f: Field): seq<EmailAddress> {
      match f
      case To => tos
      case Cc => ccs
      case Bcc => bccs
    }

    /** This message with `xs` appended to the list `f`. */
    function Added(f: Field, xs: seq<EmailAddress>): (r: Message)
      ensures r.Recipients(f) == Recipients(f) + xs
      ensures forall g :: g != f ==> r.Recipients(g) == Recipients(g)
      ensures r.(tos := tos, ccs := ccs, bccs := bccs) == this
    {
      match f
      case To => this.(tos := tos + xs)
      case Cc => this.(ccs := ccs + xs)
      case Bcc => this.(bccs := bccs + xs)
    }
  }

  /** What `new Mail()` holds: nothing set, every list empty. */
  const EmptyMessage := Message(None, None, [], [], [], None, None, [], [], [], [])

  /** Appending in two steps is appending the concatenation. */
  lemma AddedTwice(m: Message, f: Field, xs: seq<EmailAddress>, ys: seq<EmailAddress>)
    ensures m.Added(f, xs).Added(f, ys) == m.Added(f, xs + ys)
  {
    assert m.Recipients(f) + xs + ys == m.Recipients(f) + (xs + ys);
  }

  class Mail {
    var from: Option<EmailAddress>
    var subject: Option<Value>
    var tos: seq<EmailAddress>
    var ccs: seq<EmailAddress>
    var bccs: seq<EmailAddress>
    var replyTo: Option<Value>
    var templateId: Option<Value>
    var headers: seq<Value>
    var substitutions: seq<Value>
    var contents: seq<Content>
    var attachments: seq<Attachment>

    /** The object's whole state as a value. */
    function Snapshot(): Message
      reads this
    {
      Message(from, subject, tos, ccs, bccs, replyTo, templateId, headers, substitutions, contents, attachments)
    }

    constructor ()
      ensures Snapshot() == EmptyMessage
    {
      from, subject, tos, ccs, bccs := None, None, [], [], [];
      replyTo, templateId, headers, substitutions := None, None, [], [];
      contents, attachments := [], [];
    }

    method SetFrom(address: Value, name: Value)
      modifies this
      ensures Snapshot() == old(Snapshot()).(from := Some(EmailAddress(address, name, Null, Null)))
    {
      from := Some(EmailAddress(address, name, Null, Null));
    }

    method SetSubject(s: Value)
      modifies this
      ensures Snapshot() == old(Snapshot()).(subject := Some(s))
    {
      subject := Some(s);
    }

    method AddTo(a: EmailAddress)
      modifies this
      ensures Snapshot() == old(Snapshot()).Added(To, [a])
    {
      tos := tos + [a];
    }

    method AddCc(a: EmailAddress)
      modifies this
      ensures Snapshot() == old(Snapshot()).Added(Cc, [a])
    {
      ccs := ccs + [a];
    }

    method AddBcc(a: EmailAddress)
      modifies this
      ensures Snapshot() == old(Snapshot()).Added(Bcc, [a])
    {
      bccs := bccs + [a];
    }

    method SetReplyTo(v: Value)
      modifies this
      ensures Snapshot() == old(Snapshot()).(replyTo := Some(v))
    {
      replyTo := Some(v);
    }

    method SetTemplateId(v: Value)
      modifies this
      ensures Snapshot() == old(Snapshot()).(templateId := Some(v))
    {
      templateId := Some(v);
    }

    method AddHeaders(v: Value)
      modifies this
      ensures Snapshot() == old(Snapshot()).(headers := old(headers) + [v])
    {
      headers := headers + [v];
    }

    method AddSubstitutions(v: Value)
      modifies this
      ensures Snapshot() == old(Snapshot()).(substitutions := old(substitutions) + [v])
    {
      substitutions := substitutions + [v];
    }

    method AddContent(mimeType: string, value: string)
      modifies this
      ensures Snapshot() == old(Snapshot()).(contents := old(contents) + [Content(mimeType, value)])
    {
      contents := contents + [Content(mimeType, value)];
    }

    method AddAttachment(content: string, mediaType: Option<string>, filename: Option<string>)
      modifies this
      ensures Snapshot() == old(Snapshot()).(attachments := old(attachments) + [Attachment(content, mediaType, filename)])
    {
      attachments := attachments + [Attachment(content, mediaType, filename)];
    }
  }
}
