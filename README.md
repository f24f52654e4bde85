# Gmedia.SendgridFinisher — a verified model of the two finishers

Gmedia.SendgridFinisher is a Neos Form package that delivers a submitted form by e-mail
through SendGrid. It has two finishers:

- **EmailFinisher** (`Classes/Finishers/EmailFinisher.php`) checks the configured API
  key when it is set up. On each submission it builds a SendGrid `Mail` from the
  resolved options: the sender and subject; To from either a scalar address/name pair
  or a `recipients` array; Cc and Bcc from a scalar address and a list each; reply-to,
  template id, headers and substitutions; one content part; and attachments from
  uploaded resources and configured files. Then it either dumps the message (test mode)
  or sends it and inspects the answer.
- **SingleEmailFinisher** (`Classes/Finishers/SingleEmailFinisher.php`) builds the same
  kind of message. Its list entries also carry per-recipient substitutions and subject.
  It prefers the `recipients` array over the scalar pair and has no scalar copy
  addresses. It adds no attachments and no tracking settings, and sends without looking
  at the answer.

The model has these modules:

- `Php` models the slice of PHP values the finishers touch: ordered arrays,
  `array_key_exists`, index reads and writes, `isset`, `strlen(..) > 0`, `count` and
  truthiness.
- `Paths` models `explode("/")` with `end()`, the file name taken from a path.
- `SendGridMail` models the SDK `Mail` object as a class. `Snapshot()` gives its state
  as a `Message` value.
- `FinisherBase` holds what both finishers share:
  - option resolution against the class defaults;
  - the recipient-list loop specification;
  - the optional-field and content steps;
  - exceptions and the transport's possible answers.
- `EmailFinisher` and `SingleEmailFinisher` each hold:
  - a staged specification of the message (`ToStage`, the copy stages, `Assemble`);
  - the send decision (`Deliver`);
  - the finisher class, whose methods change the `Mail` object step by step and are
    proved to end in exactly the `Assemble`/`Deliver` result.
- `EmailFinisherProperties`, `SingleEmailFinisherProperties` and `FinisherVariants`
  prove what the finishers promise over those specifications.

The model follows the code as written, including these behaviours a reader might not expect:

- An empty `recipients` array is no error. When the scalar pair is not set (always, in
  the single-recipient finisher), it gives a message with no To.
- In the multi-recipient finisher the scalar pair needs both `recipientName` and
  `recipientAddress` to be non-empty; the name defaults to the empty string, so an
  address alone is no recipient.
- Only the presence of an entry's `email` key is checked, not whether it is empty.
- No answer from SendGrid fails the multi-recipient run. The status guard is always true,
  and the body is decoded without `true`, so an error object never reaches the `errors`
  check (see "## Findings").
- A configured attachment whose `resource` is an array is still added, with empty
  content and no file name.
- In the single variant, exceptions from the send are not wrapped (see "## Findings").

## Model

| member | source | states |
|---|---|---|
| Php.FindKey | Classes/Finishers/EmailFinisher.php:147 | `array_key_exists` finds the first entry with the key: the result is that entry's index, and no earlier entry has the key; none means no entry has it |
| Php.KeyExists | Classes/Finishers/EmailFinisher.php:147 | defines `array_key_exists` with a string key: the value is an array and some entry has that key; false for any other value |
| Php.Lookup | Classes/Finishers/EmailFinisher.php:155-160 | defines an index read: the value of the first entry with the key, or null when there is none or the value is no array |
| Php.IsSet | Classes/Finishers/EmailFinisher.php:354 | defines `isset($v[k])`: the key exists and its value is not null |
| Php.Truthy | Classes/Finishers/EmailFinisher.php:339 | defines PHP truthiness: false, 0, "", "0", null and the empty array are falsy, everything else truthy |
| Php.SetKey | Classes/Finishers/EmailFinisher.php:151-153 | writing `$recipient['name'] = null` makes the key exist with the new value, leaves every other key's presence and value alone, and appends an entry only when the key was new |
| Php.NullFillKeepsReads | Classes/Finishers/SingleEmailFinisher.php:106-113 | writing null under a missing key makes the key exist but changes no read, since a missing key already reads as null |
| Php.Elements | Classes/Finishers/EmailFinisher.php:146 | defines what `foreach` visits: the array's values in insertion order, one per entry; the one-address-per-entry results are proved by `RecipientsArray`, `CopyCounts` and `CopyLists` |
| Php.Count | Classes/Finishers/EmailFinisher.php:285 | defines PHP 7's `sizeof`/`count`: an array's number of entries, 0 for null, 1 for any other scalar |
| Php.ToPhpString | Classes/Finishers/EmailFinisher.php:138 | defines PHP's string conversion of a scalar, as `strlen` and `explode` apply it: "" for null and false, "1" for true, decimal digits for integers, "Array" for arrays |
| Php.NonEmptyString | Classes/Finishers/EmailFinisher.php:138 | `strlen($v) > 0` holds for a scalar exactly when its PHP string form is non-empty, and never for an array |
| Paths.Explode | Classes/Finishers/EmailFinisher.php:356 | `explode("/")` yields at least one piece and no piece contains a slash |
| Paths.ImplodeExplode | Classes/Finishers/EmailFinisher.php:356 | joining the pieces with slashes gives back the path |
| Paths.ExplodeImplode | Classes/Finishers/EmailFinisher.php:356 | splitting slash-free pieces joined with slashes gives back the pieces |
| Paths.Basename | Classes/Finishers/EmailFinisher.php:356-357 | the last piece has no slash and is a suffix of the path, preceded by a slash when shorter; it is the whole path exactly when the path has no slash |
| Paths.LastPieceIsSuffix | Classes/Finishers/EmailFinisher.php:357 | `end()` of the pieces is the part of the path after its last slash |
| SendGridMail.Message.Added | Classes/Finishers/EmailFinisher.php:155-160 | `addTo`/`addCc`/`addBcc` append to their own list, and no other list or field changes |
| SendGridMail.AddedTwice | Classes/Finishers/EmailFinisher.php:146-162 | appending entries one call at a time is appending them all at once |
| SendGridMail.Mail.constructor | Classes/Finishers/EmailFinisher.php:131 | a new `Mail` has nothing set and every list empty |
| SendGridMail.Mail.SetFrom | Classes/Finishers/EmailFinisher.php:134 | sets the sender to the address and name; nothing else changes |
| SendGridMail.Mail.SetSubject | Classes/Finishers/EmailFinisher.php:135 | sets the subject; nothing else changes |
| SendGridMail.Mail.AddTo | Classes/Finishers/EmailFinisher.php:139-144 | appends one To; nothing else changes |
| SendGridMail.Mail.AddCc | Classes/Finishers/EmailFinisher.php:169-174 | appends one Cc; nothing else changes |
| SendGridMail.Mail.AddBcc | Classes/Finishers/EmailFinisher.php:198-203 | appends one Bcc; nothing else changes |
| SendGridMail.Mail.SetReplyTo | Classes/Finishers/EmailFinisher.php:226 | sets the reply-to; nothing else changes |
| SendGridMail.Mail.SetTemplateId | Classes/Finishers/EmailFinisher.php:230 | sets the template id; nothing else changes |
| SendGridMail.Mail.AddHeaders | Classes/Finishers/EmailFinisher.php:234 | appends the headers value; nothing else changes |
| SendGridMail.Mail.AddSubstitutions | Classes/Finishers/EmailFinisher.php:238 | appends the substitutions value; nothing else changes |
| SendGridMail.Mail.AddContent | Classes/Finishers/EmailFinisher.php:242 | appends one content part; nothing else changes |
| SendGridMail.Mail.AddAttachment | Classes/Finishers/EmailFinisher.php:343-347 | appends one attachment; nothing else changes |
| FinisherBase.Resolve | Classes/Finishers/EmailFinisher.php:57-64 | defines an option's value: the configured value when present and not null, else the class default, else null |
| FinisherBase.DecodedArray | Classes/Finishers/EmailFinisher.php:284 | defines what `json_decode` gives when it is a PHP array: a JSON array becomes a list keyed 0, 1, ...; a JSON object becomes an array only when decoding with `true` |
| FinisherBase.ListsErrors | Classes/Finishers/EmailFinisher.php:285 | defines the body check: the decoded body is an array with an `errors` entry whose `sizeof` is positive |
| FinisherBase.AddEntriesSpec | Classes/Finishers/EmailFinisher.php:146-162 | defines one recipient loop: append each entry's address in order, stopping with the given exception at the first entry without `email` |
| FinisherBase.OptionalFields | Classes/Finishers/EmailFinisher.php:225-239 | defines the optional-field step: reply-to and template id are set, and headers and substitutions appended, each only when its value is not null |
| FinisherBase.FirstMissingEmail | Classes/Finishers/EmailFinisher.php:146-149 | the loop's stopping point: every earlier entry has `email`, and the entry there (if any) lacks it |
| FinisherBase.MapAddresses | Classes/Finishers/EmailFinisher.php:146-162 | defines the addresses a completed loop appends: one per entry, in order, each built from its own entry; what reaches the message is proved by `RecipientsArray`, `CopyCounts` and `CopyLists` |
| FinisherBase.HasEmail | Classes/Finishers/EmailFinisher.php:147 | defines the per-entry check: `array_key_exists('email', $entry)`, the key's presence and not its value |
| FinisherBase.MapAddressesSnoc | Classes/Finishers/EmailFinisher.php:146-162 | one more iteration appends exactly that entry's address |
| FinisherBase.AddEntriesStep | Classes/Finishers/EmailFinisher.php:155-160 | one more pass of a recipient loop appends exactly the next entry's address |
| FinisherBase.AddEntriesStops | Classes/Finishers/EmailFinisher.php:147-149 | a loop that meets an entry without `email` after only good ones stops there with its exception, keeping the addresses already added |
| FinisherBase.AddEntriesCompletes | Classes/Finishers/EmailFinisher.php:146-162 | a loop whose every entry has `email` appends them all and throws nothing |
| FinisherBase.AddEntriesOutcome | Classes/Finishers/EmailFinisher.php:146-162 | a recipient loop fails exactly when some entry lacks `email`, and then with its own exception; otherwise it appends one address per entry in order; it keeps the addresses of the entries before the failing one; no other list or field changes |
| FinisherBase.ListEntriesOutcome | Classes/Finishers/SingleEmailFinisher.php:132-155 | the same loop over an array option: it fails exactly when an element lacks `email`, otherwise it appends every element's address |
| FinisherBase.MimeType | Classes/Finishers/EmailFinisher.php:241-245 | defines the content type: `text/plain` when `format` is the string "plaintext" (strict comparison), else `text/html`; the built message's part is proved by `ContentAndOptionalFields` in both variants |
| FinisherBase.WithContent | Classes/Finishers/EmailFinisher.php:241-245 | defines the content step: one part appended, typed by `format`, holding the rendered body |
| FinisherBase.AppendTo | Classes/Finishers/EmailFinisher.php:155-160 | adds one address to the chosen list of the `Mail` object |
| FinisherBase.SetOptionalFields | Classes/Finishers/EmailFinisher.php:225-239 | the `Mail` object ends as the optional-field step describes: each of reply-to, template id, headers and substitutions is applied only when not null |
| FinisherBase.AddContentPart | Classes/Finishers/EmailFinisher.php:241-245 | the `Mail` object gains exactly the one content part chosen by `format` |
| EmailFinisher.ScalarRecipient | Classes/Finishers/EmailFinisher.php:138 | defines when the scalar pair is used: both `recipientName` and `recipientAddress` have positive `strlen` |
| EmailFinisher.ToStage | Classes/Finishers/EmailFinisher.php:138-165 | defines the To stage: the scalar pair when both `recipientName` and `recipientAddress` have positive `strlen`, else the `recipients` array loop, else the "at least one recipient" exception |
| EmailFinisher.CopyStage | Classes/Finishers/EmailFinisher.php:167-223 | defines the Cc or Bcc stage: the scalar address when non-empty, then the list loop when the list is an array |
| EmailFinisher.AttachmentStage | Classes/Finishers/EmailFinisher.php:336-367 | defines the attachment step: the uploaded resources when `attachAllPersistentResources` is truthy, then the configured files when `attachments` is an array |
| EmailFinisher.Assemble | Classes/Finishers/EmailFinisher.php:131-274 | defines the whole build: sender and subject, then To, Cc and Bcc stopping at the first exception, then optional fields, content and attachments |
| EmailFinisher.StatusGuard | Classes/Finishers/EmailFinisher.php:283 | defines the status guard as written: the code differs from 200 or differs from 202 |
| EmailFinisher.Deliver | Classes/Finishers/EmailFinisher.php:276-292 | defines the send decision as written: nothing sent for `testMode === true`; otherwise send, keep the response, fail when the guard holds and the body decoded without `true` lists errors, and rewrap every exception with code 0 |
| EmailFinisher.CorrectedDeliver | Classes/Finishers/EmailFinisher.php:283-285 | defines the intended send decision: inspect only a non-success answer, decoding the body with `true` |
| EmailFinisher.EntryAddress | Classes/Finishers/EmailFinisher.php:155-160 | defines the address built from one list entry: its `email` and `name`, each null when absent |
| EmailFinisher.MissingEmail | Classes/Finishers/EmailFinisher.php:148 | defines the exception for an entry without `email`: SendgridFinisherException in the To loop (line 148), the framework's FinisherException in the Cc and Bcc loops (lines 181 and 210), with code 0 |
| EmailFinisher.Headed | Classes/Finishers/EmailFinisher.php:131-135 | defines the fresh message with sender and subject set from their options |
| EmailFinisher.ScalarCopy | Classes/Finishers/EmailFinisher.php:168-175 | defines the scalar half of a Cc or Bcc stage (also lines 197-204): the address and name are added only when the address's `strlen` is positive |
| EmailFinisher.ResourceAttachment | Classes/Finishers/EmailFinisher.php:341-347 | defines one uploaded resource's attachment: its stream, media type and file name; any other form value gives none |
| EmailFinisher.ConfiguredAttachment | Classes/Finishers/EmailFinisher.php:354-363 | defines one configuration's attachment: none when `resource` is not set; for an array `resource`, empty content with no name (PHP 7's null results); otherwise the encoded file with no media type, named by the path's last segment |
| EmailFinisher.Rewrapped | Classes/Finishers/EmailFinisher.php:290-291 | defines the catch-all's rethrow: SendgridFinisherException with the caught message and code 0 |
| EmailFinisher.ResourceAttachments | Classes/Finishers/EmailFinisher.php:339-350 | every attachment taken from an uploaded resource keeps a media type |
| EmailFinisher.ConfiguredAttachments | Classes/Finishers/EmailFinisher.php:351-366 | no configured-file attachment has a media type, and none has a slash in its file name |
| EmailFinisher.EntryToAddress | Classes/Finishers/EmailFinisher.php:151-160 | filling in a missing `name` with null and reading the entry gives the entry's email and name (null when absent) |
| EmailFinisher.AddResourceAttachments | Classes/Finishers/EmailFinisher.php:340-349 | the loop appends exactly the uploaded resources' attachments, in order; nothing else changes |
| EmailFinisher.AddConfiguredAttachment | Classes/Finishers/EmailFinisher.php:354-363 | one configuration with a scalar `resource` set adds its encoded file under the path's last segment, with no media type; an array `resource` adds empty content with no name; any other configuration adds nothing |
| EmailFinisher.ConfiguredAttachmentsSnoc | Classes/Finishers/EmailFinisher.php:353-365 | one more configuration contributes exactly its own attachment |
| EmailFinisher.AddConfiguredAttachments | Classes/Finishers/EmailFinisher.php:352-365 | the loop appends exactly the attachments of the configurations that set `resource`, in order; nothing else changes |
| EmailFinisher.EmailFinisher.constructor | Classes/Finishers/EmailFinisher.php:32-53 | a fresh finisher holds its settings and options, an empty API key, no message and no response |
| EmailFinisher.EmailFinisher.InitializeObject | Classes/Finishers/EmailFinisher.php:70-77 | it succeeds exactly when `apiKey` is set and non-empty, and then keeps it; otherwise it throws the API-key exception with its code and the key is unchanged |
| EmailFinisher.EmailFinisher.ExecuteInternal | Classes/Finishers/EmailFinisher.php:131-293 | the new `Mail` holds the message `Assemble` describes; a build exception ends the run unsent; otherwise the outcome, the send and the kept response are those `Deliver` decides |
| EmailFinisher.EmailFinisher.AddRecipients | Classes/Finishers/EmailFinisher.php:138-165 | the `Mail` object and the error are those of the To stage |
| EmailFinisher.EmailFinisher.AddCopies | Classes/Finishers/EmailFinisher.php:167-223 | the `Mail` object and the error are those of the Cc (or Bcc) stage: scalar address, then list |
| EmailFinisher.EmailFinisher.AddEntries | Classes/Finishers/EmailFinisher.php:146-162 | the loop's effect and error are exactly the recipient-loop specification |
| EmailFinisher.EmailFinisher.AddAttachments | Classes/Finishers/EmailFinisher.php:336-367 | the `Mail` object ends as the attachment stage describes |
| EmailFinisher.EmailFinisher.Send | Classes/Finishers/EmailFinisher.php:276-293 | the outcome, whether a send happened and the kept response are exactly those of `Deliver` |
| EmailFinisherProperties.FinishFacts | Classes/Finishers/EmailFinisher.php:225-274 | the steps after Bcc leave the recipients, sender and subject alone and add exactly the optional fields, one content part and the attachments |
| EmailFinisherProperties.AssembleSteps | Classes/Finishers/EmailFinisher.php:131-274 | the build stops at the first stage that throws, in the order To, Cc, Bcc, and otherwise runs the rest |
| EmailFinisherProperties.BuildSucceedsExactly | Classes/Finishers/EmailFinisher.php:138-223 | the build throws nothing exactly when there is a recipient source (the scalar pair with both name and address non-empty, or a `recipients` array whose every entry has `email`) and no Cc or Bcc list entry lacks `email` |
| EmailFinisherProperties.RecipientSourceSelection | Classes/Finishers/EmailFinisher.php:138-165 | the scalar pair gives exactly one To; otherwise a `recipients` array gives one To per entry up to the first without `email`; otherwise the build fails with "at least one recipient" and no To |
| EmailFinisherProperties.RecipientsIgnoredWithScalarPair | Classes/Finishers/EmailFinisher.php:138-145 | with the scalar pair set, whatever `recipients` holds leaves the whole build unchanged |
| EmailFinisherProperties.AddressAloneIsNoRecipient | Classes/Finishers/EmailFinisher.php:138-165 | options that set only `recipientAddress` leave the default empty name, so the To stage throws "You need to add at least one recipient!" and adds no To |
| EmailFinisherProperties.ToStageIgnoresRecipients | Classes/Finishers/EmailFinisher.php:138-144 | with the scalar pair set, the To stage does not read `recipients` |
| EmailFinisherProperties.CopyStageAgrees | Classes/Finishers/EmailFinisher.php:167-223 | a copy stage reads only its own three options: two option sets that agree on its scalar address, scalar name and list give the same stage |
| EmailFinisherProperties.FinishAgrees | Classes/Finishers/EmailFinisher.php:225-274 | the steps after Bcc read only their own seven options (reply-to, template id, headers, substitutions, format and the two attachment options) |
| EmailFinisherProperties.LaterStagesSkipRecipients | Classes/Finishers/EmailFinisher.php:167-274 | none of the options the stages after To read is `recipients` |
| EmailFinisherProperties.RecipientsArray | Classes/Finishers/EmailFinisher.php:145-162 | on the array path, an entry without `email` fails the build with this package's exception; when every entry has `email`, there is one To per entry in order, with a null name where the entry has none, and any later failure is the framework's exception; an empty array gives no To and is no error |
| EmailFinisherProperties.TosFixedAfterToStage | Classes/Finishers/EmailFinisher.php:167-274 | no stage after To changes the To list |
| EmailFinisherProperties.ErrorsAfterToStage | Classes/Finishers/EmailFinisher.php:178-210 | after the To stage, the only exception the build can throw is the framework's missing-email one |
| EmailFinisherProperties.CopyStageFacts | Classes/Finishers/EmailFinisher.php:167-194 | a copy stage fails with the framework's exception exactly when a list entry lacks `email`; otherwise it adds the scalar address first (when non-empty) and then one address per entry; no other list or field changes |
| EmailFinisherProperties.ScalarCopyFacts | Classes/Finishers/EmailFinisher.php:168-175 | the scalar half of a copy stage appends the scalar address exactly when it is a non-empty string, after the existing ones; nothing else changes |
| EmailFinisherProperties.CopyStageSuccess | Classes/Finishers/EmailFinisher.php:167-194 | a copy stage that throws nothing appends the scalar address (if any) and then every list address |
| EmailFinisherProperties.CopyStageKeepsTos | Classes/Finishers/EmailFinisher.php:167-223 | a copy stage never touches the To list |
| EmailFinisherProperties.CopyCounts | Classes/Finishers/EmailFinisher.php:167-223 | after a successful build, Cc is exactly the scalar `carbonCopyAddress` (when non-empty) followed by one address per `carbonCopyRecipients` element, and Bcc likewise; so their sizes are those counts |
| EmailFinisherProperties.ToStageTouchesOnlyTos | Classes/Finishers/EmailFinisher.php:138-165 | the To stage changes only the To list |
| EmailFinisherProperties.CopyEntryWithoutEmail | Classes/Finishers/EmailFinisher.php:178-181 | once the earlier stages have passed, a Cc or Bcc entry without `email` ends the build with the framework's exception |
| EmailFinisherProperties.ContentAndOptionalFields | Classes/Finishers/EmailFinisher.php:225-245 | a built message has one content part of the type chosen by `format`, holding the body; reply-to, template id, headers and substitutions are present exactly when their options are not null; sender and subject come from their options |
| EmailFinisherProperties.FailedBuildHasNoContent | Classes/Finishers/EmailFinisher.php:138-223 | a failed build stops before the optional fields, the content and the attachments: it has no content part, attachment, reply-to, template id, headers or substitutions |
| EmailFinisherProperties.PositionsSnoc | Classes/Finishers/EmailFinisher.php:340-341 | one more element adds its position to the qualifying set exactly when it qualifies |
| EmailFinisherProperties.ResourceAttachmentCount | Classes/Finishers/EmailFinisher.php:340-349 | there are as many resource attachments as uploaded resources among the form values |
| EmailFinisherProperties.ConfiguredAttachmentCount | Classes/Finishers/EmailFinisher.php:353-365 | there are as many configured attachments as configurations that set `resource`; the others are skipped |
| EmailFinisherProperties.AttachmentCount | Classes/Finishers/EmailFinisher.php:336-367 | a built message has (the uploaded resources when `attachAllPersistentResources` is truthy) plus (the configurations that set `resource`) attachments, and none of the media-type-less ones has a slash in its name |
| EmailFinisherProperties.ConfiguredAttachmentName | Classes/Finishers/EmailFinisher.php:354-362 | a configured attachment with a scalar `resource` holds the encoded file, has no media type, and is named by the text after the path's last slash (the whole path when there is none) |
| EmailFinisherProperties.ArrayResourceAttachment | Classes/Finishers/EmailFinisher.php:354-362 | a configuration whose `resource` is an array still adds one attachment, with empty content, no media type and no file name, as PHP 7's null results give |
| EmailFinisherProperties.TestModeIsStrict | Classes/Finishers/EmailFinisher.php:276-277 | nothing is sent exactly when `testMode` is the boolean true; `1` or `"1"` still sends |
| EmailFinisherProperties.StatusGuardAlwaysHolds | Classes/Finishers/EmailFinisher.php:283 | the status guard holds for every status code |
| EmailFinisherProperties.PlainDecodeListsNoErrors | Classes/Finishers/EmailFinisher.php:284-285 | a body decoded without `true` never passes the `errors` check: a JSON object is no array, and a JSON array has only integer keys |
| EmailFinisherProperties.NoAnswerFails | Classes/Finishers/EmailFinisher.php:279-289 | outside test mode every answer is kept and none fails the run, whatever its status and body |
| EmailFinisherProperties.SendExceptionRewrapped | Classes/Finishers/EmailFinisher.php:290-292 | an exception from the send becomes this package's exception with the same message and code 0 |
| EmailFinisherProperties.ErrorAnswerPasses | Classes/Finishers/EmailFinisher.php:283-288 | as written, a 400 answer whose JSON body lists an error passes the run; the intended decision fails it with the provider-errors message and code 0 |
| EmailFinisherProperties.CorrectedAcceptsSuccess | Classes/Finishers/EmailFinisher.php:283 | with the intended guard, a 200 or 202 never fails the run |
| EmailFinisherProperties.CorrectedRejectsListedErrors | Classes/Finishers/EmailFinisher.php:283-288 | with the intended decision, a non-success answer fails the run exactly when its body lists errors, with the provider-errors message and code 0 |
| EmailFinisherProperties.CorrectedDiffersExactly | Classes/Finishers/EmailFinisher.php:283-285 | the intended and as-written decisions differ exactly on a non-success answer whose body, decoded with `true`, lists errors |
| SingleEmailFinisher.ToStage | Classes/Finishers/SingleEmailFinisher.php:101-130 | defines the To stage: the `recipients` array loop when it is an array, failing on an entry without `email` with the framework's FinisherException and code 0 (the constant `MissingEmail`, used by every loop of this finisher); else one unchecked To from the scalar pair |
| SingleEmailFinisher.ListStage | Classes/Finishers/SingleEmailFinisher.php:132-180 | defines the Cc or Bcc stage: the list loop when the list is an array, else nothing |
| SingleEmailFinisher.Assemble | Classes/Finishers/SingleEmailFinisher.php:97-210 | defines the whole build: sender and subject, To, Cc and Bcc stopping at the first exception, then optional fields and content, with no attachments |
| SingleEmailFinisher.Deliver | Classes/Finishers/SingleEmailFinisher.php:212-221 | defines the send decision as written: nothing sent when `testMode` is truthy; otherwise send, ignore the answer, and let a send exception escape unchanged |
| SingleEmailFinisher.CorrectedDeliver | Classes/Finishers/SingleEmailFinisher.php:217-219 | defines the intended send decision: a send exception becomes a FinisherException with the same message |
| SingleEmailFinisher.EntryAddress | Classes/Finishers/SingleEmailFinisher.php:106-126 | defines the address built from one list entry: its `email`, `name`, `substitutions` and `subject`, each null when absent |
| SingleEmailFinisher.Headed | Classes/Finishers/SingleEmailFinisher.php:97-99 | defines the fresh message with sender and subject set from their options |
| SingleEmailFinisher.EntryToAddress | Classes/Finishers/SingleEmailFinisher.php:106-120 | filling in missing `name`, `substitutions` and `subject` with null and reading the entry gives the entry's four fields (null when absent) |
| SingleEmailFinisher.AppendEntry | Classes/Finishers/SingleEmailFinisher.php:106-126 | one pass for an entry with `email` appends exactly that entry's address to the list |
| SingleEmailFinisher.AppendEntries | Classes/Finishers/SingleEmailFinisher.php:102-127 | the loop's effect and error are exactly the recipient-loop specification, with the framework's exception |
| SingleEmailFinisher.SingleEmailFinisher.constructor | Classes/Finishers/SingleEmailFinisher.php:32-43 | a fresh finisher holds its API key and options and no message |
| SingleEmailFinisher.SingleEmailFinisher.ExecuteInternal | Classes/Finishers/SingleEmailFinisher.php:97-221 | the new `Mail` holds the message `Assemble` describes; a build exception ends the run unsent; otherwise the outcome and the send are those `Deliver` decides |
| SingleEmailFinisher.SingleEmailFinisher.AddRecipients | Classes/Finishers/SingleEmailFinisher.php:101-130 | the `Mail` object and the error are those of the To stage |
| SingleEmailFinisher.SingleEmailFinisher.AddList | Classes/Finishers/SingleEmailFinisher.php:132-180 | the `Mail` object and the error are those of the Cc (or Bcc) stage |
| SingleEmailFinisher.SingleEmailFinisher.Send | Classes/Finishers/SingleEmailFinisher.php:212-221 | the outcome and whether a send happened are exactly those of `Deliver` |
| SingleEmailFinisherProperties.FinishFacts | Classes/Finishers/SingleEmailFinisher.php:190-210 | the steps after Bcc leave the recipients, sender, subject and attachments alone and add exactly the optional fields and one content part |
| SingleEmailFinisherProperties.AssembleSteps | Classes/Finishers/SingleEmailFinisher.php:97-210 | the build stops at the first stage that throws, in the order To, Cc, Bcc, and otherwise runs the rest |
| SingleEmailFinisherProperties.ToStageFacts | Classes/Finishers/SingleEmailFinisher.php:101-130 | a `recipients` array fails exactly when an entry lacks `email`, else appends one To per entry; any other value appends the one scalar To and never fails; only the To list changes |
| SingleEmailFinisherProperties.ListStageFacts | Classes/Finishers/SingleEmailFinisher.php:132-180 | a copy stage fails exactly when an entry of its list lacks `email`, else appends one address per entry; a non-array list adds nothing; only its own list changes |
| SingleEmailFinisherProperties.RecipientSourceSelection | Classes/Finishers/SingleEmailFinisher.php:101-130 | a `recipients` array gives one To per entry carrying the entry's email, name, substitutions and subject; any other value gives exactly the one To from `recipientAddress` and `recipientName`, unchecked |
| SingleEmailFinisherProperties.TosFixedAfterToStage | Classes/Finishers/SingleEmailFinisher.php:132-210 | no stage after To changes the To list |
| SingleEmailFinisherProperties.MissingEmailAnywhere | Classes/Finishers/SingleEmailFinisher.php:101-180 | the build fails exactly when an entry of any of the three lists lacks `email`, always with the framework's exception |
| SingleEmailFinisherProperties.CopyLists | Classes/Finishers/SingleEmailFinisher.php:132-180 | after a successful build, Cc and Bcc hold exactly one address per element of their lists, in order, and nothing else |
| SingleEmailFinisherProperties.ContentAndOptionalFields | Classes/Finishers/SingleEmailFinisher.php:190-210 | a built message has exactly one content part of the type chosen by `format`, holding the body; the optional fields are present exactly when their options are not null |
| SingleEmailFinisherProperties.NoAttachments | Classes/Finishers/SingleEmailFinisher.php:253-285 | with the attachment step commented out, no message ever has an attachment |
| SingleEmailFinisherProperties.TestModeIsTruthy | Classes/Finishers/SingleEmailFinisher.php:212-213 | nothing is sent exactly when `testMode` is truthy, so `1` and `"1"` are test mode and `"0"`, `""` and null are not |
| SingleEmailFinisherProperties.AnswerIgnored | Classes/Finishers/SingleEmailFinisher.php:214-221 | outside test mode the message is sent, any answer passes, no response is kept, and an exception from the send reaches the caller unchanged |
| SingleEmailFinisherProperties.SendExceptionEscapes | Classes/Finishers/SingleEmailFinisher.php:218 | as written, an exception from the send keeps the SDK's class |
| SingleEmailFinisherProperties.CorrectedWrapsSendErrors | Classes/Finishers/SingleEmailFinisher.php:218-219 | with the intended catch, every exception from the send becomes a framework exception with the same message, and nothing else in the decision changes |
| FinisherVariants.RecipientPreferenceDiffers | Classes/Finishers/SingleEmailFinisher.php:101-130 | with both the scalar pair and an empty `recipients` array, the multi-recipient finisher sends to the pair and the single-recipient one to nobody |
| FinisherVariants.TestModeDiffers | Classes/Finishers/SingleEmailFinisher.php:212 | a `testMode` of `1` sends with the multi-recipient finisher but is test mode for the single-recipient one |

## Left out

- Template rendering (`initializeStandaloneView`, `render`) is left out. The rendered body is a parameter, so the missing-template exception is not modelled.
- `parseOption` belongs to the form framework. An option is modelled as already resolved: its configured value when that is present and not null, else the class default, else null. Placeholder substitution is not modelled.
- `setMailSettings` with the sandbox flag is not modelled. It is SDK state that the finisher never reads back.
- The four tracking setters (`setClickTracking` and the others) are not modelled. They forward nested option values into SDK state that nothing here reads.
- The argument checks of every SDK setter and constructor the finishers call are not modelled, nor the `TypeException` they may throw. This covers `EmailAddress`, `setSubject`, `addContent`, `addAttachment`, the `MailSettings` sandbox setting and the tracking setters. An SDK send failure is the `Raises` transport answer.
- The HTTP send is an input, `Transport`. It either answers with a status and a body, or it throws. The body is given by its JSON shape (object, array or anything else), not as text. JSON parsing itself is not modelled.
- EmailFinisher.Deliver: the error check can only hold for a decoded PHP array with a string key `errors`. `json_decode` without `true` never yields one, so as written no answer fails the run (see "## Findings").
- Reading a file and base64-encoding it is the parameter `encodedFile`. Stream contents of an uploaded resource are a string in the form value.
- The `var_dump` calls in test mode and in the single variant's To loop are left out. They are output only.
- Floats and objects as option values are not modelled. Values are null, booleans, integers, strings and arrays.
- PHP 8 behaviour on type mismatches is not modelled; PHP 7 behaviour is. For example, `strlen` of an array gives null rather than a TypeError, and `array_key_exists` on a non-array gives a falsy value. These results hold only when the host's error handler lets warnings and notices pass; the model assumes that Flow is not configured to turn them into exceptions.

## Findings

| source | as written | input that shows it | evidently intended | confidence | as-written member | corrected member |
|---|---|---|---|---|---|---|
| Classes/Finishers/EmailFinisher.php:283 | the body is inspected when the status is not 200 OR not 202, which holds for every status | status 200: the guard holds and the body is inspected. The effect is masked by lines 284-285, which never find errors as written | inspect the body only when the status is neither 200 nor 202 | high; not executed | EmailFinisherProperties.StatusGuardAlwaysHolds | EmailFinisherProperties.CorrectedAcceptsSuccess |
| Classes/Finishers/EmailFinisher.php:284-285 | the body is decoded without `true`, so SendGrid's JSON error object becomes a `stdClass` object and `is_array` is false; a JSON array has only integer keys | status 400 with body `{"errors":[...]}`: the run passes | decode with `json_decode($body, true)` so that a listed error fails the run | high; not executed | EmailFinisherProperties.ErrorAnswerPasses | EmailFinisherProperties.CorrectedRejectsListedErrors |
| Classes/Finishers/SingleEmailFinisher.php:218 | the catch names an unqualified `Exception` inside the package namespace with no import, so it matches no existing class and SDK exceptions escape unwrapped | the send throws with message "timeout": the caller sees the SDK's exception, not a FinisherException | rethrow every send failure as a FinisherException with the same message, as the multi-recipient finisher does with `\Exception` | high; not executed | SingleEmailFinisherProperties.SendExceptionEscapes | SingleEmailFinisherProperties.CorrectedWrapsSendErrors |

Both finisher classes keep the as-written behaviour, because the model describes the
code as it runs. The corrected decisions (`EmailFinisher.CorrectedDeliver`,
`SingleEmailFinisher.CorrectedDeliver`) are defined beside the as-written ones, with their
intended properties proved. `CorrectedDiffersExactly` also proves that the two decisions
of the multi-recipient finisher differ only on a non-success answer whose body lists
errors.
