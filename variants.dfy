/** Where the two finishers part ways on the same options. */
module FinisherVariants {
  import opened Php
  import opened SendGridMail
  import opened FinisherBase
  import Multi = EmailFinisher
  import MultiProperties = EmailFinisherProperties
  import Single = SingleEmailFinisher
  import SingleProperties = SingleEmailFinisherProperties

  /**
   * With both the scalar recipient pair and an empty `recipients` array set, the
   * multi-recipient finisher sends to the scalar address and the single-recipient one
   * to nobody: the first prefers the pair, the second the array.
   */
  lemma RecipientPreferenceDiffers(address: string, name: string, body: string, values: seq<FormValue>, encodedFile: string -> string)
    requires |address| > 0 && |name| > 0
    ensures var o := map["recipientAddress" := Str(address), "recipientName" := Str(name), "recipients" := Arr([])];
      && Multi.Assemble(o, body, values, encodedFile).msg.tos == [EmailAddress(Str(address), Str(name), Null, Null)]
      && Single.Assemble(o, body).msg.tos == []
  {
    var o := map["recipientAddress" := Str(address), "recipientName" := Str(name), "recipients" := Arr([])];
    assert Multi.Opt(o, "recipientAddress") == Str(address);
    assert Multi.Opt(o, "recipientName") == Str(name);
    assert Multi.ScalarRecipient(o);
    MultiProperties.RecipientSourceSelection(o, body, values, encodedFile);
    assert Single.Opt(o, "recipients") == Arr([]);
    SingleProperties.TosFixedAfterToStage(o, body);
    SingleProperties.ToStageFacts(Single.Headed(o), o);
    assert Elements(Arr([])) == [];
  }

  /** A `testMode` of `1` sends with the multi-recipient finisher and is test mode for the single-recipient one. */
  lemma TestModeDiffers(t: Transport)
    ensures Multi.Deliver(Int(1), t).sent && !Single.Deliver(Int(1), t).sent
  {
  }
}
