/** Properties that span the form and the endpoints: what the endpoints
    make of a masked field value, and what the form shows for each reply. */
module EndToEnd {
  import opened Wrappers
  import opened Strings
  import PhoneMask
  import SubscribeApi
  import SendSms
  import SubmitForm

  /** A full field normalises to its last ten digits; without a country code
      only a full field is accepted, and with one any field showing ten or
      eleven digits is. */
  lemma MaskedValueNormalises(previous: string, value: string)
    ensures var r := PhoneMask.FormatPhoneNumber(previous, value);
      var d := DigitsOf(r);
      && (!PhoneMask.HasCountryCode(previous, value) ==>
            (SubscribeApi.NormalizePhone(r).Some? <==> |d| == 10))
      && (PhoneMask.HasCountryCode(previous, value) ==>
            (SubscribeApi.NormalizePhone(r).Some? <==> |d| >= 10))
  {
    if DigitsOf(value) != "" {
      PhoneMask.DigitsPreserved(previous, value);
      PhoneMask.FinalNumbersShape(previous, value);
    }
  }

  /** The text is sent to the number that was stored: whenever the signup
      endpoint accepts a value, the gateway number of that same value is
      `+1` and the stored key. */
  lemma SmsGoesToStoredKey(phoneNumber: string)
    requires SubscribeApi.NormalizePhone(phoneNumber).Some?
    ensures SendSms.FormatPhoneForTwilio(phoneNumber) == "+1" + SubscribeApi.NormalizePhone(phoneNumber).value
  {
    var d := DigitsOf(phoneNumber);
    if |d| == 11 {
      assert d == [d[0]] + d[1..];
      assert "+" + d == "+1" + d[1..];
    }
  }

  /** The key of a typed local number is its ten digits. */
  lemma LocalKey(d: string)
    requires |d| == 10 && AllDigits(d) && !PhoneMask.StartsWithOne(d)
    ensures SubscribeApi.NormalizePhone(PhoneMask.FormatPhoneNumber("", d)) == Some(d)
  {
    PhoneMask.DigitsPreserved("", d);
    assert DigitsOf(PhoneMask.FormatPhoneNumber("", d)) == d;
  }

  /** The key of a typed number with a leading `1` drops the `1`. */
  lemma CountryKey(d: string)
    requires |d| == 10 && AllDigits(d)
    ensures SubscribeApi.NormalizePhone(PhoneMask.FormatPhoneNumber("", "1" + d)) == Some(d)
  {
    var withCode := "1" + d;
    assert AllDigits(withCode) by {
      assert forall i :: 1 <= i < |withCode| ==> withCode[i] == d[i - 1];
    }
    PhoneMask.DigitsPreserved("", withCode);
    assert DigitsOf(PhoneMask.FormatPhoneNumber("", withCode)) == withCode;
    assert withCode[1..] == d;
  }

  /** Typing a ten-digit number, with or without a leading `1`, stores the
      same key (`(555) 123-4567` and `1 (555) 123-4567` both give `5551234567`). */
  lemma SameKeyWithOrWithoutCountryCode(d: string)
    requires |d| == 10 && AllDigits(d) && !PhoneMask.StartsWithOne(d)
    ensures SubscribeApi.NormalizePhone(PhoneMask.FormatPhoneNumber("", d))
         == SubscribeApi.NormalizePhone(PhoneMask.FormatPhoneNumber("", "1" + d))
         == Some(d)
  {
    LocalKey(d);
    CountryKey(d);
  }

  // ---------------------------------------------------------------------
  // What the form reads from each endpoint's reply

  /** The signup reply as the form reads it. The refusals before the store
      is consulted carry their text in an `error` field, which the form does
      not read; only the duplicate and the store failure carry a `message`. */
  function SubscribeAsSeen(r: SubscribeApi.SubscribeReply): (seen: SubmitForm.Response)
    ensures seen.Replied? && seen.status == r.Status() && seen.warning == ""
    ensures seen.Ok() && seen.success <==> r.Subscribed?
    ensures seen.message != "" <==> r.AlreadyRegistered? || (r.StoreError? && r.message != "")
    ensures r.StoreError? ==> seen.message == r.message
  {
    var message :=
      match r
      case AlreadyRegistered => "Phone number already registered"
      case StoreError(m) => m
      case _ => "";
    SubmitForm.Replied(r.Status(), r.Success() == Some(true), message, "")
  }

  /** The confirmation-text reply as the form reads it: a reply that is not
      JSON makes `json()` throw; otherwise the status, `success` and
      `warning` fields. */
  function SmsAsSeen(r: SendSms.SmsReply): (seen: SubmitForm.Response)
    ensures seen.Threw? <==> r.CatchThrew?
    ensures seen.Replied? ==> seen.status == r.Status() && seen.warning == r.Warning()
    ensures seen.Replied? ==> (seen.Ok() && seen.success <==> r.Delivered? || r.Queued? || r.Processed?)
  {
    if r.CatchThrew? then SubmitForm.Threw
    else SubmitForm.Replied(r.Status(), r.Success() == Some(true), "", r.Warning())
  }

  /** The signup replies the form shows: the refusals without text fall
      back to the generic message, a duplicate shows its own, and only a
      stored number leads to the text request. */
  lemma SignupRepliesShown(phoneNumber: string, r: SubscribeApi.SubscribeReply, sms: SubmitForm.Response)
    ensures var o := SubmitForm.Submit(phoneNumber, SubscribeAsSeen(r), sms);
      && (r.MethodNotAllowed? || r.PhoneRequired? || r.InvalidFormat? ==> o.message == SubmitForm.FallbackText)
      && (r.AlreadyRegistered? ==> o.message == "Phone number already registered")
      && (r.StoreError? && r.message != "" ==> o.message == r.message)
      && (|o.requests| == 2 <==> r.Subscribed?)
  {
  }

  /** The message and the field after a stored signup, from the reply: the
      error text, with the field kept, when the reply is not JSON. */
  lemma ShownAfterSignup(phoneNumber: string, r: SendSms.SmsReply)
    ensures var o := SubmitForm.Submit(phoneNumber, SubscribeAsSeen(SubscribeApi.Subscribed(0)), SmsAsSeen(r));
      && o.message ==
           (if r.CatchThrew? then SubmitForm.ErrorText
            else if r.Status() != 200 then SubmitForm.SavedText
            else if r.Warning() != "" then SubmitForm.WarningText(r.Warning())
            else SubmitForm.CheckPhoneText)
      && o.phoneAfter == (if r.CatchThrew? then phoneNumber else "")
  {
  }

  /** The four messages shown after a stored signup are all different. */
  lemma SavedMessagesDiffer(w: string)
    ensures |SubmitForm.WarningText(w)| > |SubmitForm.CheckPhoneText| > |SubmitForm.SavedText|
    ensures |SubmitForm.CheckPhoneText| > |SubmitForm.ErrorText|
    ensures SubmitForm.ErrorText != SubmitForm.SavedText
    ensures SubmitForm.SavedMessage(SubmitForm.WarningText(w))
  {
    assert SubmitForm.WarningText(w)[..|SubmitForm.WarningPrefix|] == SubmitForm.WarningPrefix;
    assert SubmitForm.ErrorText[0] == 'A' && SubmitForm.SavedText[0] == 'S';
  }

  /** After a stored signup, every confirmation-text reply is shown: the
      confirmation text only for a delivered message, the warning for a
      queued or unrecognised status, the plain saved message for every
      failure the endpoint answers in JSON, and the error text, with the
      field kept, when the endpoint's catch block crashes. */
  lemma SmsRepliesShown(phoneNumber: string, r: SendSms.SmsReply)
    ensures var o := SubmitForm.Submit(phoneNumber, SubscribeAsSeen(SubscribeApi.Subscribed(0)), SmsAsSeen(r));
      && (r.CatchThrew? ==> o.message == SubmitForm.ErrorText && o.phoneAfter == phoneNumber)
      && (!r.CatchThrew? ==> SubmitForm.SavedMessage(o.message) && o.phoneAfter == "")
      && (o.message == SubmitForm.CheckPhoneText <==> r.Delivered?)
      && (o.message == SubmitForm.WarningText(r.Warning()) <==> r.Queued? || r.Processed?)
      && (o.message == SubmitForm.SavedText <==> r.Status() != 200 && !r.CatchThrew?)
  {
    ShownAfterSignup(phoneNumber, r);
    SavedMessagesDiffer(r.Warning());
    if r.Queued? {
      assert r.Warning() == SendSms.QueuedWarning;
      assert |SendSms.QueuedWarning| > 0;
    } else if r.Processed? {
      assert |SendSms.StatusWarning(r.status)| > 0;
    }
  }

  /** A rejection the gateway classifies as pending compliance (code 30034,
      for one) is shown as a plain save, with no warning. */
  lemma PendingComplianceShownAsSaved(phoneNumber: string, message: string, env: SendSms.Env,
                                      e: SendSms.GatewayError, fetch: SendSms.FetchOutcome)
    requires phoneNumber != "" && SendSms.CredentialsPresent(env)
    requires SendSms.ClassifyError(e) == SendSms.PendingCompliance
    ensures var h := SendSms.Handle("POST", phoneNumber, message, env, SendSms.CreateThrew(e), fetch);
      && h.reply == SendSms.SendFailed(SendSms.PendingCompliance, e.code)
      && SubmitForm.Submit(phoneNumber, SubscribeAsSeen(SubscribeApi.Subscribed(0)), SmsAsSeen(h.reply)).message
         == SubmitForm.SavedText
  {
  }

  /** A rejection for the sender number (code 21614, or the gateway's "not a
      Twilio phone number" text) crashes the endpoint's catch block, so the
      form shows the error text and keeps the field, although the number
      was saved. */
  lemma InvalidSenderShownAsError(phoneNumber: string, message: string, env: SendSms.Env,
                                  e: SendSms.GatewayError, fetch: SendSms.FetchOutcome)
    requires phoneNumber != "" && SendSms.CredentialsPresent(env)
    requires SendSms.ClassifyError(e) == SendSms.InvalidSender
    ensures var h := SendSms.Handle("POST", phoneNumber, message, env, SendSms.CreateThrew(e), fetch);
      var o := SubmitForm.Submit(phoneNumber, SubscribeAsSeen(SubscribeApi.Subscribed(0)), SmsAsSeen(h.reply));
      && h.reply == SendSms.CatchThrew
      && o.message == SubmitForm.ErrorText
      && o.phoneAfter == phoneNumber
  {
  }
}
