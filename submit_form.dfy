/** The signup form (`components/PhoneSubscriptionForm.js`): the field state,
    the masked update on each keystroke, and the submit flow that saves the
    number, asks for the confirmation text and picks the message to show.
    The two HTTP round trips are parameters: what each response would be. */
module SubmitForm {
  import opened Strings
  import PhoneMask

  /** A response as the form reads it: `ok` comes from the status, and the
      `success`, `message` and `warning` body fields (`false`/`""` when
      absent). `Threw` is a request that rejects or a body that is not JSON. */
  datatype Response =
    | Threw
    | Replied(status: int, success: bool, message: string, warning: string)
  {
    predicate Ok() {
      Replied? && 200 <= status <= 299
    }
  }

  /** The requests the form sends, in order. */
  datatype Request = SubscribeRequest(phoneNumber: string) | SmsRequest(phoneNumber: string, message: string)

  const WelcomeText: string := "Thank you for subscribing to LiquidSuites! We will notify you when we launch."
  const FallbackText: string := "Something went wrong. Please try again."
  const ErrorText: string := "An error occurred. Please try again later."
  const CheckPhoneText: string := "Success! Check your phone for a confirmation message."
  const SavedText: string := "Success! Your phone number has been saved."
  const WarningPrefix: string := "Phone number saved! "

  function WarningText(warning: string): string {
    WarningPrefix + warning + " Your A2P campaign is under review, so SMS delivery may be delayed."
  }

  /** The three messages shown once the number is saved. */
  predicate SavedMessage(m: string) {
    m == CheckPhoneText || m == SavedText || IsPrefix(WarningPrefix, m)
  }

  /** What one submit does: the requests, the message, and the field value left. */
  datatype SubmitOutcome = SubmitOutcome(requests: seq<Request>, message: string, phoneAfter: string)

  /** Reference definition of `handleSubmit` for the field value `phoneNumber`. */
  function Submit(phoneNumber: string, save: Response, sms: Response): (o: SubmitOutcome)
    ensures o.message != ""
    ensures o.phoneAfter == (if save.Ok() && save.success && sms.Replied? then "" else phoneNumber)
    ensures save.Threw? ==> o == SubmitOutcome([SubscribeRequest(phoneNumber)], ErrorText, phoneNumber)
  {
    var saveRequest := SubscribeRequest(phoneNumber);
    if save.Threw? then SubmitOutcome([saveRequest], ErrorText, phoneNumber)
    else if !save.Ok() || !save.success then
      SubmitOutcome([saveRequest], if save.message != "" then save.message else FallbackText, phoneNumber)
    else
      var requests := [saveRequest, SmsRequest(phoneNumber, WelcomeText)];
      if sms.Threw? then SubmitOutcome(requests, ErrorText, phoneNumber)
      else if sms.Ok() && sms.success then
        SubmitOutcome(requests, if sms.warning != "" then WarningText(sms.warning) else CheckPhoneText, "")
      else SubmitOutcome(requests, SavedText, "")
  }

  /** The number is always sent to the save endpoint first, and the
      confirmation text is asked for only after a successful save. */
  lemma SmsOnlyAfterSave(phoneNumber: string, save: Response, sms: Response)
    ensures var o := Submit(phoneNumber, save, sms);
      && 1 <= |o.requests| <= 2
      && o.requests[0] == SubscribeRequest(phoneNumber)
      && (|o.requests| == 2 <==> save.Ok() && save.success)
      && (|o.requests| == 2 ==> o.requests[1] == SmsRequest(phoneNumber, WelcomeText))
  {
  }

  /** Once the save succeeded and the text endpoint answered, the message is
      one of the three saved messages, whatever the answer; the field is
      cleared. A failed text is reported as a plain save. */
  lemma SavedWhateverTheSms(phoneNumber: string, save: Response, sms: Response)
    requires save.Ok() && save.success && sms.Replied?
    ensures var o := Submit(phoneNumber, save, sms);
      && SavedMessage(o.message)
      && o.message != ErrorText && o.message != FallbackText
      && o.phoneAfter == ""
      && (!(sms.Ok() && sms.success) ==> o.message == SavedText)
      && (sms.Ok() && sms.success && sms.warning != "" ==> Contains(o.message, sms.warning))
  {
    var o := Submit(phoneNumber, save, sms);
    if sms.Ok() && sms.success && sms.warning != "" {
      ContainsInfix(WarningPrefix, sms.warning,
        " Your A2P campaign is under review, so SMS delivery may be delayed.");
      assert IsPrefix(WarningPrefix, o.message);
    }
  }

  /** When the text request rejects or its reply is not JSON, the error
      text is shown and the field kept, although the number was saved. */
  lemma SmsThrewShowsError(phoneNumber: string, save: Response)
    requires save.Ok() && save.success
    ensures Submit(phoneNumber, save, Threw)
         == SubmitOutcome([SubscribeRequest(phoneNumber), SmsRequest(phoneNumber, WelcomeText)], ErrorText, phoneNumber)
  {
  }

  /** A failed save shows the endpoint's own message, or a fallback, and
      keeps the field. */
  lemma FailedSaveKeepsField(phoneNumber: string, save: Response, sms: Response)
    requires save.Replied? && !(save.Ok() && save.success)
    ensures var o := Submit(phoneNumber, save, sms);
      && o.phoneAfter == phoneNumber
      && o.message == (if save.message != "" then save.message else FallbackText)
      && o.message != ""
  {
  }

  /** The field state. Between events the field always shows a fixed point of
      the mask of at most 16 characters. */
  class SubscriptionForm {
    var phoneNumber: string
    var message: string
    var isSubmitting: bool

    ghost predicate Valid()
      reads this
    {
      && |phoneNumber| <= 16
      && PhoneMask.FormatPhoneNumber(phoneNumber, phoneNumber) == phoneNumber
    }

    constructor ()
      ensures Valid()
      ensures phoneNumber == "" && message == "" && !isSubmitting
    {
      phoneNumber := "";
      message := "";
      isSubmitting := false;
    }

    /** `handlePhoneChange`: mask the new input against the current value and
      clear the message. */
    method HandlePhoneChange(value: string)
      modifies this
      ensures Valid()
      ensures phoneNumber == PhoneMask.FormatPhoneNumber(old(phoneNumber), value)
      ensures message == "" && isSubmitting == old(isSubmitting)
    {
      var formatted := PhoneMask.FormatPhoneNumber(phoneNumber, value);
      PhoneMask.LengthBound(phoneNumber, value);
      PhoneMask.Idempotent(phoneNumber, value);
      phoneNumber := formatted;
      message := "";
    }

    /** `handleSubmit`, given the two responses; `requests` are the requests
      it sends. */
    method HandleSubmit(save: Response, sms: Response) returns (requests: seq<Request>)
      requires Valid()
      modifies this
      ensures Valid()
      ensures var o := Submit(old(phoneNumber), save, sms);
        requests == o.requests && message == o.message && phoneNumber == o.phoneAfter
      ensures !isSubmitting
    {
      isSubmitting := true;
      message := "";
      requests := [SubscribeRequest(phoneNumber)];
      if save.Threw? {
        message := ErrorText;
        isSubmitting := false;
        return;
      }
      if !save.Ok() || !save.success {
        message := if save.message != "" then save.message else FallbackText;
        isSubmitting := false;
        return;
      }
      requests := requests + [SmsRequest(phoneNumber, WelcomeText)];
      if sms.Threw? {
        message := ErrorText;
        isSubmitting := false;
        return;
      }
      phoneNumber := "";
      if sms.Ok() && sms.success {
        if sms.warning != "" {
          message := WarningText(sms.warning);
        } else {
          message := CheckPhoneText;
        }
      } else {
        message := SavedText;
      }
      isSubmitting := false;
    }
  }
}
