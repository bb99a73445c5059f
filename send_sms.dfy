/** The confirmation-text endpoint (`pages/api/send-sms.js`): request
    checks, the `+`-prefixed number the gateway expects, and the decision
    tree from the gateway's create/fetch/throw outcome to a response. The
    gateway itself is replaced by its possible outcomes. */
module SendSms {
  import opened Wrappers
  import opened Strings

  // ---------------------------------------------------------------------
  // Number format for the gateway

  /** `formatPhoneForTwilio`: `+1` and the digits when there are ten, `+` and
      the digits otherwise. */
  function FormatPhoneForTwilio(phoneNumber: string): (r: string)
    ensures |r| >= 1 && r[0] == '+' && AllDigits(r[1..])
    ensures var d := DigitsOf(phoneNumber);
      r == (if |d| == 10 then "+1" + d else "+" + d)
  {
    var numbers := DigitsOf(phoneNumber);
    if |numbers| == 10 then "+1" + numbers
    else if |numbers| == 11 && numbers[0] == '1' then "+" + numbers
    else "+" + numbers
  }

  /** The two non-ten-digit branches return the same string: an 11-digit
      number with a leading `1` gets no special treatment. */
  lemma ElevenDigitBranchIsFallback(phoneNumber: string)
    requires |DigitsOf(phoneNumber)| == 11 && DigitsOf(phoneNumber)[0] == '1'
    ensures FormatPhoneForTwilio(phoneNumber) == "+" + DigitsOf(phoneNumber)
  {
  }

  /** A `+` in front of digits is dropped again by the stripping. */
  lemma DigitsAfterPlus(s: string)
    requires AllDigits(s)
    ensures DigitsOf("+" + s) == s
  {
    DigitsOfAppend("+", s);
    assert NoDigits("+");
  }

  /** Formatting an already formatted number changes nothing. */
  lemma FormatPhoneForTwilioIdempotent(phoneNumber: string)
    ensures var r := FormatPhoneForTwilio(phoneNumber);
      FormatPhoneForTwilio(r) == r
  {
    var d := DigitsOf(phoneNumber);
    var r := FormatPhoneForTwilio(phoneNumber);
    if |d| == 10 {
      var rest := "1" + d;
      assert AllDigits(rest);
      assert r == "+" + rest;
      DigitsAfterPlus(rest);
    } else {
      assert r == "+" + d;
      DigitsAfterPlus(d);
    }
  }

  // ---------------------------------------------------------------------
  // The gateway, as outcomes

  /** An environment variable: `None` when unset. */
  datatype Env = Env(accountSid: Option<string>, authToken: Option<string>, fromNumber: Option<string>)

  /** A variable that is set and non-empty (truthy). */
  predicate IsSet(v: Option<string>) {
    v.Some? && v.value != ""
  }

  predicate CredentialsPresent(env: Env) {
    IsSet(env.accountSid) && IsSet(env.authToken) && IsSet(env.fromNumber)
  }

  /** A message resource; `errorCode` 0 and `errorMessage` `""` stand for
      absent (falsy) fields. */
  datatype Message = Message(sid: string, status: string, errorCode: int, errorMessage: string)

  /** A thrown gateway error; `code` 0 and `httpStatus` 0 stand for absent. */
  datatype GatewayError = GatewayError(code: int, httpStatus: int, message: string)

  datatype CreateOutcome = Created(message: Message) | CreateThrew(error: GatewayError)

  datatype FetchOutcome = Fetched(message: Message) | FetchThrew

  /** The calls the handler makes on the gateway. */
  datatype GatewayCall = CreateCall(to: string, from: string, body: string) | FetchCall(sid: string)

  // ---------------------------------------------------------------------
  // Classifying a thrown error

  datatype ErrorKind =
    | InvalidRecipient
    | UnverifiedRecipient
    | InvalidSender
    | PendingCompliance
    | AuthFailure
    | Unclassified(message: string)

  /** The `errorMessage` if-chain of the catch block. */
  function ClassifyError(e: GatewayError): (k: ErrorKind)
    ensures k.Unclassified? ==> k.message == e.message
    ensures e.code == 21211 ==> k == InvalidRecipient
    ensures e.code == 21614 ==> k == InvalidSender
  {
    if e.code == 21211 then InvalidRecipient
    else if e.code == 21608 then UnverifiedRecipient
    else if e.code == 21614 || Contains(e.message, "not a Twilio phone number") then InvalidSender
    else if e.code == 30034 || e.code == 21610 || Contains(e.message, "A2P")
         || Contains(e.message, "campaign") || Contains(e.message, "Unregistered") then PendingCompliance
    else if e.httpStatus == 401 then AuthFailure
    else Unclassified(e.message)
  }

  /** Reference definition: the same classification as an ordered table of
      rules, each a set of alternative conditions; the first rule with a
      condition that holds decides. */
  datatype Condition = CodeIs(code: int) | MessageHas(text: string) | HttpStatusIs(status: int)

  datatype Rule = Rule(conditions: seq<Condition>, kind: ErrorKind)

  predicate Holds(c: Condition, e: GatewayError) {
    match c
    case CodeIs(code) => e.code == code
    case MessageHas(text) => Contains(e.message, text)
    case HttpStatusIs(status) => e.httpStatus == status
  }

  predicate AnyHolds(conditions: seq<Condition>, e: GatewayError)
    ensures AnyHolds(conditions, e) <==> exists i :: 0 <= i < |conditions| && Holds(conditions[i], e)
  {
    conditions != [] && (Holds(conditions[0], e) || AnyHolds(conditions[1..], e))
  }

  function ErrorTable(): seq<Rule> {
    [ Rule([CodeIs(21211)], InvalidRecipient),
      Rule([CodeIs(21608)], UnverifiedRecipient),
      Rule([CodeIs(21614), MessageHas("not a Twilio phone number")], InvalidSender),
      Rule([CodeIs(30034), CodeIs(21610), MessageHas("A2P"), MessageHas("campaign"), MessageHas("Unregistered")],
           PendingCompliance),
      Rule([HttpStatusIs(401)], AuthFailure) ]
  }

  function FirstMatch(rules: seq<Rule>, e: GatewayError): ErrorKind {
    if rules == [] then Unclassified(e.message)
    else if AnyHolds(rules[0].conditions, e) then rules[0].kind
    else FirstMatch(rules[1..], e)
  }

  /** The compliance rule holds exactly when one of its five conditions does. */
  lemma ComplianceRule(e: GatewayError)
    ensures AnyHolds(ErrorTable()[3].conditions, e) <==>
      e.code == 30034 || e.code == 21610 || Contains(e.message, "A2P")
      || Contains(e.message, "campaign") || Contains(e.message, "Unregistered")
  {
    var cs := ErrorTable()[3].conditions;
    assert cs[1..][1..][1..][1..][1..] == [];
    assert AnyHolds(cs[1..][1..][1..], e) <==>
      Contains(e.message, "campaign") || Contains(e.message, "Unregistered");
    assert AnyHolds(cs[1..], e) <==>
      e.code == 21610 || Contains(e.message, "A2P")
      || Contains(e.message, "campaign") || Contains(e.message, "Unregistered");
  }

  /** The first three rules, each with its conditions. */
  lemma LeadingRules(e: GatewayError)
    ensures AnyHolds(ErrorTable()[0].conditions, e) <==> e.code == 21211
    ensures AnyHolds(ErrorTable()[1].conditions, e) <==> e.code == 21608
    ensures AnyHolds(ErrorTable()[2].conditions, e) <==>
      e.code == 21614 || Contains(e.message, "not a Twilio phone number")
    ensures AnyHolds(ErrorTable()[4].conditions, e) <==> e.httpStatus == 401
  {
    assert ErrorTable()[0].conditions[1..] == [];
    assert ErrorTable()[1].conditions[1..] == [];
    assert ErrorTable()[2].conditions[1..][1..] == [];
    assert ErrorTable()[4].conditions[1..] == [];
  }

  lemma ClassifyMatchesTable(e: GatewayError)
    ensures ClassifyError(e) == FirstMatch(ErrorTable(), e)
  {
    LeadingRules(e);
    ComplianceRule(e);
    var t := ErrorTable();
    var t1, t2, t3, t4 := t[1..], t[2..], t[3..], t[4..];
    assert t1 == t[1..] && t2 == t1[1..] && t3 == t2[1..] && t4 == t3[1..] && t4[1..] == [];
    assert t1[0] == t[1] && t2[0] == t[2] && t3[0] == t[3] && t4[0] == t[4];
    assert FirstMatch(t4, e) == if e.httpStatus == 401 then AuthFailure else Unclassified(e.message);
    assert FirstMatch(t3, e) == if AnyHolds(t[3].conditions, e) then PendingCompliance else FirstMatch(t4, e);
    assert FirstMatch(t2, e) == if AnyHolds(t[2].conditions, e) then InvalidSender else FirstMatch(t3, e);
    assert FirstMatch(t1, e) == if e.code == 21608 then UnverifiedRecipient else FirstMatch(t2, e);
    assert FirstMatch(t, e) == if e.code == 21211 then InvalidRecipient else FirstMatch(t1, e);
  }

  // ---------------------------------------------------------------------
  // Responses

  const DefaultBody: string := "Thank you for subscribing! We will notify you when we launch."
  const CreationFailed: string := "Message creation failed"

  /** The replacement `details` of a delivery failure found by the status fetch. */
  datatype DeliveryDetails = ReportedError(message: string) | DeliveryFailed | CampaignUnderReview

  datatype SmsReply =
    | MethodNotAllowed
    | PhoneRequired
    | MissingCredentials
    | CreateRejected(details: string, code: int, sid: string)
    | Delivered(sid: string, status: string)
    | DeliveryRejected(delivery: DeliveryDetails, code: int, sid: string)
    | Queued(sid: string, status: string)
    | Processed(sid: string, status: string)
    | SendFailed(kind: ErrorKind, code: int)
      /** The catch block itself throws: the invalid-sender text reads
          `formattedFrom`, a `const` of the `try` block, which is a
          `ReferenceError` there. The framework then answers 500 with an
          error page that is not JSON. */
    | CatchThrew
  {
    function Status(): int {
      match this
      case MethodNotAllowed => 405
      case PhoneRequired => 400
      case Delivered(_, _) => 200
      case Queued(_, _) => 200
      case Processed(_, _) => 200
      case _ => 500
    }

    /** The `success` field, where the body has one. */
    function Success(): Option<bool> {
      match this
      case CreateRejected(_, _, _) => Some(false)
      case DeliveryRejected(_, _, _) => Some(false)
      case Delivered(_, _) => Some(true)
      case Queued(_, _) => Some(true)
      case Processed(_, _) => Some(true)
      case _ => None
    }

    /** The `warning` field, `""` where the body has none. */
    function Warning(): string {
      match this
      case Queued(_, _) => QueuedWarning
      case Processed(_, status) => StatusWarning(status)
      case _ => ""
    }
  }

  const QueuedWarning: string :=
    "Your A2P campaign is under review. Messages are queued but will not be delivered until your campaign is approved (typically 2-3 weeks). Your phone number has been saved and you will receive notifications once the campaign is active."

  function StatusWarning(status: string): string {
    "Message status: " + status + ". Your A2P campaign is under review, so delivery may be delayed until approval."
  }

  /** The warning for an unrecognised status names that status. */
  lemma StatusWarningNamesStatus(status: string)
    ensures Contains(StatusWarning(status), status)
  {
    ContainsInfix("Message status: ", status,
      ". Your A2P campaign is under review, so delivery may be delayed until approval.");
  }

  predicate IsPending(status: string) {
    status == "queued" || status == "sent" || status == "sending"
  }

  predicate HasCreateError(m: Message) {
    m.errorCode != 0 || m.errorMessage != ""
  }

  /** Whether the status of a created message is fetched: only for a pending
      status on a message that carries no error. */
  predicate FetchesStatus(m: Message) {
    !HasCreateError(m) && IsPending(m.status)
  }

  function FetchedDetails(f: Message): (d: DeliveryDetails)
    ensures (f.errorCode == 30034 || f.errorCode == 21610) <==> d == CampaignUnderReview
  {
    if f.errorCode == 30034 || f.errorCode == 21610 then CampaignUnderReview
    else if f.errorMessage != "" then ReportedError(f.errorMessage)
    else DeliveryFailed
  }

  /** The reply to a created message, given what the status fetch would give. */
  function AfterCreate(m: Message, fetch: FetchOutcome): (reply: SmsReply)
    ensures HasCreateError(m) ==> reply.Status() == 500 && reply.Success() == Some(false)
    ensures !HasCreateError(m) && m.status == "delivered" ==>
              reply.Status() == 200 && reply.Success() == Some(true) && reply.Warning() == ""
    ensures FetchesStatus(m) ==>
              if fetch.Fetched? && fetch.message.errorCode != 0 then
                reply.Status() == 500 && reply.Success() == Some(false)
                && reply.DeliveryRejected?
                && (reply.delivery == CampaignUnderReview <==>
                    fetch.message.errorCode == 30034 || fetch.message.errorCode == 21610)
              else
                reply.Status() == 200 && reply.Success() == Some(true) && reply.Warning() == QueuedWarning
    ensures !HasCreateError(m) && m.status != "delivered" && !IsPending(m.status) ==>
              reply.Status() == 200 && reply.Success() == Some(true) && Contains(reply.Warning(), m.status)
  {
    if HasCreateError(m) then
      CreateRejected(if m.errorMessage != "" then m.errorMessage else CreationFailed, m.errorCode, m.sid)
    else if m.status == "delivered" then
      Delivered(m.sid, m.status)
    else if IsPending(m.status) then
      match fetch
      case Fetched(f) =>
        if f.errorCode != 0 then DeliveryRejected(FetchedDetails(f), f.errorCode, f.sid)
        else Queued(m.sid, m.status)
      case FetchThrew => Queued(m.sid, m.status)
    else
      StatusWarningNamesStatus(m.status);
      Processed(m.sid, m.status)
  }

  datatype Handled = Handled(reply: SmsReply, calls: seq<GatewayCall>)

  /** The gateway part of the handler, once the request has passed its
      checks: the create call, then the status fetch where one is made. */
  function Dispatch(createCall: GatewayCall, create: CreateOutcome, fetch: FetchOutcome): (h: Handled)
    ensures 1 <= |h.calls| <= 2 && h.calls[0] == createCall
    ensures create.CreateThrew? ==> h.reply.Status() == 500
    ensures create.CreateThrew? ==>
              h.reply == if ClassifyError(create.error) == InvalidSender then CatchThrew
                         else SendFailed(ClassifyError(create.error), create.error.code)
    ensures create.Created? ==> h.reply == AfterCreate(create.message, fetch)
    ensures |h.calls| == 2 <==> create.Created? && FetchesStatus(create.message)
    ensures |h.calls| == 2 ==> h.calls[1] == FetchCall(create.message.sid)
  {
    match create
    case CreateThrew(e) =>
      var kind := ClassifyError(e);
      Handled(if kind == InvalidSender then CatchThrew else SendFailed(kind, e.code), [createCall])
    case Created(m) =>
      Handled(AfterCreate(m, fetch), [createCall] + if FetchesStatus(m) then [FetchCall(m.sid)] else [])
  }

  /** The handler. `phoneNumber` and `message` are the body fields, `""`
      standing for a missing one; `create` and `fetch` are what the gateway
      would do if asked. */
  function Handle(httpMethod: string, phoneNumber: string, message: string, env: Env,
                  create: CreateOutcome, fetch: FetchOutcome): (h: Handled)
    ensures httpMethod != "POST" ==> h == Handled(MethodNotAllowed, [])
    ensures httpMethod == "POST" && phoneNumber == "" ==> h == Handled(PhoneRequired, [])
    ensures httpMethod == "POST" && phoneNumber != "" && !CredentialsPresent(env) ==>
              h == Handled(MissingCredentials, [])
    ensures h.calls != [] <==> httpMethod == "POST" && phoneNumber != "" && CredentialsPresent(env)
    ensures h.calls != [] ==>
              h == Dispatch(CreateCall(FormatPhoneForTwilio(phoneNumber),
                                       FormatPhoneForTwilio(env.fromNumber.value),
                                       if message == "" then DefaultBody else message),
                            create, fetch)
  {
    if httpMethod != "POST" then Handled(MethodNotAllowed, [])
    else if phoneNumber == "" then Handled(PhoneRequired, [])
    else if !CredentialsPresent(env) then Handled(MissingCredentials, [])
    else
      var formattedPhone := FormatPhoneForTwilio(phoneNumber);
      var formattedFrom := FormatPhoneForTwilio(env.fromNumber.value);
      Dispatch(CreateCall(formattedPhone, formattedFrom, if message == "" then DefaultBody else message), create, fetch)
  }
}
