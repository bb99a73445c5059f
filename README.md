# Coming-soon signup: a Dafny model

This project models the core of a "coming soon" landing page for phone
signups:
- the input mask of the signup form;
- the form's submit flow;
- the signup endpoint, which normalises the number to a 10-digit key and stores it once;
- the confirmation-text endpoint, which maps the SMS gateway's outcome to a response;
- the broadcast endpoint, which texts every subscriber and marks each one notified;
- the two document-store helpers.

The code is plain Dafny with no external dependencies. The modules are:

| file | module | models |
|---|---|---|
| common.dfy | `Wrappers`, `Strings` | `Option`; `replace(/\D/g, '')` (`DigitsOf`), `slice`, `includes` |
| phone_mask.dfy | `PhoneMask` | `formatPhoneNumber` as a function of the field's previous value and the new input, plus a reference definition: a mask template filled with digits |
| store.dfy | `Store` | the `subscribers` collection: a `Collection` class over a sequence of documents with counter-assigned ids |
| subscribe.dfy | `SubscribeApi` | the signup `handler` |
| firestore.dfy | `Firestore` | `savePhoneNumber` and `getAllSubscribers` |
| send_sms.dfy | `SendSms` | `formatPhoneForTwilio` and the confirmation-text `handler` as a decision tree over the gateway's outcomes |
| notify_all.dfy | `NotifyAll` | the broadcast `handler` loop and its own `formatPhoneForTwilio` |
| submit_form.dfy | `SubmitForm` | the form state (`SubscriptionForm` class), `handlePhoneChange` and `handleSubmit` |
| end_to_end.dfy | `EndToEnd` | properties that span the form and the endpoints |

Conventions of the model:
- A missing or falsy string field in a request or response is `""`, and a missing error code is `0`.
- An environment variable is an `Option<string>`. The broadcast endpoint distinguishes an unset sender number from an empty one.
- Store failures (`StoreFault`, `listFails`) and gateway behaviour (`CreateOutcome`, `FetchOutcome`, `send`) are parameters.
- For the broadcast, the update result and the clock are per-position functions, i.e. functions of the subscriber's position in the list.
- The form's two HTTP round trips are the `Response` values it would read.

Behaviour worth knowing:
- A thrown pending-compliance error gives a 500 with no `success` field. The form then shows the plain saved message, with no warning (`EndToEnd.PendingComplianceShownAsSaved`).
- A thrown error that takes the invalid-sender branch (code 21614, or a message containing "not a Twilio phone number") makes the catch block read `formattedFrom`, a `const` of the `try` block. That is a `ReferenceError`, so the endpoint answers with a 500 error page that is not JSON. The form then shows the generic error text and keeps the field, although the number was saved (`EndToEnd.InvalidSenderShownAsError`).
- If the text request rejects or its body is not JSON, the form shows the generic error text even though the number was saved (`SubmitForm.SmsThrewShowsError`).
- The signup endpoint puts its refusal texts in an `error` field, which the form never reads. The form therefore shows its own fallback text for an invalid number (`EndToEnd.SignupRepliesShown`).
- With a country code, a field showing only ten digits (`1 (555) 123-456`) is accepted by the signup endpoint. Its key is those ten digits, leading `1` included (`EndToEnd.MaskedValueNormalises`).

## Model

| member | source | states |
|---|---|---|
| Strings.DigitsOf | pages/api/subscribe.js:18 | the stripped string is all digits, no longer than the input, the input itself when it is all digits and empty when it has none |
| PhoneMask.FormatPhoneNumber | components/PhoneSubscriptionForm.js:25-72 | the result is empty exactly when the new input has no digits, whatever the previous value |
| PhoneMask.FillLength | components/PhoneSubscriptionForm.js:46-69 | a mask filled with no more digits than it has slots is no wider than the mask |
| PhoneMask.FillDigits | components/PhoneSubscriptionForm.js:46-69 | filling a mask whose literals hold no digits shows exactly the digits put in, in order |
| PhoneMask.MaskFacts | components/PhoneSubscriptionForm.js:46-69 | the local mask has 10 slots and width 14; the country mask has 11 slots and width 16 |
| PhoneMask.LocalMaskFill | components/PhoneSubscriptionForm.js:61-69 | for 1 to 10 digits, the branches without a country code equal the filled `(###) ###-####` mask |
| PhoneMask.CountryMaskFill | components/PhoneSubscriptionForm.js:50-60 | for 1 to 11 digits starting with `1`, the country-code branches equal the filled `# (###) ###-####` mask |
| PhoneMask.FinalNumbersShape | components/PhoneSubscriptionForm.js:34-44 | the capped digits start with `1` exactly when there is a country code, so the second re-prefix never fires; they are 1 to 10 (or 11) digits |
| PhoneMask.DigitsPreserved | components/PhoneSubscriptionForm.js:34-48 | the digits shown are the working digits cut to 10, or 11 with a country code, and nothing else |
| PhoneMask.MatchesMask | components/PhoneSubscriptionForm.js:46-69 | the formatted value is the local or country mask filled with the final digits |
| PhoneMask.StickyCountryCode | components/PhoneSubscriptionForm.js:30-37 | when the previous value started with `1` and the new digits do not, a `1` is put back in front and the output starts with `1` |
| PhoneMask.LengthBound | components/PhoneSubscriptionForm.js:50-69 | the output is at most 16 characters, the field's `maxLength`, and at most 14 without a country code |
| PhoneMask.Idempotent | components/PhoneSubscriptionForm.js:25-72 | formatting an output again, with itself as the previous value, returns it unchanged |
| Store.NewRecord | pages/api/subscribe.js:38-43 | a new record carries the given key, raw input and time, and is not notified |
| Store.MarkNotified | pages/api/notify-all.js:40-43 | the merged update sets `notified` and `notifiedAt` and keeps every other field |
| Store.HasPhone | pages/api/subscribe.js:28-31 | the duplicate query is non-empty exactly when some document has that `phone` |
| Store.IndexOfId | pages/api/notify-all.js:39 | the document reference resolves to the first document with that id, or to none exactly when no document has it |
| Store.IndexOfDistinct | pages/api/notify-all.js:39-40 | with distinct ids, each listed document's id resolves to its own position |
| Store.AppendKeepsUnique | pages/api/subscribe.js:28-43 | appending a document whose phone the query did not find keeps phones unique |
| Store.Collection.Add | pages/api/subscribe.js:38 | `addDoc` appends exactly one document under an id no existing document has |
| Store.Collection.UpdateNotified | pages/api/notify-all.js:39-43 | `updateDoc` replaces only the addressed document with its marked copy, and changes nothing when no document has that id |
| SubscribeApi.NormalizePhone | pages/api/subscribe.js:18-26 | a key exists exactly for 10 digits, or 11 digits with a leading `1`; it is the last ten digits |
| SubscribeApi.AppendSignupKeeps | pages/api/subscribe.js:38-43 | appending a signup keeps every key 10 digits and `notifiedAt` set only on notified records |
| SubscribeApi.Handler | pages/api/subscribe.js:6-56 | 405 and 400 without touching the store; the store is queried exactly for a normalisable number; a query or insert failure or a duplicate leaves the store unchanged; otherwise exactly one record is appended; unique and canonical keys are preserved |
| SubscribeApi.SubscribeTwice | pages/api/subscribe.js:28-47 | from any store that does not hold the key, a first signup appends one document with that key and a second signup of the same key is refused as already registered and appends nothing |
| Firestore.SaveKey | firebase/firestore.js:8 | this path's key is all digits, with no country-code or length rule |
| Firestore.SavePhoneNumber | firebase/firestore.js:6-29 | every failure is a `NotSaved` result and leaves the store unchanged; a duplicate is refused; otherwise one record keyed by all the digits is appended; unique phones are preserved |
| Firestore.KeysDifferFromSignup | firebase/firestore.js:8-10 | an 11-digit number with a leading `1` is keyed differently by this path and by the signup endpoint |
| Firestore.GetAllSubscribers | firebase/firestore.js:31-39 | a listing failure yields no subscribers; otherwise every document, in order, with its id |
| SendSms.FormatPhoneForTwilio | pages/api/send-sms.js:147-159 | `+1` and the digits for ten digits, `+` and the digits otherwise; always `+` followed only by digits |
| SendSms.ElevenDigitBranchIsFallback | pages/api/send-sms.js:154-158 | the 11-digit branch returns what the fallback returns |
| SendSms.FormatPhoneForTwilioIdempotent | pages/api/send-sms.js:147-159 | formatting a formatted number returns it unchanged |
| SendSms.ClassifyError | pages/api/send-sms.js:126-137 | code 21211 is always an invalid recipient and code 21614 always an invalid sender; an unclassified error keeps the gateway's message |
| SendSms.ClassifyMatchesTable | pages/api/send-sms.js:126-137 | the if-chain equals an ordered rule table: the first rule with a matching code, text or HTTP status decides |
| SendSms.StatusWarningNamesStatus | pages/api/send-sms.js:116 | the warning for any other status contains that status |
| SendSms.FetchedDetails | pages/api/send-sms.js:86-89 | the campaign text is chosen exactly for codes 30034 and 21610 |
| SendSms.AfterCreate | pages/api/send-sms.js:54-117 | an error on the created message is a 500 failure; `delivered` is a 200 success with no warning; a pending status is a failure only when the fetched message has an error code, otherwise a success with the queued warning; any other status is a success whose warning names it |
| SendSms.Dispatch | pages/api/send-sms.js:41-143 | the first gateway call is the create call; a thrown error is a 500: a crash of the catch block for an invalid-sender error, otherwise its classification and code; a created message is answered as above; a status fetch of that message is made exactly for a pending, error-free message |
| SendSms.Handle | pages/api/send-sms.js:3-145 | 405, 400 and the configuration error make no gateway call; otherwise the gateway is asked to send to the formatted number, from the formatted sender, with the default text when none is given |
| NotifyAll.FormatPhoneForTwilio | pages/api/notify-all.js:76-88 | this copy equals the confirmation-text endpoint's formatter on every input |
| NotifyAll.EntryFor | pages/api/notify-all.js:29-57 | each entry carries the subscriber's phone; it is a success exactly when the sender is set, the send succeeds and the update succeeds, with the send's sid |
| NotifyAll.SentEntries | pages/api/notify-all.js:63 | the success filter keeps every success, as often as it occurs, and nothing else |
| NotifyAll.FailedEntries | pages/api/notify-all.js:64 | the failure filter keeps every failure, as often as it occurs, and nothing else |
| NotifyAll.SentPlusFailed | pages/api/notify-all.js:60-66 | `sent + failed` equals the number of results |
| NotifyAll.NoneFailedIffAllSent | pages/api/notify-all.js:63-64 | no failures exactly when every result is a success |
| NotifyAll.NotifyOne | pages/api/notify-all.js:29-57 | one subscriber: the entry as above, a create call when the sender is set, and only that subscriber's record marked, exactly when the entry is a success |
| NotifyAll.NotifyEach | pages/api/notify-all.js:28-58 | the loop: for each listed subscriber in turn, its entry, its create call when the sender is set, and its record marked exactly when the entry succeeded; the records past the list are unchanged |
| NotifyAll.PassKeeps | pages/api/notify-all.js:40-43 | marking records keeps every phone in place, so unique phones and consistent `notifiedAt` survive the pass |
| NotifyAll.Handler | pages/api/notify-all.js:8-74 | 405 and 400 send nothing and change nothing; otherwise one entry per listed subscriber, in list order; `total` is the list length and `sent + failed = total`; one create call per subscriber when the sender is set; each record is marked exactly when its entry succeeded and is otherwise unchanged; unique phones and consistent `notifiedAt` are preserved |
| SubmitForm.SmsOnlyAfterSave | components/PhoneSubscriptionForm.js:86-113 | the save request always goes first, and the text request is sent exactly when the save response is ok with `success` |
| SubmitForm.Submit | components/PhoneSubscriptionForm.js:85-135 | some message is always shown; the field is cleared exactly when the save succeeded and the text endpoint answered in JSON; a save request that rejects or is not JSON shows the error text, sends nothing else and keeps the field |
| SubmitForm.SavedWhateverTheSms | components/PhoneSubscriptionForm.js:117-128 | after a successful save and any text reply, the message is one of the three saved messages, never an error; the field is cleared; a failed text shows the plain saved message; a warning is included in the message |
| SubmitForm.SmsThrewShowsError | components/PhoneSubscriptionForm.js:104-135 | after a successful save, a text request that rejects or a text reply that is not JSON shows the error text and keeps the field, with both requests sent |
| SubmitForm.FailedSaveKeepsField | components/PhoneSubscriptionForm.js:98-102 | a refused save shows the endpoint's message or the fallback, and keeps the field |
| SubmitForm.SubscriptionForm.constructor | components/PhoneSubscriptionForm.js:4-6 | the field starts empty, with no message and not submitting |
| SubmitForm.SubscriptionForm.HandlePhoneChange | components/PhoneSubscriptionForm.js:74-78 | the field becomes the mask of the input given its previous value, and the message is cleared; the field stays a mask fixed point of at most 16 characters |
| SubmitForm.SubscriptionForm.HandleSubmit | components/PhoneSubscriptionForm.js:80-139 | the requests sent, the message and the field value left are those of `Submit`, and submitting is over |
| EndToEnd.MaskedValueNormalises | pages/api/subscribe.js:18-26 | a masked value without a country code is accepted exactly when full; with one, exactly when it shows ten or eleven digits |
| EndToEnd.SmsGoesToStoredKey | pages/api/send-sms.js:147-159 | for every value the signup endpoint accepts, the gateway number is `+1` followed by the stored key |
| EndToEnd.LocalKey | pages/api/subscribe.js:18-26 | a typed ten-digit local number is stored under its ten digits |
| EndToEnd.CountryKey | pages/api/subscribe.js:18-22 | a typed `1` and ten digits is stored under the ten digits |
| EndToEnd.SameKeyWithOrWithoutCountryCode | pages/api/subscribe.js:18-22 | a number typed with or without a leading `1` gets the same key |
| EndToEnd.SubscribeAsSeen | pages/api/subscribe.js:6-56 | the form sees the signup endpoint's status; `ok` with `success` exactly for a stored signup; a non-empty `message` exactly for a duplicate and for a store failure with a text, which it carries |
| EndToEnd.SmsAsSeen | pages/api/send-sms.js:60-143 | the form's `json()` throws exactly for the crashed catch block; otherwise it sees the status and the warning, and `ok` with `success` exactly for a delivered, queued or other-status message |
| EndToEnd.SignupRepliesShown | components/PhoneSubscriptionForm.js:98-102 | signup refusals without a `message` show the fallback; a duplicate shows its own text; the text request follows exactly a stored signup |
| EndToEnd.ShownAfterSignup | components/PhoneSubscriptionForm.js:115-135 | after a stored signup, a text reply that is not JSON shows the error text and keeps the field; otherwise the field is cleared, a non-200 reply shows the plain saved message, and a 200 reply shows the warning text when it carries a warning, the confirmation text when not |
| EndToEnd.SmsRepliesShown | components/PhoneSubscriptionForm.js:115-135 | after a stored signup, the confirmation text is shown exactly for a delivered message, the warning text exactly for a queued or other status, the plain saved text exactly for a failure answered in JSON, and the error text, with the field kept, for the crashed catch block |
| EndToEnd.SavedMessagesDiffer | components/PhoneSubscriptionForm.js:119-135 | the warning, confirmation, saved and error texts are pairwise different, and the warning text is a saved message |
| EndToEnd.PendingComplianceShownAsSaved | pages/api/send-sms.js:133-143 | a thrown error classified as pending compliance gives a 500 carrying that classification and the error code; the form shows the plain saved message |
| EndToEnd.InvalidSenderShownAsError | pages/api/send-sms.js:131-132 | a thrown error classified as an invalid sender crashes the catch block; the form shows the error text and keeps the field |

## Left out

- Rendering, the JSX, input focus, the 3-second message clear and the `'Success'`-substring colour choice: React runtime behaviour, not logic.
- SubmitForm.SubscriptionForm.HandleSubmit: states only the final state. `isSubmitting` is true and the message empty only between the awaits, which the model does not interleave. A second submit during the first is not modelled.
- The `onSubmit` callback in `handleSubmit`: calls into code outside the form.
- Console logging in every file: output only.
- Request bodies whose fields are not strings: the model takes string fields, with `""` for a missing one.
- The gateway client construction at pages/api/send-sms.js:26-29 and pages/api/notify-all.js:19-22: library behaviour. With unset credentials, the broadcast endpoint's construction throws outside its `try`; the model does not cover that.
- SendSms.ClassifyError: returns a classification (`ErrorKind`) instead of the fixed `details` texts. Also, `error.message.includes` has no null guard; the model takes every thrown error to carry a message string and does not model that crash.
- SendSms.Dispatch: the framework's error page for the crashed catch block is not modelled beyond being a 500 that is not JSON.
- SendSms.FetchedDetails: returns a classification instead of the fixed campaign text and the default 'Message delivery failed' text.
- The outer `catch` of the broadcast endpoint (500, 'Failed to send notifications'): in the model, the listing never throws and the loop body catches every failure, so nothing reaches it.
- NotifyAll.Handler: the message for an unset sender variable is the engine's `TypeError` text, taken as a constant. A record deleted between the listing and its update is not modelled: nothing else runs during the pass.
- Store ids are naturals from a counter, not random strings. `createdAt` and `notifiedAt` are opaque integers supplied by the caller.
- The query-then-insert race between concurrent signups: no concurrency in the model.
- The store configuration module and the page components other than the form: not part of this model.
