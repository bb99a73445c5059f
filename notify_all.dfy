/** The broadcast endpoint (`pages/api/notify-all.js`): one pass over the
    subscriber list that sends the message to each subscriber, marks the
    record notified when both the send and the update succeed, and reports
    one entry per subscriber. The gateway, the update and the clock are
    parameters indexed by the subscriber's position in the list. */
module NotifyAll {
  import opened Wrappers
  import opened Strings
  import opened Store
  import Firestore
  import SendSms

  /** This file's own `formatPhoneForTwilio`; it is the one in the
      confirmation-text endpoint. */
  function FormatPhoneForTwilio(phoneNumber: string): (r: string)
    ensures r == SendSms.FormatPhoneForTwilio(phoneNumber)
  {
    var numbers := DigitsOf(phoneNumber);
    if |numbers| == 10 then "+1" + numbers
    else if |numbers| == 11 && numbers[0] == '1' then "+" + numbers
    else "+" + numbers
  }

  /** What `messages.create` does for one subscriber. */
  datatype SendOutcome = SendOk(sid: string) | SendThrew(message: string)

  /** The create call made for one subscriber. */
  datatype Attempt = Attempt(to: string, from: string, body: string)

  /** One entry of `results`. */
  datatype Entry = Sent(phone: string, messageSid: string) | Failed(phone: string, error: string)

  /** The message of the `TypeError` thrown when the sender variable is
      unset and its `replace` is looked up on `undefined`. */
  const UnsetSenderError: string := "Cannot read properties of undefined (reading 'replace')"

  /** The entry for one subscriber, given the sender variable and what the
      send and the update do. */
  function EntryFor(sub: Doc, fromNumber: Option<string>, send: SendOutcome, updateError: Option<string>)
    : (e: Entry)
    ensures e.phone == sub.data.phone
    ensures e.Sent? <==> fromNumber.Some? && send.SendOk? && updateError.None?
    ensures e.Sent? ==> e.messageSid == send.sid
    ensures fromNumber.None? ==> e == Failed(sub.data.phone, UnsetSenderError)
  {
    if fromNumber.None? then Failed(sub.data.phone, UnsetSenderError)
    else match send
      case SendThrew(message) => Failed(sub.data.phone, message)
      case SendOk(sid) =>
        match updateError
        case Some(message) => Failed(sub.data.phone, message)
        case None => Sent(sub.data.phone, sid)
  }

  /** `results.filter(r => r.success)`. */
  function SentEntries(results: seq<Entry>): (s: seq<Entry>)
    ensures |s| <= |results|
    ensures forall k :: 0 <= k < |s| ==> s[k].Sent?
    ensures forall x :: multiset(s)[x] == if x.Sent? then multiset(results)[x] else 0
  {
    if results == [] then []
    else
      assert results == [results[0]] + results[1..];
      (if results[0].Sent? then [results[0]] else []) + SentEntries(results[1..])
  }

  /** `results.filter(r => !r.success)`. */
  function FailedEntries(results: seq<Entry>): (s: seq<Entry>)
    ensures |s| <= |results|
    ensures forall k :: 0 <= k < |s| ==> s[k].Failed?
    ensures forall x :: multiset(s)[x] == if x.Failed? then multiset(results)[x] else 0
  {
    if results == [] then []
    else
      assert results == [results[0]] + results[1..];
      (if results[0].Failed? then [results[0]] else []) + FailedEntries(results[1..])
  }

  /** Every entry is counted exactly once: `sent + failed == results.length`. */
  lemma {:induction false} SentPlusFailed(results: seq<Entry>)
    ensures |SentEntries(results)| + |FailedEntries(results)| == |results|
  {
    if results != [] {
      SentPlusFailed(results[1..]);
    }
  }

  /** No entry failed exactly when every entry was sent. */
  lemma {:induction false} NoneFailedIffAllSent(results: seq<Entry>)
    ensures FailedEntries(results) == [] <==> SentEntries(results) == results
  {
    if results != [] {
      NoneFailedIffAllSent(results[1..]);
      SentPlusFailed(results[1..]);
      if results[0].Sent? {
        assert [results[0]] + SentEntries(results[1..]) == results
          <==> SentEntries(results[1..]) == results[1..] by {
          if [results[0]] + SentEntries(results[1..]) == results {
            assert results == [results[0]] + results[1..];
          }
        }
      } else {
        assert |SentEntries(results[1..])| <= |results[1..]| < |results|;
      }
    }
  }

  datatype NotifyReply =
    | MethodNotAllowed
    | MessageRequired
    | Report(total: nat, sent: nat, failed: nat, results: seq<Entry>)
  {
    function Status(): int {
      match this
      case MethodNotAllowed => 405
      case MessageRequired => 400
      case Report(_, _, _, _) => 200
    }
  }

  /** The record of subscriber `k` after the pass: marked at `clock(k)` when
      its entry is a success, untouched otherwise. */
  function After(d: Doc, e: Entry, at: Time): Doc {
    if e.Sent? then Doc(d.id, MarkNotified(d.data, at)) else d
  }

  /** Marking records keeps each phone where it was and sets `notifiedAt`
      together with `notified`, so unique phones and consistent
      timestamps survive the pass. */
  lemma PassKeeps(before: seq<Doc>, after: seq<Doc>, results: seq<Entry>, clock: nat -> Time)
    requires |after| == |before| <= |results|
    requires forall k :: 0 <= k < |after| ==> after[k] == After(before[k], results[k], clock(k))
    ensures UniquePhones(before) ==> UniquePhones(after)
    ensures NotifiedConsistent(before) ==> NotifiedConsistent(after)
  {
    assert forall k :: 0 <= k < |after| ==> after[k].data.phone == before[k].data.phone;
  }

  /** One turn of the loop: format the numbers, send, and mark the record
      at `position` when the send and the update both succeed. */
  method NotifyOne(db: Collection, position: nat, subscriber: Doc, message: string,
                   fromNumber: Option<string>, send: SendOutcome, updateError: Option<string>, at: Time)
    returns (entry: Entry, attempt: Option<Attempt>)
    requires db.Valid() && position < |db.docs| && db.docs[position].id == subscriber.id
    modifies db
    ensures db.Valid()
    ensures entry == EntryFor(subscriber, fromNumber, send, updateError)
    ensures attempt == if fromNumber.None? then None
                       else Some(Attempt(FormatPhoneForTwilio(subscriber.data.phone),
                                         FormatPhoneForTwilio(fromNumber.value), message))
    ensures db.docs == old(db.docs)[position := After(old(db.docs)[position], entry, at)]
  {
    if fromNumber.None? {
      return Failed(subscriber.data.phone, UnsetSenderError), None;
    }
    var formattedPhone := FormatPhoneForTwilio(subscriber.data.phone);
    var formattedFrom := FormatPhoneForTwilio(fromNumber.value);
    attempt := Some(Attempt(formattedPhone, formattedFrom, message));
    match send
    case SendThrew(error) =>
      entry := Failed(subscriber.data.phone, error);
      assert db.docs == old(db.docs)[position := old(db.docs)[position]];
    case SendOk(sid) =>
      match updateError
      case Some(error) =>
        entry := Failed(subscriber.data.phone, error);
        assert db.docs == old(db.docs)[position := old(db.docs)[position]];
      case None =>
        IndexOfDistinct(db.docs, position);
        var found := db.UpdateNotified(subscriber.id, at);
        entry := Sent(subscriber.data.phone, sid);
  }

  /** The loop of the handler: one turn per listed subscriber, in order.
      The `k`-th subscriber is the document at position `k`. */
  method NotifyEach(db: Collection, subscribers: seq<Doc>, message: string, fromNumber: Option<string>,
                    send: nat -> SendOutcome, updateError: nat -> Option<string>, clock: nat -> Time)
    returns (results: seq<Entry>, attempts: seq<Attempt>)
    requires db.Valid() && |subscribers| <= |db.docs|
    requires forall k :: 0 <= k < |subscribers| ==> subscribers[k].id == db.docs[k].id
    modifies db
    ensures db.Valid()
    ensures |results| == |subscribers|
    ensures forall k :: 0 <= k < |subscribers| ==>
              results[k] == EntryFor(subscribers[k], fromNumber, send(k), updateError(k))
    ensures fromNumber.None? ==> attempts == []
    ensures fromNumber.Some? ==>
              && |attempts| == |subscribers|
              && forall k :: 0 <= k < |subscribers| ==>
                   attempts[k] == Attempt(FormatPhoneForTwilio(subscribers[k].data.phone),
                                          FormatPhoneForTwilio(fromNumber.value), message)
    ensures |db.docs| == |old(db.docs)|
    ensures forall k :: 0 <= k < |subscribers| ==> db.docs[k] == After(old(db.docs)[k], results[k], clock(k))
    ensures forall k :: |subscribers| <= k < |db.docs| ==> db.docs[k] == old(db.docs)[k]
  {
    results := [];
    attempts := [];
    var i := 0;
    while i < |subscribers|
      invariant 0 <= i <= |subscribers|
      invariant db.Valid()
      invariant |results| == i
      invariant forall k :: 0 <= k < i ==>
                  results[k] == EntryFor(subscribers[k], fromNumber, send(k), updateError(k))
      invariant fromNumber.None? ==> attempts == []
      invariant fromNumber.Some? ==>
                  && |attempts| == i
                  && forall k :: 0 <= k < i ==>
                       attempts[k] == Attempt(FormatPhoneForTwilio(subscribers[k].data.phone),
                                              FormatPhoneForTwilio(fromNumber.value), message)
      invariant |db.docs| == |old(db.docs)|
      invariant forall k :: 0 <= k < i ==> db.docs[k] == After(old(db.docs)[k], results[k], clock(k))
      invariant forall k :: i <= k < |db.docs| ==> db.docs[k] == old(db.docs)[k]
    {
      var entry, attempt := NotifyOne(db, i, subscribers[i], message, fromNumber, send(i), updateError(i), clock(i));
      if attempt.Some? {
        attempts := attempts + [attempt.value];
      }
      results := results + [entry];
      i := i + 1;
    }
  }

  /** The handler. `message` is the body field, `""` standing for a missing
      one; `fromNumber` is the sender variable; for the subscriber at
      position `k`, `send(k)` is what the gateway does, `updateError(k)` the
      error of the record update if it throws, and `clock(k)` the time. */
  method Handler(db: Collection, httpMethod: string, message: string, fromNumber: Option<string>,
                 listFails: bool, send: nat -> SendOutcome, updateError: nat -> Option<string>,
                 clock: nat -> Time)
    returns (reply: NotifyReply, attempts: seq<Attempt>)
    requires db.Valid()
    modifies db
    ensures db.Valid()
    ensures httpMethod != "POST" ==>
              reply == MethodNotAllowed && attempts == [] && db.docs == old(db.docs)
    ensures httpMethod == "POST" && message == "" ==>
              reply == MessageRequired && attempts == [] && db.docs == old(db.docs)
    ensures httpMethod == "POST" && message != "" ==> reply.Report?
    ensures reply.Report? ==>
              var subscribers := Firestore.GetAllSubscribers(old(db.docs), listFails);
              && reply.total == |subscribers| == |reply.results|
              && forall k :: 0 <= k < |subscribers| ==>
                   reply.results[k] == EntryFor(subscribers[k], fromNumber, send(k), updateError(k))
    ensures reply.Report? ==>
              && reply.sent == |SentEntries(reply.results)|
              && reply.failed == |FailedEntries(reply.results)|
              && reply.sent + reply.failed == reply.total
    ensures reply.Report? && fromNumber.None? ==> attempts == []
    ensures reply.Report? && fromNumber.Some? ==>
              var subscribers := Firestore.GetAllSubscribers(old(db.docs), listFails);
              && |attempts| == |subscribers|
              && forall k :: 0 <= k < |subscribers| ==>
                   attempts[k] == Attempt(FormatPhoneForTwilio(subscribers[k].data.phone),
                                          FormatPhoneForTwilio(fromNumber.value), message)
    ensures reply.Report? && listFails ==> db.docs == old(db.docs)
    ensures reply.Report? && !listFails ==>
              && |db.docs| == |old(db.docs)|
              && forall k :: 0 <= k < |db.docs| ==>
                   db.docs[k] == After(old(db.docs)[k], reply.results[k], clock(k))
    ensures UniquePhones(old(db.docs)) ==> UniquePhones(db.docs)
    ensures NotifiedConsistent(old(db.docs)) ==> NotifiedConsistent(db.docs)
  {
    if httpMethod != "POST" {
      return MethodNotAllowed, [];
    }
    if message == "" {
      return MessageRequired, [];
    }
    var subscribers := Firestore.GetAllSubscribers(db.docs, listFails);
    var results;
    results, attempts := NotifyEach(db, subscribers, message, fromNumber, send, updateError, clock);
    if listFails {
      assert db.docs == old(db.docs);
    } else {
      PassKeeps(old(db.docs), db.docs, results, clock);
    }
    SentPlusFailed(results);
    reply := Report(|subscribers|, |SentEntries(results)|, |FailedEntries(results)|, results);
  }
}
