/** The signup endpoint (`pages/api/subscribe.js`): normalise the submitted
    number to a 10-digit key, refuse a key already stored, otherwise append
    one subscriber document. */
module SubscribeApi {
  import opened Wrappers
  import opened Strings
  import opened Store

  /** `cleanPhone`: the digits, less a leading `1` when there are exactly
      eleven; any key that is not then ten digits long is refused. */
  function NormalizePhone(phoneNumber: string): (key: Option<string>)
    ensures var d := DigitsOf(phoneNumber);
      key.Some? <==> (|d| == 10 || (|d| == 11 && d[0] == '1'))
    ensures key.Some? ==> |key.value| == 10 && AllDigits(key.value)
    ensures key.Some? ==> key.value == DigitsOf(phoneNumber)[|DigitsOf(phoneNumber)| - 10..]
  {
    var cleanPhone := DigitsOf(phoneNumber);
    var cleanPhone' := if |cleanPhone| == 11 && cleanPhone[0] == '1' then cleanPhone[1..] else cleanPhone;
    if |cleanPhone'| != 10 then None else Some(cleanPhone')
  }

  /** Every stored key is a 10-digit string. */
  predicate CanonicalPhones(docs: seq<Doc>) {
    forall i :: 0 <= i < |docs| ==> |docs[i].data.phone| == 10 && AllDigits(docs[i].data.phone)
  }

  /** Appending a fresh signup keeps every stored key canonical and every
      `notifiedAt` consistent with `notified`. */
  lemma AppendSignupKeeps(docs: seq<Doc>, id: nat, key: string, phoneNumber: string, now: Time)
    requires |key| == 10 && AllDigits(key)
    ensures CanonicalPhones(docs) ==> CanonicalPhones(docs + [Doc(id, NewRecord(key, phoneNumber, now))])
    ensures NotifiedConsistent(docs) ==> NotifiedConsistent(docs + [Doc(id, NewRecord(key, phoneNumber, now))])
  {
  }

  /** Where the document store fails, if it does: the duplicate query or the
      insert throws with `message`. */
  datatype StoreFault = NoFault | QueryFails(message: string) | AddFails(message: string)

  /** The handler's responses. */
  datatype SubscribeReply =
    | MethodNotAllowed
    | PhoneRequired
    | InvalidFormat
    | AlreadyRegistered
    | Subscribed(id: nat)
    | StoreError(message: string)
  {
    function Status(): int {
      match this
      case MethodNotAllowed => 405
      case PhoneRequired => 400
      case InvalidFormat => 400
      case AlreadyRegistered => 400
      case Subscribed(_) => 200
      case StoreError(_) => 500
    }

    /** The `success` field, where the body has one. */
    function Success(): Option<bool> {
      match this
      case AlreadyRegistered => Some(false)
      case Subscribed(_) => Some(true)
      case StoreError(_) => Some(false)
      case _ => None
    }
  }

  /** The handler. `phoneNumber` is the body field, with `""` standing for a
      missing one; `queried` says whether the store was consulted. */
  method Handler(db: Collection, httpMethod: string, phoneNumber: string, now: Time, fault: StoreFault)
    returns (reply: SubscribeReply, queried: bool)
    requires db.Valid()
    modifies db
    ensures db.Valid()
    ensures httpMethod != "POST" ==> reply == MethodNotAllowed
    ensures httpMethod == "POST" && phoneNumber == "" ==> reply == PhoneRequired
    ensures httpMethod == "POST" && phoneNumber != "" && NormalizePhone(phoneNumber).None? ==>
              reply == InvalidFormat
    ensures queried <==> httpMethod == "POST" && NormalizePhone(phoneNumber).Some?
    ensures !queried ==> db.docs == old(db.docs)
    ensures queried ==>
              var key := NormalizePhone(phoneNumber).value;
              if fault.QueryFails? then
                reply == StoreError(fault.message) && db.docs == old(db.docs)
              else if HasPhone(old(db.docs), key) then
                reply == AlreadyRegistered && db.docs == old(db.docs)
              else if fault.AddFails? then
                reply == StoreError(fault.message) && db.docs == old(db.docs)
              else
                && reply.Subscribed?
                && db.docs == old(db.docs) + [Doc(reply.id, NewRecord(key, phoneNumber, now))]
                && forall i :: 0 <= i < |old(db.docs)| ==> old(db.docs)[i].id != reply.id
    ensures UniquePhones(old(db.docs)) ==> UniquePhones(db.docs)
    ensures CanonicalPhones(old(db.docs)) ==> CanonicalPhones(db.docs)
    ensures NotifiedConsistent(old(db.docs)) ==> NotifiedConsistent(db.docs)
  {
    queried := false;
    if httpMethod != "POST" {
      return MethodNotAllowed, queried;
    }
    if phoneNumber == "" {
      return PhoneRequired, queried;
    }
    var key := NormalizePhone(phoneNumber);
    if key.None? {
      return InvalidFormat, queried;
    }
    queried := true;
    if fault.QueryFails? {
      return StoreError(fault.message), queried;
    }
    if HasPhone(db.docs, key.value) {
      return AlreadyRegistered, queried;
    }
    if fault.AddFails? {
      return StoreError(fault.message), queried;
    }
    var record := NewRecord(key.value, phoneNumber, now);
    ghost var before := db.docs;
    var id := db.Add(record);
    if UniquePhones(before) {
      AppendKeepsUnique(before, Doc(id, record));
    }
    AppendSignupKeeps(before, id, key.value, phoneNumber, now);
    reply := Subscribed(id);
  }

  /** Two submissions of the same number, with a working store that does not
      hold its key yet: the first appends one document, the second is
      refused and appends none. */
  method SubscribeTwice(db: Collection, first: string, second: string, now: Time)
    returns (r1: SubscribeReply, r2: SubscribeReply)
    requires db.Valid()
    requires NormalizePhone(first).Some? && NormalizePhone(first) == NormalizePhone(second)
    requires !HasPhone(db.docs, NormalizePhone(first).value)
    modifies db
    ensures r1.Subscribed? && r2 == AlreadyRegistered
    ensures |db.docs| == |old(db.docs)| + 1 && db.docs[..|old(db.docs)|] == old(db.docs)
    ensures db.docs[|old(db.docs)|].data.phone == NormalizePhone(first).value
  {
    var queried;
    r1, queried := Handler(db, "POST", first, now, NoFault);
    ghost var last := |db.docs| - 1;
    assert db.docs[last].data.phone == NormalizePhone(second).value;
    r2, queried := Handler(db, "POST", second, now, NoFault);
  }
}
