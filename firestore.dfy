/** The store helpers (`firebase/firestore.js`): an alternate signup path
    that keys on every digit of the input, and the subscriber listing that
    the broadcast endpoint uses. */
module Firestore {
  import opened Strings
  import opened Store
  import SubscribeApi

  /** What `savePhoneNumber` resolves to; it never throws. */
  datatype SaveResult =
    | Saved(id: nat)
    | NotSaved(reason: SaveError)
  {
    predicate Success() { Saved? }
  }

  datatype SaveError = AlreadyRegistered | StoreMessage(message: string)

  /** The key of this path: all digits, no country-code stripping and no
      length check. */
  function SaveKey(phoneNumber: string): (key: string)
    ensures AllDigits(key) && |key| <= |phoneNumber|
  {
    DigitsOf(phoneNumber)
  }

  /** `savePhoneNumber(phoneNumber)`. A store failure (`fault`) becomes a
      `NotSaved` result carrying the store's message. */
  method SavePhoneNumber(db: Collection, phoneNumber: string, now: Time, fault: SubscribeApi.StoreFault)
    returns (result: SaveResult)
    requires db.Valid()
    modifies db
    ensures db.Valid()
    ensures var key := SaveKey(phoneNumber);
      if fault.QueryFails? then
        result == NotSaved(StoreMessage(fault.message)) && db.docs == old(db.docs)
      else if HasPhone(old(db.docs), key) then
        result == NotSaved(AlreadyRegistered) && db.docs == old(db.docs)
      else if fault.AddFails? then
        result == NotSaved(StoreMessage(fault.message)) && db.docs == old(db.docs)
      else
        && result.Saved?
        && db.docs == old(db.docs) + [Doc(result.id, NewRecord(key, phoneNumber, now))]
        && forall i :: 0 <= i < |old(db.docs)| ==> old(db.docs)[i].id != result.id
    ensures UniquePhones(old(db.docs)) ==> UniquePhones(db.docs)
  {
    var cleanPhone := SaveKey(phoneNumber);
    if fault.QueryFails? {
      return NotSaved(StoreMessage(fault.message));
    }
    if HasPhone(db.docs, cleanPhone) {
      return NotSaved(AlreadyRegistered);
    }
    if fault.AddFails? {
      return NotSaved(StoreMessage(fault.message));
    }
    var record := NewRecord(cleanPhone, phoneNumber, now);
    ghost var before := db.docs;
    var id := db.Add(record);
    if UniquePhones(before) {
      AppendKeepsUnique(before, Doc(id, record));
    }
    result := Saved(id);
  }

  /** The same subscriber can be stored twice, once by each signup path: an
      11-digit number with a leading `1` keys differently here and in the
      signup endpoint. */
  lemma KeysDifferFromSignup(phoneNumber: string)
    requires |DigitsOf(phoneNumber)| == 11 && DigitsOf(phoneNumber)[0] == '1'
    ensures SubscribeApi.NormalizePhone(phoneNumber).Some?
    ensures SaveKey(phoneNumber) != SubscribeApi.NormalizePhone(phoneNumber).value
  {
  }

  /** `getAllSubscribers()`: every document with its id, in store order;
      a listing failure yields no subscribers rather than an error. */
  function GetAllSubscribers(docs: seq<Doc>, listFails: bool): (subscribers: seq<Doc>)
    ensures listFails ==> subscribers == []
    ensures !listFails ==> |subscribers| == |docs|
    ensures !listFails ==> forall i :: 0 <= i < |docs| ==>
      subscribers[i].id == docs[i].id && subscribers[i].data == docs[i].data
  {
    if listFails then [] else seq(|docs|, i requires 0 <= i < |docs| => Doc(docs[i].id, docs[i].data))
  }
}
