/** The `subscribers` collection of the document store, reduced to what the
    handlers use: an ordered list of documents, each with a store-assigned
    id, a duplicate query on `phone`, append, and a partial update that sets
    `notified`/`notifiedAt`. */
module Store {
  import opened Wrappers

  /** An opaque timestamp (`new Date()`). */
  type Time = int

  /** The fields the handlers write into a subscriber document. */
  datatype Record = Record(
    phone: string,
    formattedPhone: string,
    createdAt: Time,
    notified: bool,
    notifiedAt: Option<Time>)

  /** A stored document: its id and its data. */
  datatype Doc = Doc(id: nat, data: Record)

  /** The record a signup writes: not yet notified. */
  function NewRecord(phone: string, formattedPhone: string, createdAt: Time): (r: Record)
    ensures r.phone == phone && r.formattedPhone == formattedPhone && r.createdAt == createdAt
    ensures !r.notified && r.notifiedAt.None?
  {
    Record(phone, formattedPhone, createdAt, false, None)
  }

  /** The update `{ notified: true, notifiedAt: at }` merged into a record. */
  function MarkNotified(r: Record, at: Time): (m: Record)
    ensures m.notified && m.notifiedAt == Some(at)
    ensures m.phone == r.phone && m.formattedPhone == r.formattedPhone && m.createdAt == r.createdAt
  {
    r.(notified := true, notifiedAt := Some(at))
  }

  /** `query(where('phone', '==', key))` finds at least one document. */
  predicate HasPhone(docs: seq<Doc>, key: string)
    ensures HasPhone(docs, key) <==> exists i :: 0 <= i < |docs| && docs[i].data.phone == key
  {
    if docs == [] then false
    else docs[0].data.phone == key || HasPhone(docs[1..], key)
  }

  /** The position of the document with id `id`, the first if several. */
  function IndexOfId(docs: seq<Doc>, id: nat): (k: Option<nat>)
    ensures k.Some? ==> k.value < |docs| && docs[k.value].id == id
    ensures k.Some? ==> forall j :: 0 <= j < k.value ==> docs[j].id != id
    ensures k.None? <==> forall j :: 0 <= j < |docs| ==> docs[j].id != id
  {
    if docs == [] then None
    else if docs[0].id == id then Some(0)
    else match IndexOfId(docs[1..], id)
      case None => None
      case Some(k) => Some(k + 1)
  }

  predicate DistinctIds(docs: seq<Doc>) {
    forall i, j :: 0 <= i < j < |docs| ==> docs[i].id != docs[j].id
  }

  /** With distinct ids, the document with a given id is found where it is. */
  lemma IndexOfDistinct(docs: seq<Doc>, i: nat)
    requires DistinctIds(docs) && i < |docs|
    ensures IndexOfId(docs, docs[i].id) == Some(i)
  {
  }

  /** At most one document per `phone`. */
  predicate UniquePhones(docs: seq<Doc>) {
    forall i, j :: 0 <= i < j < |docs| ==> docs[i].data.phone != docs[j].data.phone
  }

  /** Appending a document whose phone is not yet stored keeps phones unique. */
  lemma {:induction false} AppendKeepsUnique(docs: seq<Doc>, d: Doc)
    requires UniquePhones(docs) && !HasPhone(docs, d.data.phone)
    ensures UniquePhones(docs + [d])
  {
    var docs' := docs + [d];
    forall i, j | 0 <= i < j < |docs'|
      ensures docs'[i].data.phone != docs'[j].data.phone
    {
      if j == |docs| {
        assert docs'[i] == docs[i];
      }
    }
  }

  /** `notifiedAt` is set if and only if `notified` is true. */
  predicate NotifiedConsistent(docs: seq<Doc>) {
    forall i :: 0 <= i < |docs| ==> (docs[i].data.notified <==> docs[i].data.notifiedAt.Some?)
  }

  /** The collection. Ids come from a counter, so they are never reused. */
  class Collection {
    var docs: seq<Doc>
    var nextId: nat

    ghost predicate Valid()
      reads this
    {
      && DistinctIds(docs)
      && forall i :: 0 <= i < |docs| ==> docs[i].id < nextId
    }

    constructor ()
      ensures Valid() && docs == []
    {
      docs := [];
      nextId := 0;
    }

    /** `addDoc`: store `data` under a fresh id. */
    method Add(data: Record) returns (id: nat)
      requires Valid()
      modifies this
      ensures Valid()
      ensures docs == old(docs) + [Doc(id, data)]
      ensures forall i :: 0 <= i < |old(docs)| ==> old(docs)[i].id != id
    {
      id := nextId;
      docs := docs + [Doc(id, data)];
      nextId := nextId + 1;
    }

    /** `updateDoc(doc(db, 'subscribers', id), { notified: true, notifiedAt: at })`;
        `found` is false when no document has that id (the SDK then throws). */
    method UpdateNotified(id: nat, at: Time) returns (found: bool)
      requires Valid()
      modifies this
      ensures Valid()
      ensures var k := IndexOfId(old(docs), id);
        && found == k.Some?
        && docs == if found then old(docs)[k.value := Doc(id, MarkNotified(old(docs)[k.value].data, at))]
                   else old(docs)
    {
      var k := IndexOfId(docs, id);
      found := k.Some?;
      if found {
        docs := docs[k.value := Doc(id, MarkNotified(docs[k.value].data, at))];
      }
    }
  }
}
