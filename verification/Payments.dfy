/** The payments service's idempotent record store: two linked maps. */
module Payments {
  import opened Common

  datatype PaymentStatus = Unspecified | Awaiting | Authorized | Captured | Declined | Refunded

  datatype PaymentRecord = PaymentRecord(id: PaymentId, order: OrderId, amountCents: int, currency: string, status: PaymentStatus)

  datatype Authorization = Authorization(order: OrderId, amountCents: int, currency: string, key: Key)

  /** The state of the store. */
  datatype Records = Records(byId: map<PaymentId, PaymentRecord>, byKey: map<Key, PaymentId>) {
    /** Every indexed id has a record, every record sits under its own id, the empty key is never indexed. */
    ghost predicate Valid()
    {
      && (forall k :: k in byKey ==> k != "" && byKey[k] in byId)
      && (forall i :: i in byId ==> byId[i].id == i && byId[i].status == Authorized)
    }
  }

  const EMPTY := Records(map[], map[])

  predicate Known(r: Records, key: Key)
  {
    key != "" && key in r.byKey && r.byKey[key] in r.byId
  }

  function NewRecord(a: Authorization, uuid: PaymentId): PaymentRecord
  {
    PaymentRecord(uuid, a.order, a.amountCents, a.currency, Authorized)
  }

  function AuthorizeIn(r: Records, a: Authorization, uuid: PaymentId): (Records, PaymentRecord)
  {
    if Known(r, a.key) then (r, r.byId[r.byKey[a.key]])
    else
      var rec := NewRecord(a, uuid);
      (Records(r.byId[uuid := rec], if a.key != "" then r.byKey[a.key := uuid] else r.byKey), rec)
  }

  class PaymentsStore {
    var byId: map<PaymentId, PaymentRecord>
    var byIdempotencyKey: map<Key, PaymentId>

    function Contents(): Records
      reads this
    {
      Records(byId, byIdempotencyKey)
    }

    constructor ()
      ensures Contents() == EMPTY
    {
      byId := map[];
      byIdempotencyKey := map[];
    }

    /** `uuid` is the random UUID drawn by the call. */
    method Authorize(a: Authorization, uuid: PaymentId) returns (rec: PaymentRecord)
      requires Contents().Valid() && uuid !in byId
      modifies this
      ensures Contents().Valid()
      ensures (Contents(), rec) == AuthorizeIn(old(Contents()), a, uuid)
      ensures rec.id in byId && byId[rec.id] == rec && rec.status == Authorized
      // A call without a key, or with a new one, is recorded as it was asked; a known key gets its record.
      ensures a.key == "" || a.key !in old(byIdempotencyKey) ==>
        && rec.id == uuid && rec.order == a.order && rec.amountCents == a.amountCents && rec.currency == a.currency
        && byId == old(byId)[uuid := rec]
      ensures a.key != "" && a.key in old(byIdempotencyKey) ==>
        rec == old(byId)[old(byIdempotencyKey)[a.key]] && byId == old(byId) && byIdempotencyKey == old(byIdempotencyKey)
      ensures a.key != "" ==> a.key in byIdempotencyKey && byIdempotencyKey[a.key] == rec.id
      ensures forall i :: i in old(byId) ==> i in byId && byId[i] == old(byId[i])
      ensures forall k :: k in old(byIdempotencyKey) ==> k in byIdempotencyKey && byIdempotencyKey[k] == old(byIdempotencyKey[k])
    {
      if a.key != "" {
        if a.key in byIdempotencyKey {
          var existing := byIdempotencyKey[a.key];
          if existing in byId {
            return byId[existing];
          }
        }
      }
      rec := PaymentRecord(uuid, a.order, a.amountCents, a.currency, Authorized);
      byId := byId[uuid := rec];
      if a.key != "" {
        byIdempotencyKey := byIdempotencyKey[a.key := uuid];
      }
    }

    method GetStatus(id: PaymentId) returns (rec: Option<PaymentRecord>)
      ensures rec == if id in byId then Some(byId[id]) else None
    {
      if id in byId {
        return Some(byId[id]);
      }
      return None;
    }
  }

  // ----- Whole histories of calls -----

  datatype Request = Request(input: Authorization, uuid: PaymentId)

  function After(calls: seq<Request>): Records
  {
    if calls == [] then EMPTY
    else
      var last := calls[|calls| - 1];
      AuthorizeIn(After(calls[..|calls| - 1]), last.input, last.uuid).0
  }

  /** What the call at position `i` returned. */
  function Answer(calls: seq<Request>, i: nat): PaymentRecord
    requires i < |calls|
  {
    AuthorizeIn(After(calls[..i]), calls[i].input, calls[i].uuid).1
  }

  ghost predicate FreshIds(calls: seq<Request>)
  {
    forall i, j :: 0 <= i < j < |calls| ==> calls[i].uuid != calls[j].uuid
  }

  ghost function Keys(calls: seq<Request>): set<Key>
  {
    set c | c in calls && c.input.key != "" :: c.input.key
  }

  function Keyless(calls: seq<Request>): nat
  {
    if calls == [] then 0
    else Keyless(calls[..|calls| - 1]) + if calls[|calls| - 1].input.key == "" then 1 else 0
  }

  lemma KeysSnoc(calls: seq<Request>)
    requires calls != []
    ensures var last := calls[|calls| - 1].input.key;
      Keys(calls) == Keys(calls[..|calls| - 1]) + if last == "" then {} else {last}
  {
    var n := |calls| - 1;
    assert calls == calls[..n] + [calls[n]];
  }

  /** One call keeps the store consistent and answers with the record its key is indexed under. */
  lemma AuthorizeKeepsValid(r: Records, a: Authorization, uuid: PaymentId)
    requires r.Valid() && uuid !in r.byId
    ensures var (r', rec) := AuthorizeIn(r, a, uuid);
      && r'.Valid()
      && rec.id in r'.byId && r'.byId[rec.id] == rec
      && r'.byKey.Keys == r.byKey.Keys + (if a.key == "" then {} else {a.key})
      && (a.key != "" ==> r'.byKey[a.key] == rec.id)
      && (forall p :: p in r.byId ==> p in r'.byId && r'.byId[p] == r.byId[p])
      && (forall k :: k in r.byKey ==> r'.byKey[k] == r.byKey[k])
      && r'.byId.Keys == r.byId.Keys + (if a.key in r.byKey then {} else {uuid})
  {}

  ghost function Ids(calls: seq<Request>): set<PaymentId>
  {
    set c | c in calls :: c.uuid
  }

  lemma IdsSnoc(calls: seq<Request>)
    requires calls != [] && FreshIds(calls)
    ensures Ids(calls) == Ids(calls[..|calls| - 1]) + {calls[|calls| - 1].uuid}
    ensures calls[|calls| - 1].uuid !in Ids(calls[..|calls| - 1])
  {
    var n := |calls| - 1;
    assert calls == calls[..n] + [calls[n]];
  }

  /**
   * After any calls with fresh ids: the store is consistent, so the fall-through for an indexed id
   * without a record is never taken; the index holds exactly the keys used; there is one record per
   * distinct key and one per call without a key.
   */
  lemma {:induction false} HistoryIsConsistent(calls: seq<Request>)
    requires FreshIds(calls)
    ensures After(calls).Valid()
    ensures After(calls).byKey.Keys == Keys(calls)
    ensures After(calls).byId.Keys <= Ids(calls)
    ensures |After(calls).byId.Keys| == |Keys(calls)| + Keyless(calls)
  {
    if calls != [] {
      var n := |calls| - 1;
      HistoryIsConsistent(calls[..n]);
      KeysSnoc(calls);
      IdsSnoc(calls);
      AuthorizeKeepsValid(After(calls[..n]), calls[n].input, calls[n].uuid);
    }
  }

  /** Records and index entries never change once made. */
  lemma {:induction false} RecordsNeverChange(calls: seq<Request>, i: nat)
    requires FreshIds(calls) && i <= |calls|
    ensures forall p :: p in After(calls[..i]).byId ==> p in After(calls).byId && After(calls).byId[p] == After(calls[..i]).byId[p]
    ensures forall k :: k in After(calls[..i]).byKey ==> k in After(calls).byKey && After(calls).byKey[k] == After(calls[..i]).byKey[k]
    decreases |calls| - i
  {
    if i == |calls| {
      assert calls[..i] == calls;
    } else {
      RecordsNeverChange(calls, i + 1);
      AnswerIsRecorded(calls, i);
    }
  }

  lemma AnswerIsRecorded(calls: seq<Request>, i: nat)
    requires FreshIds(calls) && i < |calls|
    ensures var (r, r', key) := (After(calls[..i]), After(calls[..i + 1]), calls[i].input.key);
      && r.Valid() && r'.Valid()
      && Answer(calls, i).id in r'.byId && r'.byId[Answer(calls, i).id] == Answer(calls, i)
      && (key != "" ==> key in r'.byKey && r'.byKey[key] == Answer(calls, i).id)
      && (forall p :: p in r.byId ==> p in r'.byId && r'.byId[p] == r.byId[p])
      && (forall k :: k in r.byKey ==> k in r'.byKey && r'.byKey[k] == r.byKey[k])
  {
    assert calls[..i + 1][..i] == calls[..i];
    HistoryIsConsistent(calls[..i]);
    IdsSnoc(calls[..i + 1]);
    AuthorizeKeepsValid(After(calls[..i]), calls[i].input, calls[i].uuid);
  }

  /** Two calls with the same non-empty key get the same record, whatever happens in between and whatever else they say. */
  lemma EqualKeysEqualAnswers(calls: seq<Request>, i: nat, j: nat)
    requires FreshIds(calls) && i < j < |calls|
    requires calls[i].input.key == calls[j].input.key != ""
    ensures Answer(calls, j) == Answer(calls, i)
    ensures Answer(calls, i).id in After(calls).byId && After(calls).byId[Answer(calls, i).id] == Answer(calls, i)
  {
    AnswerIsRecorded(calls, i);
    AnswerIsRecorded(calls, j);
    assert calls[..j][..i + 1] == calls[..i + 1];
    RecordsNeverChange(calls[..j], i + 1);
    RecordsNeverChange(calls, i + 1);
  }

  /** A call is recorded as it was asked, field by field, exactly when no earlier call used its key. */
  lemma AnswerNamesOwnCall(calls: seq<Request>, i: nat)
    requires FreshIds(calls) && i < |calls|
    ensures calls[i].input.key !in Keys(calls[..i]) <==> Answer(calls, i).id == calls[i].uuid
    ensures calls[i].input.key !in Keys(calls[..i]) ==>
      var (rec, a) := (Answer(calls, i), calls[i].input);
      rec.order == a.order && rec.amountCents == a.amountCents && rec.currency == a.currency && rec.status == Authorized
  {
    HistoryIsConsistent(calls[..i]);
    assert calls[..i + 1][..i] == calls[..i];
    IdsSnoc(calls[..i + 1]);
    assert "" !in Keys(calls[..i]);
  }

  lemma {:induction false} RecordWasAnswered(calls: seq<Request>, p: PaymentId)
    requires FreshIds(calls) && p in After(calls).byId
    ensures exists i :: 0 <= i < |calls| && Answer(calls, i).id == p
  {
    hide AuthorizeIn, Answer;
    var n := |calls| - 1;
    if p in After(calls[..n]).byId {
      RecordWasAnswered(calls[..n], p);
      var i :| 0 <= i < n && Answer(calls[..n], i).id == p;
      AnswerOfPrefix(calls, n, i);
    } else {
      NewRecordIsAnswer(calls, p);
    }
  }

  lemma AnswerOfPrefix(calls: seq<Request>, n: nat, i: nat)
    requires i < n <= |calls|
    ensures Answer(calls[..n], i) == Answer(calls, i)
  {
    assert calls[..n][..i] == calls[..i];
  }

  lemma NewRecordIsAnswer(calls: seq<Request>, p: PaymentId)
    requires calls != [] && p in After(calls).byId && p !in After(calls[..|calls| - 1]).byId
    ensures Answer(calls, |calls| - 1).id == p
  {}

  /**
   * A status lookup after any calls finds an id exactly when some call answered with it, and then finds the
   * very record that the call was answered with.
   */
  lemma LookupMatchesAnswers(calls: seq<Request>, p: PaymentId)
    requires FreshIds(calls)
    ensures p in After(calls).byId <==> exists i :: 0 <= i < |calls| && Answer(calls, i).id == p
    ensures forall i :: 0 <= i < |calls| && Answer(calls, i).id == p ==> p in After(calls).byId && After(calls).byId[p] == Answer(calls, i)
  {
    if p in After(calls).byId {
      RecordWasAnswered(calls, p);
    }
    forall i | 0 <= i < |calls| && Answer(calls, i).id == p
      ensures p in After(calls).byId && After(calls).byId[p] == Answer(calls, i)
    {
      AnswerIsRecorded(calls, i);
      RecordsNeverChange(calls, i + 1);
    }
  }
}
