/** The payments context: payments recorded against an event, cached per
    event in date order, and the event's `amountPaid` kept as their total. */
module PaymentContext {
  import opened Wrappers
  import opened Sequences
  import opened Firestore
  import EventContext

  /** Money in integer cents; dates are instants in milliseconds. */
  datatype Payment = Payment(
    id: string,
    eventId: string,
    eventCoupleName: Option<string>,
    paymentDate: int,
    amount: int,
    paymentMethod: Option<string>,
    notes: Option<string>,
    createdAt: int)

  datatype PaymentFormData = PaymentFormData(
    eventId: string,
    paymentDate: int,
    amount: int,
    paymentMethod: Option<string>,
    notes: Option<string>)

  /** A stored payment; any field may be missing from a document. */
  datatype PaymentDoc = PaymentDoc(
    id: string,
    eventId: string,
    eventCoupleName: Option<string>,
    paymentDate: Option<int>,
    amount: int,
    paymentMethod: Option<string>,
    notes: Option<string>,
    createdAt: Option<int>)

  datatype Error = NotConfigured(message: string) | NotFound(message: string) | StoreFailed

  const AddUnconfigured := "Firebase não configurado. Operação de adicionar pagamento falhou."
  const EventNotFound := "Evento não encontrado."

  /** The sort key of every payment ordering. */
  function PaymentTime(p: Payment): int {
    p.paymentDate
  }

  /** `reduce((sum, p) => sum + p.amount, 0)`. */
  function Total(ps: seq<Payment>): int
    decreases |ps|
  {
    if ps == [] then 0 else Total(ps[..|ps| - 1]) + ps[|ps| - 1].amount
  }

  /** The payments cached for an event (`paymentsByEvent[id] || []`). */
  function Cached(m: map<string, seq<Payment>>, eventId: string): seq<Payment> {
    if eventId in m then m[eventId] else []
  }

  /** A document the query returns: it belongs to the event and has the
      field the query orders by. */
  predicate Selected(d: PaymentDoc, eventId: string) {
    d.eventId == eventId && d.paymentDate.Some?
  }

  function FromDoc(d: PaymentDoc, now: int): (p: Payment)
    requires d.paymentDate.Some?
    ensures p.id == d.id && p.eventId == d.eventId && p.amount == d.amount
    ensures p.paymentDate == d.paymentDate.value
    ensures p.createdAt == if d.createdAt.Some? then d.createdAt.value else now
  {
    Payment(d.id, d.eventId, d.eventCoupleName, d.paymentDate.value, d.amount, d.paymentMethod, d.notes,
            if d.createdAt.Some? then d.createdAt.value else now)
  }

  function ToPayments(ds: seq<PaymentDoc>, now: int): (r: seq<Payment>)
    requires forall d :: d in ds ==> d.paymentDate.Some?
    ensures |r| == |ds|
    ensures forall i :: 0 <= i < |r| ==> r[i] == FromDoc(ds[i], now)
    decreases |ds|
  {
    if ds == [] then [] else [FromDoc(ds[0], now)] + ToPayments(ds[1..], now)
  }

  /** The documents `where("eventId", "==", id)` matches and
      `orderBy("paymentDate")` keeps, in stored order. */
  function SelectedDocs(docs: seq<PaymentDoc>, eventId: string): (ds: seq<PaymentDoc>)
    ensures forall d :: d in ds <==> d in docs && Selected(d, eventId)
    ensures |ds| <= |docs|
  {
    Filter(docs, (d: PaymentDoc) => Selected(d, eventId))
  }

  /** The payments of `where("eventId", "==", id)` with
      `orderBy("paymentDate", "asc")`, ties kept in stored order: exactly
      the event's dated documents, each once, and no other. */
  function QueryPayments(docs: seq<PaymentDoc>, eventId: string, now: int): (r: seq<Payment>)
    ensures SortedBy(r, PaymentTime)
    ensures |r| <= |docs|
    ensures multiset(r) == multiset(ToPayments(SelectedDocs(docs, eventId), now))
    ensures forall p :: p in r ==> p.eventId == eventId
    ensures forall d :: d in docs && Selected(d, eventId) ==> FromDoc(d, now) in r
  {
    var ds := SelectedDocs(docs, eventId);
    SelectedPayments(ds, eventId, now);
    var r := SortBy(ToPayments(ds, now), PaymentTime);
    assert forall p :: p in r <==> p in multiset(ToPayments(ds, now));
    r
  }

  /** The payments of selected documents: all the event's, one per document. */
  lemma SelectedPayments(ds: seq<PaymentDoc>, eventId: string, now: int)
    requires forall d :: d in ds ==> d.eventId == eventId && d.paymentDate.Some?
    ensures forall p :: p in ToPayments(ds, now) ==> p.eventId == eventId
    ensures forall d :: d in ds ==> FromDoc(d, now) in ToPayments(ds, now)
  {
    var ps := ToPayments(ds, now);
    forall p | p in ps ensures p.eventId == eventId {
      var i :| 0 <= i < |ps| && ps[i] == p;
      assert ds[i] in ds;
    }
    forall d | d in ds ensures FromDoc(d, now) in ps {
      var i :| 0 <= i < |ds| && ds[i] == d;
      assert ps[i] == FromDoc(d, now);
    }
  }

  /** The payment `addPayment` records, stamped with the event's couple. */
  function NewPayment(data: PaymentFormData, id: string, coupleName: string, now: int): (p: Payment)
    ensures p.id == id && p.eventId == data.eventId && p.amount == data.amount
    ensures p.paymentDate == data.paymentDate && p.eventCoupleName == Some(coupleName)
  {
    Payment(id, data.eventId, Some(coupleName), data.paymentDate, data.amount, data.paymentMethod, data.notes, now)
  }

  /** The cached list after recording `p`: the old list plus `p`, by date. */
  function Recorded(cached: seq<Payment>, p: Payment): (r: seq<Payment>)
    ensures SortedBy(r, PaymentTime)
    ensures multiset(r) == multiset(cached) + multiset{p}
  {
    SortBy(cached + [p], PaymentTime)
  }

  lemma {:induction false} TotalAppend(s: seq<Payment>, t: seq<Payment>)
    ensures Total(s + t) == Total(s) + Total(t)
    decreases |t|
  {
    if t == [] {
      assert s + t == s;
    } else {
      var u := t[..|t| - 1];
      assert s + t == (s + u) + [t[|t| - 1]];
      assert (s + t)[..|s + t| - 1] == s + u;
      TotalAppend(s, u);
    }
  }

  lemma {:induction false} TotalInsert(s: seq<Payment>, x: Payment, key: Payment -> int)
    ensures Total(InsertBy(s, x, key)) == Total(s) + x.amount
    decreases |s|
  {
    if s == [] || key(s[|s| - 1]) <= key(x) {
      TotalAppend(s, [x]);
    } else {
      var init, last := s[..|s| - 1], s[|s| - 1];
      TotalInsert(init, x, key);
      TotalAppend(InsertBy(init, x, key), [last]);
      TotalAppend(init, [last]);
      assert s == init + [last];
    }
  }

  /** Sorting payments does not change what they add up to. */
  lemma {:induction false} TotalSort(s: seq<Payment>, key: Payment -> int)
    ensures Total(SortBy(s, key)) == Total(s)
    decreases |s|
  {
    if s != [] {
      var init, last := s[..|s| - 1], s[|s| - 1];
      assert SortBy(s, key) == InsertBy(SortBy(init, key), last, key);
      TotalSort(init, key);
      TotalInsert(SortBy(init, key), last, key);
    }
  }

  /** The total written to the event after a payment is the cached total
      plus the new amount; with nothing cached it is the new amount alone,
      whatever the event had recorded before. */
  lemma RecordedTotal(cached: seq<Payment>, p: Payment)
    ensures Total(Recorded(cached, p)) == Total(cached) + p.amount
    ensures cached == [] ==> Total(Recorded(cached, p)) == p.amount
  {
    TotalSort(cached + [p], PaymentTime);
    TotalAppend(cached, [p]);
  }

  /** Every cached list is in date order and holds only its event's
      payments. */
  ghost predicate CacheValid(m: map<string, seq<Payment>>) {
    forall k :: k in m ==>
      && SortedBy(m[k], PaymentTime)
      && forall p :: p in m[k] ==> p.eventId == k
  }

  lemma CacheUpdate(m: map<string, seq<Payment>>, k: string, ps: seq<Payment>)
    requires CacheValid(m) && SortedBy(ps, PaymentTime)
    requires forall p :: p in ps ==> p.eventId == k
    ensures CacheValid(m[k := ps])
  {
  }

  /** After the amount patch every event with the id carries the total. */
  lemma PatchedAmount(events: seq<EventContext.Event>, id: string, total: int)
    ensures forall e :: e in EventContext.PatchWhere(events, id, EventContext.AmountPaidPatch(total)) && e.id == id ==>
                          e.amountPaid == total
  {
    var q := EventContext.PatchWhere(events, id, EventContext.AmountPaidPatch(total));
    forall e | e in q && e.id == id ensures e.amountPaid == total {
      var i :| 0 <= i < |q| && q[i] == e;
    }
  }

  class PaymentContext {
    /** The events context whose `updateEvent` and `getEventById` it uses;
        both contexts read the same database configuration. */
    const events: EventContext.EventContext
    var paymentsByEvent: map<string, seq<Payment>>
    var loading: bool

    ghost predicate Valid()
      reads this, events
    {
      events.Valid() && CacheValid(paymentsByEvent)
    }

    constructor(events: EventContext.EventContext)
      requires events.Valid()
      ensures this.events == events && paymentsByEvent == map[] && !loading && Valid()
    {
      this.events := events;
      paymentsByEvent := map[];
      loading := false;
    }

    /** `getPaymentsForEvent`: the event's payments by date, also cached;
        an empty list, cache untouched, when unconfigured or the read throws. */
    method GetPaymentsForEvent(eventId: string, fetch: Fetch<PaymentDoc>, now: int) returns (r: seq<Payment>)
      requires Valid()
      modifies this`paymentsByEvent, this`loading
      ensures Valid()
      ensures !events.configured ==> r == [] && paymentsByEvent == old(paymentsByEvent) && loading == old(loading)
      ensures events.configured ==> !loading
      ensures events.configured && fetch.FetchFailed? ==> r == [] && paymentsByEvent == old(paymentsByEvent)
      ensures events.configured && fetch.Fetched? ==>
        r == QueryPayments(fetch.docs, eventId, now) && paymentsByEvent == old(paymentsByEvent)[eventId := r]
    {
      if !events.configured {
        return [];
      }
      loading := true;
      match fetch {
        case Fetched(docs) =>
          r := QueryPayments(docs, eventId, now);
          CacheUpdate(paymentsByEvent, eventId, r);
          paymentsByEvent := paymentsByEvent[eventId := r];
        case FetchFailed =>
          r := [];
      }
      loading := false;
    }

    /** `addPayment`: stores the payment, adds it to the event's cached list
        and writes the list's total to the event's `amountPaid`. */
    method AddPayment(data: PaymentFormData, newId: string, now: int, addOk: bool, updateOk: bool)
      returns (r: Result<string, Error>)
      requires Valid()
      modifies this, events
      ensures Valid()
      ensures unchanged(events`loading)
      ensures !events.configured ==>
        && r == Failure(NotConfigured(AddUnconfigured))
        && paymentsByEvent == old(paymentsByEvent) && loading == old(loading) && events.events == old(events.events)
      ensures events.configured && old(events.GetEventById(data.eventId)).None? ==>
        && r == Failure(NotFound(EventNotFound))
        && paymentsByEvent == old(paymentsByEvent) && loading == old(loading) && events.events == old(events.events)
      ensures events.configured && old(events.GetEventById(data.eventId)).Some? ==> !loading
      ensures events.configured && old(events.GetEventById(data.eventId)).Some? && !addOk ==>
        && r == Failure(StoreFailed)
        && paymentsByEvent == old(paymentsByEvent) && events.events == old(events.events)
      ensures events.configured && old(events.GetEventById(data.eventId)).Some? && addOk ==>
        var p := NewPayment(data, newId, old(events.GetEventById(data.eventId)).value.coupleName, now);
        var updated := Recorded(Cached(old(paymentsByEvent), data.eventId), p);
        && paymentsByEvent == old(paymentsByEvent)[data.eventId := updated]
        && (updateOk ==> r == Success(newId)
                         && events.events == EventContext.PatchWhere(old(events.events), data.eventId, EventContext.AmountPaidPatch(Total(updated))))
        && (!updateOk ==> r == Failure(StoreFailed) && events.events == old(events.events))
      ensures events.configured && addOk && updateOk ==>
        forall e :: e in events.events && e.id == data.eventId ==>
          e.amountPaid == Total(Cached(old(paymentsByEvent), data.eventId)) + data.amount
    {
      if !events.configured {
        return Failure(NotConfigured(AddUnconfigured));
      }
      var event := events.GetEventById(data.eventId);
      if event.None? {
        return Failure(NotFound(EventNotFound));
      }
      loading := true;
      if !addOk {
        loading := false;
        return Failure(StoreFailed);
      }
      var p := NewPayment(data, newId, event.value.coupleName, now);
      var cached := Cached(paymentsByEvent, data.eventId);
      var updated := Recorded(cached, p);
      assert forall q :: q in updated ==> q in multiset(cached + [p]);
      CacheUpdate(paymentsByEvent, data.eventId, updated);
      paymentsByEvent := paymentsByEvent[data.eventId := updated];
      ghost var cache := paymentsByEvent;
      var total := Total(updated);
      RecordedTotal(cached, p);
      ghost var before := events.events;
      EventContext.DatelessPatchKeepsOrder(before, data.eventId, EventContext.AmountPaidPatch(total));
      var written := events.UpdateEvent(data.eventId, EventContext.AmountPaidPatch(total), updateOk);
      assert paymentsByEvent == cache;
      loading := false;
      if written.Fail? {
        return Failure(StoreFailed);
      }
      PatchedAmount(before, data.eventId, total);
      return Success(newId);
    }
  }
}
