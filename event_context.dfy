/** The events context: the local, date-ordered list of events that the
    screens read, kept in step with the `events` collection. */
module EventContext {
  import opened Wrappers
  import opened Sequences
  import opened Firestore
  import Calendar

  datatype EventStatus = PropostaEnviada | Confirmado | Realizado | Cancelado | Adiado

  /** Money in integer cents; `eventDate` an instant in milliseconds. */
  datatype Event = Event(
    id: string,
    eventDate: int,
    coupleName: string,
    location: string,
    guestCount: int,
    eventValue: int,
    packageName: string,
    extraDetails: Option<string>,
    status: EventStatus,
    amountPaid: int)

  /** The fields a new event is created from. */
  datatype EventData = EventData(
    eventDate: int,
    coupleName: string,
    location: string,
    guestCount: int,
    eventValue: int,
    packageName: string,
    extraDetails: Option<string>)

  /** A stored document; older documents may lack `amountPaid`. */
  datatype EventDoc = EventDoc(id: string, data: EventData, status: EventStatus, amountPaid: Option<int>)

  /** A partial update: `None` leaves a field as it is. For the optional
      `extraDetails`, `Some(None)` is a key present with the value
      `undefined`, which the spread copies over the old value. */
  datatype EventPatch = EventPatch(
    eventDate: Option<int>,
    coupleName: Option<string>,
    location: Option<string>,
    guestCount: Option<int>,
    eventValue: Option<int>,
    packageName: Option<string>,
    extraDetails: Option<Option<string>>,
    status: Option<EventStatus>,
    amountPaid: Option<int>)

  /** A patch that sets only `amountPaid`. */
  function AmountPaidPatch(amount: int): EventPatch {
    EventPatch(None, None, None, None, None, None, None, None, Some(amount))
  }

  datatype Error = NotConfigured(message: string) | StoreFailed

  const AddUnconfigured := "Firebase não configurado. Operação de adicionar evento falhou."
  const UpdateUnconfigured := "Firebase não configurado. Operação de atualizar evento falhou."
  const DeleteUnconfigured := "Firebase não configurado. Operação de excluir evento falhou."

  /** The sort key of every event ordering: the event's instant. */
  function EventTime(e: Event): int {
    e.eventDate
  }

  /** The local record of a stored document (`amountPaid || 0`). */
  function FromDoc(d: EventDoc): (e: Event)
    ensures e.id == d.id && e.eventDate == d.data.eventDate && e.status == d.status
    ensures e.amountPaid == if d.amountPaid.Some? then d.amountPaid.value else 0
  {
    Event(d.id, d.data.eventDate, d.data.coupleName, d.data.location, d.data.guestCount, d.data.eventValue,
          d.data.packageName, d.data.extraDetails, d.status, OrDefault(d.amountPaid, 0))
  }

  /** The record `addEvent` builds: confirmed, nothing paid yet, and empty
      extra details when none (or an empty text) are given. */
  function NewEvent(data: EventData, id: string): (e: Event)
    ensures e.id == id && e.status == Confirmado && e.amountPaid == 0
    ensures e.eventDate == data.eventDate && e.coupleName == data.coupleName
    ensures e.extraDetails == Some(if data.extraDetails.Some? then data.extraDetails.value else "")
  {
    Event(id, data.eventDate, data.coupleName, data.location, data.guestCount, data.eventValue,
          data.packageName, Some(OrDefault(data.extraDetails, "")), Confirmado, 0)
  }

  /** `{ ...event, ...updates }`: the patched fields replaced, the id kept. */
  function Apply(e: Event, p: EventPatch): (r: Event)
    ensures r.id == e.id
    ensures r.eventDate == if p.eventDate.Some? then p.eventDate.value else e.eventDate
    ensures r.coupleName == if p.coupleName.Some? then p.coupleName.value else e.coupleName
    ensures r.location == if p.location.Some? then p.location.value else e.location
    ensures r.guestCount == if p.guestCount.Some? then p.guestCount.value else e.guestCount
    ensures r.eventValue == if p.eventValue.Some? then p.eventValue.value else e.eventValue
    ensures r.packageName == if p.packageName.Some? then p.packageName.value else e.packageName
    ensures r.extraDetails == if p.extraDetails.Some? then p.extraDetails.value else e.extraDetails
    ensures r.status == if p.status.Some? then p.status.value else e.status
    ensures r.amountPaid == if p.amountPaid.Some? then p.amountPaid.value else e.amountPaid
    ensures p == AmountPaidPatch(r.amountPaid) ==> r == e.(amountPaid := r.amountPaid)
  {
    Event(
      e.id,
      OrDefault(p.eventDate, e.eventDate),
      OrDefault(p.coupleName, e.coupleName),
      OrDefault(p.location, e.location),
      OrDefault(p.guestCount, e.guestCount),
      OrDefault(p.eventValue, e.eventValue),
      OrDefault(p.packageName, e.packageName),
      OrDefault(p.extraDetails, e.extraDetails),
      OrDefault(p.status, e.status),
      OrDefault(p.amountPaid, e.amountPaid))
  }

  /** The `map` step of `updateEvent`: every event with the id patched, the
      others untouched and in place. */
  function PatchWhere(events: seq<Event>, id: string, p: EventPatch): (r: seq<Event>)
    ensures |r| == |events|
    ensures forall i :: 0 <= i < |r| ==> r[i] == if events[i].id == id then Apply(events[i], p) else events[i]
  {
    seq(|events|, i requires 0 <= i < |events| => if events[i].id == id then Apply(events[i], p) else events[i])
  }

  /** The `filter` step of `deleteEvent`. */
  function WithoutId(events: seq<Event>, id: string): (r: seq<Event>)
    ensures forall e :: e in r <==> e in events && e.id != id
    ensures forall e: Event :: e.id != id ==> multiset(r)[e] == multiset(events)[e]
  {
    Filter(events, (e: Event) => e.id != id)
  }

  /** The local record of every fetched document, in fetch order. */
  function EventsOf(docs: seq<EventDoc>): (r: seq<Event>)
    ensures |r| == |docs|
    ensures forall i :: 0 <= i < |docs| ==> r[i] == FromDoc(docs[i])
  {
    seq(|docs|, i requires 0 <= i < |docs| => FromDoc(docs[i]))
  }

  /** The local events of a successful load: one per document, nothing
      dropped or duplicated, in the query's date order. */
  function Loaded(docs: seq<EventDoc>): (r: seq<Event>)
    ensures SortedBy(r, EventTime) && |r| == |docs|
    ensures multiset(r) == multiset(EventsOf(docs))
    ensures forall d :: d in docs ==> FromDoc(d) in r
  {
    var r := SortBy(EventsOf(docs), EventTime);
    assert forall d :: d in docs ==> FromDoc(d) in multiset(EventsOf(docs));
    r
  }

  predicate SameMonth(e: Event, date: int, tz: int) {
    var a, b := Calendar.LocalDate(e.eventDate, tz), Calendar.LocalDate(date, tz);
    a.year == b.year && a.month == b.month
  }

  predicate SameDay(e: Event, date: int, tz: int) {
    var a, b := Calendar.LocalDate(e.eventDate, tz), Calendar.LocalDate(date, tz);
    a.year == b.year && a.month == b.month && a.day == b.day
  }

  class EventContext {
    /** Whether the database is configured (`isFirebaseConfigured()`). */
    const configured: bool
    /** The local time zone's offset from UTC, in milliseconds. */
    const tzOffset: int
    var events: seq<Event>
    var loading: bool

    /** The list is always in ascending date order. */
    ghost predicate Valid()
      reads this
    {
      SortedBy(events, EventTime)
    }

    constructor(configured: bool, tzOffset: int)
      ensures this.configured == configured && this.tzOffset == tzOffset
      ensures events == [] && loading && Valid()
    {
      this.configured := configured;
      this.tzOffset := tzOffset;
      events := [];
      loading := true;
    }

    /** `loadData`: the stored events by date, or an empty list when the
        database is unconfigured or the read throws. */
    method LoadData(fetch: Fetch<EventDoc>)
      modifies this
      ensures Valid() && !loading
      ensures events == if configured && fetch.Fetched? then Loaded(fetch.docs) else []
    {
      loading := true;
      if !configured {
        events := [];
        loading := false;
        return;
      }
      match fetch {
        case Fetched(docs) => events := Loaded(docs);
        case FetchFailed => events := [];
      }
      loading := false;
    }

    /** `addEvent`: writes the new event and, once stored under `newId`,
        inserts it into the list after every event on or before its date. */
    method AddEvent(data: EventData, newId: string, writeOk: bool) returns (r: Result<string, Error>)
      requires Valid()
      modifies this`events
      ensures Valid()
      ensures !configured ==> r == Failure(NotConfigured(AddUnconfigured)) && events == old(events)
      ensures configured && !writeOk ==> r == Failure(StoreFailed) && events == old(events)
      ensures configured && writeOk ==>
        && r == Success(newId)
        && events == SortBy(old(events) + [NewEvent(data, newId)], EventTime)
        && events == InsertBy(old(events), NewEvent(data, newId), EventTime)
        && multiset(events) == multiset(old(events)) + multiset{NewEvent(data, newId)}
    {
      if !configured {
        return Failure(NotConfigured(AddUnconfigured));
      }
      if !writeOk {
        return Failure(StoreFailed);
      }
      var e := NewEvent(data, newId);
      SortAppendIsInsert(events, e, EventTime);
      events := SortBy(events + [e], EventTime);
      return Success(newId);
    }

    /** `updateEvent`: patches every event with the id, leaves the others
        as they were, and re-sorts by date. */
    method UpdateEvent(id: string, p: EventPatch, writeOk: bool) returns (r: Outcome<Error>)
      requires Valid()
      modifies this`events
      ensures Valid()
      ensures !configured ==> r == Fail(NotConfigured(UpdateUnconfigured)) && events == old(events)
      ensures configured && !writeOk ==> r == Fail(StoreFailed) && events == old(events)
      ensures configured && writeOk ==>
        && r == Pass
        && events == SortBy(PatchWhere(old(events), id, p), EventTime)
        && multiset(events) == multiset(PatchWhere(old(events), id, p))
    {
      if !configured {
        return Fail(NotConfigured(UpdateUnconfigured));
      }
      if !writeOk {
        return Fail(StoreFailed);
      }
      events := SortBy(PatchWhere(events, id, p), EventTime);
      return Pass;
    }

    /** `deleteEvent`: removes exactly the events with the id, keeping the
        order of the rest. */
    method DeleteEvent(id: string, writeOk: bool) returns (r: Outcome<Error>)
      requires Valid()
      modifies this`events
      ensures Valid()
      ensures !configured ==> r == Fail(NotConfigured(DeleteUnconfigured)) && events == old(events)
      ensures configured && !writeOk ==> r == Fail(StoreFailed) && events == old(events)
      ensures configured && writeOk ==> r == Pass && events == WithoutId(old(events), id)
    {
      if !configured {
        return Fail(NotConfigured(DeleteUnconfigured));
      }
      if !writeOk {
        return Fail(StoreFailed);
      }
      FilterKeepsOrder(events, (e: Event) => e.id != id, EventTime);
      events := WithoutId(events, id);
      return Pass;
    }

    /** `getEventById`: the first event with the id, if any. */
    function GetEventById(id: string): (r: Option<Event>)
      reads this
      ensures r.None? <==> forall i :: 0 <= i < |events| ==> events[i].id != id
      ensures r.Some? ==> exists i :: 0 <= i < |events| && events[i] == r.value && r.value.id == id
                                      && forall j :: 0 <= j < i ==> events[j].id != id
    {
      FindFirst(events, (e: Event) => e.id == id)
    }

    /** `getEventsByMonth`: the events in the local year and month of
        `date`, by date. */
    function GetEventsByMonth(date: int): (r: seq<Event>)
      reads this
      ensures SortedBy(r, EventTime)
      ensures forall e: Event :: multiset(r)[e] == if SameMonth(e, date, tzOffset) then multiset(events)[e] else 0
    {
      SortBy(Filter(events, (e: Event) => SameMonth(e, date, tzOffset)), EventTime)
    }

    /** `getEventsByDate`: the events on the local day of `date`, by date. */
    function GetEventsByDate(date: int): (r: seq<Event>)
      reads this
      ensures SortedBy(r, EventTime)
      ensures forall e: Event :: multiset(r)[e] == if SameDay(e, date, tzOffset) then multiset(events)[e] else 0
    {
      SortBy(Filter(events, (e: Event) => SameDay(e, date, tzOffset)), EventTime)
    }
  }

  /** The events of a day are among those of its month. */
  lemma DayWithinMonth(ctx: EventContext, date: int)
    ensures multiset(ctx.GetEventsByDate(date)) <= multiset(ctx.GetEventsByMonth(date))
  {
  }

  /** On the always-sorted list the month query's sort changes nothing: it is
      the plain filter, in list order. */
  lemma MonthQueryIsFilter(ctx: EventContext, date: int)
    requires ctx.Valid()
    ensures ctx.GetEventsByMonth(date) == Filter(ctx.events, (e: Event) => SameMonth(e, date, ctx.tzOffset))
  {
    var f := Filter(ctx.events, (e: Event) => SameMonth(e, date, ctx.tzOffset));
    FilterKeepsOrder(ctx.events, (e: Event) => SameMonth(e, date, ctx.tzOffset), EventTime);
    SortBySortedIsIdentity(f, EventTime);
  }

  /** On the always-sorted list the day view is the month view narrowed to
      the day, in the same order. */
  lemma DayQueryNarrowsMonth(ctx: EventContext, date: int)
    requires ctx.Valid()
    ensures ctx.GetEventsByDate(date) == Filter(ctx.GetEventsByMonth(date), (e: Event) => SameDay(e, date, ctx.tzOffset))
  {
    var month := (e: Event) => SameMonth(e, date, ctx.tzOffset);
    var day := (e: Event) => SameDay(e, date, ctx.tzOffset);
    MonthQueryIsFilter(ctx, date);
    FilterNarrows(ctx.events, month, day);
    FilterKeepsOrder(ctx.events, day, EventTime);
    SortBySortedIsIdentity(Filter(ctx.events, day), EventTime);
  }

  /** An update that changes no date (such as recording a payment) keeps
      every event in its place. */
  lemma DatelessPatchKeepsOrder(events: seq<Event>, id: string, p: EventPatch)
    requires SortedBy(events, EventTime)
    requires p.eventDate.None?
    ensures SortBy(PatchWhere(events, id, p), EventTime) == PatchWhere(events, id, p)
  {
    var q := PatchWhere(events, id, p);
    assert forall i :: 0 <= i < |q| ==> EventTime(q[i]) == EventTime(events[i]);
    SortBySortedIsIdentity(q, EventTime);
  }

  /** An event just added is found by its id (the first event stored under
      that id, should the database ever repeat one). */
  lemma AddedIsFound(ctx: EventContext, data: EventData, newId: string)
    requires NewEvent(data, newId) in ctx.events
    ensures ctx.GetEventById(newId).Some? && ctx.GetEventById(newId).value.id == newId
  {
    var i :| 0 <= i < |ctx.events| && ctx.events[i] == NewEvent(data, newId);
  }

  /** Once deleted, an id finds nothing. */
  lemma DeletedIsGone(ctx: EventContext, id: string, before: seq<Event>)
    requires ctx.events == WithoutId(before, id)
    ensures ctx.GetEventById(id).None?
  {
    forall i | 0 <= i < |ctx.events| ensures ctx.events[i].id != id {
      assert ctx.events[i] in ctx.events;
    }
  }
}
