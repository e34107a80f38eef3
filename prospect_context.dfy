/** The prospects context: the sales pipeline of leads, newest first, kept in
    the `prospects` collection when the database is configured and only in
    memory otherwise. */
module ProspectContext {
  import opened Wrappers
  import opened Sequences

  datatype ProspectStatus = Lead | OrcamentoEnviado | MarcouDegustacao | Contratado | Cancelou

  /** Timestamps are instants in milliseconds. */
  datatype Prospect = Prospect(
    id: string,
    contactName: string,
    contactPlatform: string,
    contactDetails: string,
    notes: Option<string>,
    status: ProspectStatus,
    createdAt: int,
    updatedAt: int)

  /** The fields a new prospect is created from. */
  datatype ProspectData = ProspectData(
    contactName: string,
    contactPlatform: string,
    contactDetails: string,
    notes: Option<string>)

  /** A partial update: `None` leaves a field as it is. For the optional
      `notes`, `Some(None)` is a key present with the value `undefined`,
      which the spread copies over the old notes. */
  datatype ProspectPatch = ProspectPatch(
    contactName: Option<string>,
    contactPlatform: Option<string>,
    contactDetails: Option<string>,
    notes: Option<Option<string>>,
    status: Option<ProspectStatus>)

  /** A write to the database threw; the list is left as it was. */
  datatype Error = StoreFailed

  /** The record `addProspect` builds: a lead, created and updated now. */
  function NewProspect(data: ProspectData, id: string, now: int): (p: Prospect)
    ensures p.id == id && p.status == Lead && p.createdAt == now && p.updatedAt == now
    ensures p.contactName == data.contactName && p.notes == data.notes
  {
    Prospect(id, data.contactName, data.contactPlatform, data.contactDetails, data.notes, Lead, now, now)
  }

  /** `{ ...p, ...updates, updatedAt: new Date() }`. */
  function Apply(p: Prospect, u: ProspectPatch, now: int): (r: Prospect)
    ensures r.id == p.id && r.createdAt == p.createdAt && r.updatedAt == now
    ensures r.contactName == if u.contactName.Some? then u.contactName.value else p.contactName
    ensures r.contactPlatform == if u.contactPlatform.Some? then u.contactPlatform.value else p.contactPlatform
    ensures r.contactDetails == if u.contactDetails.Some? then u.contactDetails.value else p.contactDetails
    ensures r.notes == if u.notes.Some? then u.notes.value else p.notes
    ensures r.status == if u.status.Some? then u.status.value else p.status
  {
    Prospect(
      p.id,
      OrDefault(u.contactName, p.contactName),
      OrDefault(u.contactPlatform, p.contactPlatform),
      OrDefault(u.contactDetails, p.contactDetails),
      OrDefault(u.notes, p.notes),
      OrDefault(u.status, p.status),
      p.createdAt,
      now)
  }

  /** The `map` step of `updateProspect`. */
  function PatchWhere(prospects: seq<Prospect>, id: string, u: ProspectPatch, now: int): (r: seq<Prospect>)
    ensures |r| == |prospects|
    ensures forall i :: 0 <= i < |r| ==> r[i] == if prospects[i].id == id then Apply(prospects[i], u, now) else prospects[i]
  {
    seq(|prospects|, i requires 0 <= i < |prospects| =>
      if prospects[i].id == id then Apply(prospects[i], u, now) else prospects[i])
  }

  /** The `filter` step of `deleteProspect`. */
  function WithoutId(prospects: seq<Prospect>, id: string): (r: seq<Prospect>)
    ensures forall p :: p in r <==> p in prospects && p.id != id
    ensures forall p: Prospect :: p.id != id ==> multiset(r)[p] == multiset(prospects)[p]
  {
    Filter(prospects, (p: Prospect) => p.id != id)
  }

  /** Sorting by this key puts the most recently created first. */
  function Recency(p: Prospect): int {
    -p.createdAt
  }

  class ProspectContext {
    /** Whether the database is configured (`isFirebaseConfigured()`). */
    const configured: bool
    var prospects: seq<Prospect>
    var loading: bool

    constructor(configured: bool)
      ensures this.configured == configured && prospects == [] && loading
    {
      this.configured := configured;
      prospects := [];
      loading := true;
    }

    /** `addProspect`: puts a new lead at the head of the list, under the
        stored document's id, or a generated one when unconfigured. */
    method AddProspect(data: ProspectData, newId: string, now: int, writeOk: bool) returns (r: Result<string, Error>)
      modifies this`prospects
      ensures configured && !writeOk ==> r == Failure(StoreFailed) && prospects == old(prospects)
      ensures !configured || writeOk ==>
        r == Success(newId) && prospects == [NewProspect(data, newId, now)] + old(prospects)
    {
      if configured && !writeOk {
        return Failure(StoreFailed);
      }
      prospects := [NewProspect(data, newId, now)] + prospects;
      return Success(newId);
    }

    /** `updateProspect`: patches every prospect with the id and stamps it
        as updated now; the others are untouched and in place. */
    method UpdateProspect(id: string, u: ProspectPatch, now: int, writeOk: bool) returns (r: Outcome<Error>)
      modifies this`prospects
      ensures configured && !writeOk ==> r == Fail(StoreFailed) && prospects == old(prospects)
      ensures !configured || writeOk ==> r == Pass && prospects == PatchWhere(old(prospects), id, u, now)
    {
      if configured && !writeOk {
        return Fail(StoreFailed);
      }
      prospects := PatchWhere(prospects, id, u, now);
      return Pass;
    }

    /** `deleteProspect`: removes exactly the prospects with the id. */
    method DeleteProspect(id: string, writeOk: bool) returns (r: Outcome<Error>)
      modifies this`prospects
      ensures configured && !writeOk ==> r == Fail(StoreFailed) && prospects == old(prospects)
      ensures !configured || writeOk ==> r == Pass && prospects == WithoutId(old(prospects), id)
    {
      if configured && !writeOk {
        return Fail(StoreFailed);
      }
      prospects := WithoutId(prospects, id);
      return Pass;
    }

    /** `getProspectById`: the first prospect with the id, if any. */
    function GetProspectById(id: string): (r: Option<Prospect>)
      reads this
      ensures r.None? <==> forall i :: 0 <= i < |prospects| ==> prospects[i].id != id
      ensures r.Some? ==> exists i :: 0 <= i < |prospects| && prospects[i] == r.value && r.value.id == id
                                      && forall j :: 0 <= j < i ==> prospects[j].id != id
    {
      FindFirst(prospects, (p: Prospect) => p.id == id)
    }

    /** `getProspectsByStatus`: the prospects in the status, most recently
        created first. */
    function GetProspectsByStatus(status: ProspectStatus): (r: seq<Prospect>)
      reads this
      ensures forall i, j :: 0 <= i < j < |r| ==> r[i].createdAt >= r[j].createdAt
      ensures forall p: Prospect :: multiset(r)[p] == if p.status == status then multiset(prospects)[p] else 0
    {
      var r := SortBy(Filter(prospects, (p: Prospect) => p.status == status), Recency);
      assert forall i, j :: 0 <= i < j < |r| ==> Recency(r[i]) <= Recency(r[j]);
      r
    }
  }

  /** A prospect just added is the one its id finds, and it starts as a
      lead. */
  lemma AddedIsFound(ctx: ProspectContext, data: ProspectData, newId: string, now: int, rest: seq<Prospect>)
    requires ctx.prospects == [NewProspect(data, newId, now)] + rest
    ensures ctx.GetProspectById(newId) == Some(NewProspect(data, newId, now))
    ensures ctx.GetProspectById(newId).value.status == Lead
  {
    assert ctx.prospects[0].id == newId;
  }

  /** Once deleted, an id finds nothing. */
  lemma DeletedIsGone(ctx: ProspectContext, id: string, before: seq<Prospect>)
    requires ctx.prospects == WithoutId(before, id)
    ensures ctx.GetProspectById(id).None?
  {
    forall i | 0 <= i < |ctx.prospects| ensures ctx.prospects[i].id != id {
      assert ctx.prospects[i] in ctx.prospects;
    }
  }
}
