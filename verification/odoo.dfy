/** The Odoo router: configuration-guarded sync and push endpoints and a harvest
    listing. None of these routes calls Odoo; every answer is computed locally. */
module Odoo {
  import opened Wrappers
  import opened Http
  import opened Text
  import Config
  import Filters

  const NotConfiguredDetail := "Odoo integration not configured"
  const DefaultEntities: seq<string> := ["parcels", "harvests", "inventory"]
  const ValidModels: seq<string> := ["harvest", "inventory", "task", "contact"]

  predicate Configured(s: Config.Settings) {
    s.odooUrl != ""
  }

  // ---------------------------------------------------------------------------
  // Status
  // ---------------------------------------------------------------------------

  datatype EntitySync = EntitySync(entity: string, synced: int, errors: int)

  datatype SyncStatus =
    | NotConfigured(message: string)
    | Synced(lastSync: string, entitiesSynced: int, details: seq<EntitySync>)

  /** `GET /odoo/status`: "not_configured" exactly when no Odoo URL is set. */
  function GetSyncStatus(s: Config.Settings): (r: SyncStatus)
    ensures r.NotConfigured? <==> !Configured(s)
    ensures r.NotConfigured? ==> r.message == NotConfiguredDetail
  {
    if !Configured(s) then NotConfigured(NotConfiguredDetail)
    else Synced("2025-01-12T08:00:00Z", 156,
                [EntitySync("parcels", 45, 0), EntitySync("harvests", 89, 2), EntitySync("inventory", 22, 0)])
  }

  /** With the shipped defaults, Odoo reports itself unconfigured. */
  lemma DefaultsNotConfigured()
    ensures GetSyncStatus(Config.Defaults).NotConfigured?
  {
    Config.DefaultsDeriveIssuer();
  }

  // ---------------------------------------------------------------------------
  // Sync
  // ---------------------------------------------------------------------------

  datatype SyncRequest = SyncRequest(entities: Option<seq<string>>)

  datatype SyncJob = SyncJob(jobId: string, status: string, entities: seq<string>, message: string)

  function SyncMessage(entities: seq<string>): string {
    "Sync started for: " + Join(", ", entities)
  }

  /** `POST /odoo/sync` as written: a body's `entities` is used even when it is null,
      and `', '.join(None)` then raises, so the route answers 500. `jobId` stands for
      the fresh uuid. */
  function TriggerSyncAsWritten(s: Config.Settings, req: Option<SyncRequest>, jobId: string): (r: Reply<SyncJob>)
    ensures !Configured(s) ==> r == HttpError(400, NotConfiguredDetail)
    ensures Configured(s) && req.None? ==> r == Ok(SyncJob(jobId, "syncing", DefaultEntities, SyncMessage(DefaultEntities)))
    ensures Configured(s) && req.Some? && req.value.entities.Some? ==>
      r == Ok(SyncJob(jobId, "syncing", req.value.entities.value, SyncMessage(req.value.entities.value)))
    ensures r.ServerError? <==> Configured(s) && req.Some? && req.value.entities.None?
  {
    if !Configured(s) then HttpError(400, NotConfiguredDetail)
    else
      var entities := if req.Some? then req.value.entities else Some(DefaultEntities);
      match entities
      case None => ServerError(OtherFault("can only join an iterable"))
      case Some(es) => Ok(SyncJob(jobId, "syncing", es, SyncMessage(es)))
  }

  /** The body `{}` (or `{"entities": null}`) makes the written route fail although the
      Odoo integration is configured. */
  lemma EmptySyncBodyFails(s: Config.Settings, jobId: string)
    requires Configured(s)
    ensures TriggerSyncAsWritten(s, Some(SyncRequest(None)), jobId).ServerError?
  {
  }

  /** The entities a sync covers: the request's list, or the defaults when the request
      or its list is missing. */
  function SyncEntities(req: Option<SyncRequest>): (es: seq<string>)
    ensures req.Some? && req.value.entities.Some? ==> es == req.value.entities.value
    ensures req.None? || req.value.entities.None? ==> es == DefaultEntities
  {
    if req.Some? && req.value.entities.Some? then req.value.entities.value else DefaultEntities
  }

  /** `POST /odoo/sync` as evidently intended: a missing list falls back to the defaults. */
  function TriggerSync(s: Config.Settings, req: Option<SyncRequest>, jobId: string): (r: Reply<SyncJob>)
    ensures !Configured(s) <==> r.HttpError?
    ensures !Configured(s) ==> r == HttpError(400, NotConfiguredDetail)
    ensures !r.ServerError?
    ensures r.Ok? ==> r.value.status == "syncing" && r.value.jobId == jobId
    ensures r.Ok? ==> r.value.entities == SyncEntities(req) && r.value.message == SyncMessage(SyncEntities(req))
  {
    if !Configured(s) then HttpError(400, NotConfiguredDetail)
    else
      var es := SyncEntities(req);
      Ok(SyncJob(jobId, "syncing", es, SyncMessage(es)))
  }

  /** The corrected route agrees with the written one on every request the written one
      can answer, and answers the rest with the defaults. */
  lemma TriggerSyncRefinesAsWritten(s: Config.Settings, req: Option<SyncRequest>, jobId: string)
    ensures !TriggerSyncAsWritten(s, req, jobId).ServerError? ==> TriggerSync(s, req, jobId) == TriggerSyncAsWritten(s, req, jobId)
    ensures TriggerSyncAsWritten(s, req, jobId).ServerError? ==>
      TriggerSync(s, req, jobId) == Ok(SyncJob(jobId, "syncing", DefaultEntities, SyncMessage(DefaultEntities)))
  {
  }

  /** The message names every requested entity: each one's text follows the prefix and
      successive entities are separated by ", ". */
  lemma SyncMessageListsEntities(es: seq<string>, e: string)
    requires |es| > 0
    ensures SyncMessage(es + [e]) == SyncMessage(es) + ", " + e
  {
    JoinAppend(", ", es, e);
  }

  // ---------------------------------------------------------------------------
  // Harvests
  // ---------------------------------------------------------------------------

  datatype Harvest = Harvest(
    id: int,
    odooId: int,
    parcelId: int,
    parcelName: string,
    cropType: string,
    quantity: int,
    quantityUnit: string,
    quality: string,
    harvestDate: string)

  /** The fixed harvest records the listing route filters. */
  function HarvestRecords(): seq<Harvest> {
    [Harvest(1, 201, 1, "Parcela Norte", "wheat", 45000, "kg", "Grade A", "2024-09-15"),
     Harvest(2, 202, 2, "Parcela Sur", "corn", 38000, "kg", "Grade B", "2024-10-20")]
  }

  function OnParcel(parcelId: int): (p: Harvest -> bool)
    ensures forall h :: p(h) <==> h.parcelId == parcelId
  {
    (h: Harvest) => h.parcelId == parcelId
  }

  /** `if parcel_id: harvests = [h for h in harvests if h["parcelId"] == parcel_id]`:
      a missing or zero parcel id filters nothing. */
  function FilterHarvests(hs: seq<Harvest>, parcelId: Option<int>): (r: seq<Harvest>)
    ensures !PresentNumber(parcelId) ==> r == hs
    ensures forall h :: h in r <==> h in hs && (PresentNumber(parcelId) ==> h.parcelId == parcelId.value)
  {
    if PresentNumber(parcelId) then Filters.Filter(hs, OnParcel(parcelId.value)) else hs
  }

  /** `GET /odoo/harvests`: the date arguments are accepted and ignored. */
  function GetHarvests(parcelId: Option<int>, startDate: Option<string>, endDate: Option<string>): seq<Harvest> {
    FilterHarvests(HarvestRecords(), parcelId)
  }

  /** With a parcel id, the listing is the order-preserving subsequence of records on that parcel. */
  lemma FilterHarvestsOrdered(hs: seq<Harvest>, parcelId: int)
    requires parcelId != 0
    ensures Filters.SubsequenceAt(FilterHarvests(hs, Some(parcelId)), hs, Filters.Kept(hs, OnParcel(parcelId)))
  {
    Filters.FilterIsSubsequence(hs, OnParcel(parcelId));
  }

  // ---------------------------------------------------------------------------
  // Push
  // ---------------------------------------------------------------------------

  /** The range `random.randint(1000, 9999)` draws from (both ends included). */
  type OdooId = n: int | 1000 <= n <= 9999 witness 1000

  datatype PushResult = PushResult(odooId: OdooId, model: string, status: string, message: string)

  function InvalidModelDetail(): string {
    "Invalid model. Must be one of: " + ListRepr(ValidModels)
  }

  /** `POST /odoo/push/{model}`: the configuration is checked before the model;
      `draw` is the random record id. The pushed data is not used. */
  function PushToOdoo(s: Config.Settings, model: string, data: map<string, Json>, draw: OdooId): (r: Reply<PushResult>)
    ensures !Configured(s) ==> r == HttpError(400, NotConfiguredDetail)
    ensures Configured(s) && model !in ValidModels ==> r == HttpError(400, InvalidModelDetail())
    ensures r.Ok? <==> Configured(s) && model in ValidModels
    ensures r.Ok? ==> r.value.model == model && r.value.status == "created" && 1000 <= r.value.odooId <= 9999
    ensures r.Ok? ==> r.value.message == "Record created in Odoo " + model + " model"
    ensures !r.ServerError?
  {
    if !Configured(s) then HttpError(400, NotConfiguredDetail)
    else if model !in ValidModels then HttpError(400, InvalidModelDetail())
    else Ok(PushResult(draw, model, "created", "Record created in Odoo " + model + " model"))
  }

  /** An unconfigured integration reports that, whatever model is named. */
  lemma ConfigurationCheckedFirst(s: Config.Settings, model: string, data: map<string, Json>, draw: OdooId)
    requires !Configured(s) && model !in ValidModels
    ensures PushToOdoo(s, model, data, draw).detail == NotConfiguredDetail
    ensures NotConfiguredDetail != InvalidModelDetail()
  {
    assert NotConfiguredDetail[0] == 'O';
    assert InvalidModelDetail()[0] == 'I';
  }
}
