/**
 * The service facade over one DAO. Every `*BaseService` of the sales
 * library follows one template, modelled once here; each concrete service
 * is a `ServiceConfig`.
 */
module Services {
  import opened Wrappers
  import opened Bson
  import opened Errors
  import opened Library
  import opened Repository
  import opened MongoDao

  /** Whether construction reads a customer id, and whether it must be present. */
  datatype CustomerParam = NoCustomer | OptionalCustomer | RequiredCustomer

  datatype ServiceConfig = ServiceConfig(
    dao: DaoConfig,
    idKey: Option<string>,    // the id field Create fills in; None when Create assigns no id
    idPrefix: string,         // the prefix handed to GenerateUniqueId
    customer: CustomerParam,
    createSetsCustomer: bool, // Create writes customer_id into the record
    updateStrips: set<string>,// keys Update deletes from its input
    closesOnFailure: bool,    // a failed construction closes what it opened
    usesRegionDb: bool,       // business id read before opening; the DAO works on the region database
    invalidBusinessMsg: string)

  predicate WellFormed(cfg: ServiceConfig)
  {
    && (cfg.idKey.Some? ==> cfg.idKey.value == cfg.dao.idKey)
    && cfg.dao.idKey != FLD_BUSINESS_ID && cfg.dao.idKey != FLD_CUSTOMER_ID
    && FLD_IS_DELETED !in cfg.updateStrips
    && (cfg.createSetsCustomer ==> !cfg.customer.NoCustomer?)
    && (cfg.usesRegionDb ==> cfg.customer.NoCustomer?)
  }

  /** What the constructor finds: whether each database opens, and which ids the lookups know. */
  datatype Environment = Environment(
    mainOpen: Io,
    regionOpen: Io,
    businesses: set<string>,
    customers: set<(string, string)>) // (business id, customer id)

  /** The outcome of construction. */
  datatype Verdict =
    | Accepted(businessId: string, customerId: string)
    | Rejected(error: Error, mainOpen: bool, regionOpen: bool) // and which databases are left open
    | Exited(reason: string)                                   // log.Fatal

  function CustomerArg(cfg: ServiceConfig, props: map<string, string>): string
  {
    if cfg.customer.NoCustomer? || FLD_CUSTOMER_ID !in props then "" else props[FLD_CUSTOMER_ID]
  }

  predicate ChecksCustomer(cfg: ServiceConfig, customerId: string)
  {
    cfg.customer.RequiredCustomer? || (cfg.customer.OptionalCustomer? && |customerId| > 0)
  }

  function Lookups(cfg: ServiceConfig, businessId: string, customerId: string, env: Environment): Verdict
  {
    var left := !cfg.closesOnFailure;
    if businessId !in env.businesses then
      Rejected(AppError(INVALID_ID_CODE, cfg.invalidBusinessMsg), left, left && cfg.usesRegionDb)
    else if ChecksCustomer(cfg, customerId) && (businessId, customerId) !in env.customers then
      Rejected(AppError(INVALID_ID_CODE, INVALID_CUSTOMER_MSG), left, left && cfg.usesRegionDb)
    else Accepted(businessId, customerId)
  }

  /** The construction gate of `New*Service(props)`, in the order the constructor runs its checks. */
  function Gate(cfg: ServiceConfig, props: map<string, string>, env: Environment): Verdict
  {
    if cfg.usesRegionDb then
      if FLD_BUSINESS_ID !in props then Rejected(MissingMember(FLD_BUSINESS_ID), false, false)
      else if env.mainOpen.Fails? then Rejected(Driver(env.mainOpen.reason), false, false)
      else if env.regionOpen.Fails? then Rejected(Driver(env.regionOpen.reason), false, false)
      else Lookups(cfg, props[FLD_BUSINESS_ID], "", env)
    else if env.mainOpen.Fails? then Exited(env.mainOpen.reason)
    else if FLD_BUSINESS_ID !in props then Rejected(MissingMember(FLD_BUSINESS_ID), !cfg.closesOnFailure, false)
    else if cfg.customer.RequiredCustomer? && FLD_CUSTOMER_ID !in props then
      Rejected(MissingMember(FLD_CUSTOMER_ID), !cfg.closesOnFailure, false)
    else Lookups(cfg, props[FLD_BUSINESS_ID], CustomerArg(cfg, props), env)
  }

  /** A service is built exactly when its databases open, the ids it needs are given and the lookups know them. */
  lemma GateAccepts(cfg: ServiceConfig, props: map<string, string>, env: Environment)
    requires WellFormed(cfg)
    ensures Gate(cfg, props, env).Accepted? <==>
            && env.mainOpen.Succeeds?
            && (cfg.usesRegionDb ==> env.regionOpen.Succeeds?)
            && FLD_BUSINESS_ID in props
            && (cfg.customer.RequiredCustomer? ==> FLD_CUSTOMER_ID in props)
            && props[FLD_BUSINESS_ID] in env.businesses
            && (ChecksCustomer(cfg, CustomerArg(cfg, props)) ==> (props[FLD_BUSINESS_ID], CustomerArg(cfg, props)) in env.customers)
    ensures Gate(cfg, props, env).Accepted? ==>
            Gate(cfg, props, env) == Accepted(props[FLD_BUSINESS_ID], CustomerArg(cfg, props))
  {
  }

  /** A rejection leaves a database open exactly when the service does not close on failure, and nothing opened when the region store did not open. */
  lemma GateLeavesOpen(cfg: ServiceConfig, props: map<string, string>, env: Environment)
    requires Gate(cfg, props, env).Rejected?
    ensures var v := Gate(cfg, props, env);
            && (v.regionOpen ==> v.mainOpen && cfg.usesRegionDb)
            && (!cfg.usesRegionDb ==> v.mainOpen == !cfg.closesOnFailure)
            && (cfg.usesRegionDb && (FLD_BUSINESS_ID !in props || env.mainOpen.Fails? || env.regionOpen.Fails?) ==> !v.mainOpen)
            && (cfg.usesRegionDb && cfg.closesOnFailure ==> !v.mainOpen && !v.regionOpen)
  {
  }

  /** A `utils.Map` argument: the services write into it and delete from it in place. */
  class Record {
    var fields: Document

    constructor (fields: Document)
      ensures this.fields == fields
    {
      this.fields := fields;
    }
  }

  /** A supplied id must be a string (the source asserts its type). */
  predicate IdArgOk(cfg: ServiceConfig, fields: Document)
  {
    cfg.idKey.Some? && cfg.idKey.value in fields ==> fields[cfg.idKey.value].Str?
  }

  /** The id Create stores: a supplied one lower-cased, otherwise a fresh unique id. */
  function ChosenId(cfg: ServiceConfig, h: Helpers, fields: Document, key: string, nonce: nat): string
    requires key in fields ==> fields[key].Str?
  {
    if key in fields then Lower(fields[key].s) else h.uniqueId(cfg.idPrefix, nonce)
  }

  /** The record Create hands to the DAO. */
  function CreateFields(cfg: ServiceConfig, businessId: string, customerId: string, h: Helpers, fields: Document, nonce: nat): Document
    requires IdArgOk(cfg, fields)
  {
    var scoped := fields[FLD_BUSINESS_ID := Str(businessId)];
    var owned := if cfg.createSetsCustomer then scoped[FLD_CUSTOMER_ID := Str(customerId)] else scoped;
    match cfg.idKey
    case None => owned
    case Some(key) => owned[key := Str(ChosenId(cfg, h, fields, key, nonce))]
  }

  /** Create forces the scope fields and the id, and leaves every other key as given. */
  lemma CreateFieldsMeaning(cfg: ServiceConfig, businessId: string, customerId: string, h: Helpers, fields: Document, nonce: nat)
    requires WellFormed(cfg) && IdArgOk(cfg, fields)
    ensures var r := CreateFields(cfg, businessId, customerId, h, fields, nonce);
            && FLD_BUSINESS_ID in r && r[FLD_BUSINESS_ID] == Str(businessId)
            && (cfg.createSetsCustomer ==> FLD_CUSTOMER_ID in r && r[FLD_CUSTOMER_ID] == Str(customerId))
            && (forall k :: k in r <==> k in fields || k == FLD_BUSINESS_ID || (cfg.createSetsCustomer && k == FLD_CUSTOMER_ID) || cfg.idKey == Some(k))
            && (forall k :: k in fields && k != FLD_BUSINESS_ID && !(cfg.createSetsCustomer && k == FLD_CUSTOMER_ID) && cfg.idKey != Some(k)
                  ==> r[k] == fields[k])
    ensures cfg.idKey.Some? ==>
            var key := cfg.idKey.value;
            var r := CreateFields(cfg, businessId, customerId, h, fields, nonce);
            && key in r && r[key].Str?
            && (key in fields ==> IsLowerCase(r[key].s) && SameIgnoringCase(r[key].s, fields[key].s))
            && (key !in fields ==> r[key].s == h.uniqueId(cfg.idPrefix, nonce))
  {
    if cfg.idKey.Some? && cfg.idKey.value in fields {
      LowerMakesLowerCase(fields[cfg.idKey.value].s);
    }
  }

  /** The value of the flag a soft delete writes. */
  function SoftDeletePatch(): Document { map[FLD_IS_DELETED := Bool(true)] }

  /** The collection after a successful Delete. */
  function DeleteEffect(cfg: ServiceConfig, h: Helpers, docs: seq<Document>, id: string, permanent: bool): seq<Document>
  {
    if permanent then RemoveFirst(docs, cfg.dao.idKey, id)
    else SetFirst(docs, IdQuery(cfg.dao, id), h.amendForUpdate(SoftDeletePatch() - cfg.updateStrips))
  }

  /** What Delete returns, as the source is written. */
  function DeleteReply(cfg: ServiceConfig, businessId: string, customerId: string, h: Helpers, docs: seq<Document>,
                       id: string, permanent: bool, io: Io): Option<Error>
  {
    if io.Fails? then Some(Driver(io.reason))
    else if permanent then None
    else
      var reread := GetSpec(cfg.dao, businessId, customerId, h, DeleteEffect(cfg, h, docs, id, permanent), id);
      if reread.Err? then Some(reread.error) else None
  }

  /** What Delete returns once the re-read of a soft-deleted record no longer counts as a failure. */
  function DeleteReplyIntended(io: Io): Option<Error>
  {
    if io.Fails? then Some(Driver(io.reason)) else None
  }

  class Service {
    const cfg: ServiceConfig
    const helpers: Helpers
    var businessId: string
    var customerId: string
    var dao: Dao?
    var mainOpen: bool
    var regionOpen: bool

    /** The zero value `xBaseService{}`. */
    constructor Blank(cfg: ServiceConfig, helpers: Helpers)
      ensures this.cfg == cfg && this.helpers == helpers
      ensures businessId == "" && customerId == "" && dao == null && !mainOpen && !regionOpen
    {
      this.cfg := cfg;
      this.helpers := helpers;
      businessId := "";
      customerId := "";
      dao := null;
      mainOpen := false;
      regionOpen := false;
    }

    ghost predicate Valid()
      reads this
    {
      && dao != null
      && dao.cfg == cfg.dao && dao.businessId == businessId && dao.customerId == customerId
      && dao.helpers == helpers
      && WellFormed(cfg)
    }

    /** `initializeService`: builds the DAO on the given database with the service's ids. */
    method InitializeService(client: Database)
      modifies this
      ensures dao != null && fresh(dao) && dao.client == client
      ensures dao.cfg == cfg.dao && dao.businessId == businessId && dao.customerId == customerId && dao.helpers == helpers
      ensures businessId == old(businessId) && customerId == old(customerId)
      ensures mainOpen == old(mainOpen) && regionOpen == old(regionOpen)
    {
      dao := new Dao.InitializeDao(client, businessId, customerId, cfg.dao, helpers);
    }

    /** Closes the main database and, for a service that opened one, the region database. */
    method EndService()
      modifies this
      ensures !mainOpen && regionOpen == (old(regionOpen) && !cfg.usesRegionDb)
      ensures dao == old(dao) && businessId == old(businessId) && customerId == old(customerId)
    {
      mainOpen := false;
      if cfg.usesRegionDb {
        regionOpen := false;
      }
    }

    method List(filter: TextArg<Query>, sort: TextArg<SortSpec>, skip: int, limit: int, io: Io) returns (r: Result<ListResponse, Error>)
      requires Valid()
      ensures io.Fails? ==> r == Err(Driver(io.reason))
      ensures io.Succeeds? ==> r == Ok(ListSpec(cfg.dao, businessId, customerId, helpers, dao.Docs(), filter, sort, skip, limit))
    {
      r := dao.List(filter, sort, skip, limit, io);
    }

    method Get(id: string) returns (r: Result<Document, Error>)
      requires Valid()
      ensures r == GetSpec(cfg.dao, businessId, customerId, helpers, dao.Docs(), id)
    {
      r := dao.Get(id);
    }

    method Find(filter: TextArg<Query>) returns (r: Result<Document, Error>)
      requires Valid()
      ensures r == FindSpec(cfg.dao, businessId, customerId, helpers, dao.Docs(), filter)
    {
      r := dao.Find(filter);
    }

    /** Fills in the scope fields and the id, then creates through the DAO. */
    method Create(indata: Record, nonce: nat, io: Io) returns (r: Result<Document, Error>)
      requires Valid()
      requires IdArgOk(cfg, indata.fields)
      requires cfg.idKey.None? ==> cfg.dao.idKey in indata.fields && indata.fields[cfg.dao.idKey].Str?
      requires CreateKeeps(helpers, cfg.dao.idKey)
      modifies indata, dao.client
      ensures indata.fields == CreateFields(cfg, businessId, customerId, helpers, old(indata.fields), nonce)
      ensures io.Fails? ==> r == Err(Driver(io.reason)) && dao.client.collections == old(dao.client.collections)
      ensures io.Succeeds? ==>
                && dao.client.collections ==
                   old(dao.client.collections)[cfg.dao.collection := old(dao.Docs()) + [helpers.amendForCreate(indata.fields)]]
                && cfg.dao.idKey in indata.fields && indata.fields[cfg.dao.idKey].Str?
                && r == GetSpec(cfg.dao, businessId, customerId, helpers, dao.Docs(), indata.fields[cfg.dao.idKey].s)
    {
      var fields := indata.fields;
      var chosen := "";
      if cfg.idKey.Some? {
        chosen := ChosenId(cfg, helpers, fields, cfg.idKey.value, nonce);
      }
      fields := fields[FLD_BUSINESS_ID := Str(businessId)];
      if cfg.createSetsCustomer {
        fields := fields[FLD_CUSTOMER_ID := Str(customerId)];
      }
      if cfg.idKey.Some? {
        fields := fields[cfg.idKey.value := Str(chosen)];
      }
      assert fields == CreateFields(cfg, businessId, customerId, helpers, indata.fields, nonce);
      assert cfg.dao.idKey in fields && fields[cfg.dao.idKey].Str?;
      indata.fields := fields;
      r := dao.Create(indata.fields, io);
    }

    /** Deletes the immutable keys from the input, then updates through the DAO. */
    method Update(id: string, indata: Record, io: Io) returns (r: Result<Document, Error>)
      requires Valid()
      modifies indata, dao.client
      ensures indata.fields == old(indata.fields) - cfg.updateStrips
      ensures io.Fails? ==> r == Err(Driver(io.reason)) && dao.client.collections == old(dao.client.collections)
      ensures io.Succeeds? ==>
                && dao.client.collections ==
                   old(dao.client.collections)[cfg.dao.collection := SetFirst(old(dao.Docs()), IdQuery(cfg.dao, id), helpers.amendForUpdate(indata.fields))]
                && r == GetSpec(cfg.dao, businessId, customerId, helpers, dao.Docs(), id)
    {
      indata.fields := indata.fields - cfg.updateStrips;
      r := dao.Update(id, indata.fields, io);
    }

    /** A permanent delete goes to the DAO; any other is an Update that sets the deleted flag. */
    method Delete(id: string, permanent: bool, io: Io) returns (err: Option<Error>)
      requires Valid()
      modifies dao.client
      ensures io.Fails? ==> dao.client.collections == old(dao.client.collections)
      ensures io.Succeeds? ==>
                dao.client.collections == old(dao.client.collections)[cfg.dao.collection := DeleteEffect(cfg, helpers, old(dao.Docs()), id, permanent)]
      ensures err == DeleteReply(cfg, businessId, customerId, helpers, old(dao.Docs()), id, permanent, io)
    {
      if permanent {
        var deleted;
        deleted, err := dao.Delete(id, io);
      } else {
        var flag := new Record(SoftDeletePatch());
        var data := Update(id, flag, io);
        if data.Err? {
          err := Some(data.error);
        } else {
          err := None;
        }
      }
    }

    /** Delete as intended: a soft delete succeeds once the flag is written. */
    method DeleteIntended(id: string, permanent: bool, io: Io) returns (err: Option<Error>)
      requires Valid()
      modifies dao.client
      ensures io.Fails? ==> dao.client.collections == old(dao.client.collections)
      ensures io.Succeeds? ==>
                dao.client.collections == old(dao.client.collections)[cfg.dao.collection := DeleteEffect(cfg, helpers, old(dao.Docs()), id, permanent)]
      ensures err == DeleteReplyIntended(io)
    {
      if permanent {
        var deleted;
        deleted, err := dao.Delete(id, io);
      } else {
        var flag := new Record(SoftDeletePatch());
        var data := Update(id, flag, io);
        if io.Fails? {
          err := Some(Driver(io.reason));
        } else {
          err := None;
        }
      }
    }
  }

  /** `New*Service(props)`: opens the databases, checks the ids and builds the DAO. */
  method NewService(cfg: ServiceConfig, helpers: Helpers, props: map<string, string>, env: Environment, main: Database, region: Database)
    returns (svc: Service?, err: Option<Error>, ghost attempt: Service)
    requires WellFormed(cfg)
    ensures fresh(attempt) && attempt.cfg == cfg && attempt.helpers == helpers
    ensures var v := Gate(cfg, props, env);
            && (svc != null <==> v.Accepted?)
            && (v.Accepted? ==>
                  && svc == attempt && err == None && svc.Valid() && fresh(svc.dao)
                  && svc.businessId == v.businessId && svc.customerId == v.customerId
                  && svc.dao.client == (if cfg.usesRegionDb then region else main)
                  && svc.mainOpen && svc.regionOpen == cfg.usesRegionDb)
            && (v.Rejected? ==> err == Some(v.error) && attempt.mainOpen == v.mainOpen && attempt.regionOpen == v.regionOpen)
            && (v.Exited? ==> err == Some(ProcessExit(v.reason)))
  {
    var p := new Service.Blank(cfg, helpers);
    attempt := p;
    svc := null;
    if cfg.usesRegionDb {
      if FLD_BUSINESS_ID !in props {
        return null, Some(MissingMember(FLD_BUSINESS_ID)), p;
      }
      var businessId := props[FLD_BUSINESS_ID];
      if env.mainOpen.Fails? {
        return null, Some(Driver(env.mainOpen.reason)), p;
      }
      p.mainOpen := true;
      if env.regionOpen.Fails? {
        p.mainOpen := false;
        return null, Some(Driver(env.regionOpen.reason)), p;
      }
      p.regionOpen := true;
      p.businessId := businessId;
      p.InitializeService(region);
      if businessId !in env.businesses {
        if cfg.closesOnFailure {
          p.EndService();
        }
        return null, Some(AppError(INVALID_ID_CODE, cfg.invalidBusinessMsg)), p;
      }
      return p, None, p;
    }
    if env.mainOpen.Fails? {
      return null, Some(ProcessExit(env.mainOpen.reason)), p;
    }
    p.mainOpen := true;
    if FLD_BUSINESS_ID !in props {
      if cfg.closesOnFailure {
        p.EndService();
      }
      return null, Some(MissingMember(FLD_BUSINESS_ID)), p;
    }
    var businessId := props[FLD_BUSINESS_ID];
    var customerId := "";
    if !cfg.customer.NoCustomer? {
      if FLD_CUSTOMER_ID in props {
        customerId := props[FLD_CUSTOMER_ID];
      } else if cfg.customer.RequiredCustomer? {
        if cfg.closesOnFailure {
          p.EndService();
        }
        return null, Some(MissingMember(FLD_CUSTOMER_ID)), p;
      }
    }
    p.businessId := businessId;
    p.customerId := customerId;
    p.InitializeService(main);
    if businessId !in env.businesses {
      if cfg.closesOnFailure {
        p.EndService();
      }
      return null, Some(AppError(INVALID_ID_CODE, cfg.invalidBusinessMsg)), p;
    }
    if ChecksCustomer(cfg, customerId) && (businessId, customerId) !in env.customers {
      if cfg.closesOnFailure {
        p.EndService();
      }
      return null, Some(AppError(INVALID_ID_CODE, INVALID_CUSTOMER_MSG)), p;
    }
    return p, None, p;
  }

  // ---- Properties of Update and Delete ----

  /** Update never writes a key it strips, provided the update amending adds no such key itself. */
  lemma StrippedKeysSurviveUpdate(cfg: ServiceConfig, h: Helpers, docs: seq<Document>, id: string, fields: Document, key: string)
    requires key in cfg.updateStrips
    requires UpdateAddsNo(h, key)
    ensures var after := SetFirst(docs, IdQuery(cfg.dao, id), h.amendForUpdate(fields - cfg.updateStrips));
            forall k :: 0 <= k < |docs| ==> (key in after[k] <==> key in docs[k]) && (key in docs[k] ==> after[k][key] == docs[k][key])
  {
    var patch := h.amendForUpdate(fields - cfg.updateStrips);
    assert key !in fields - cfg.updateStrips;
    assert key !in patch;
  }

  /** No other record carries this id. */
  predicate UniqueId(cfg: ServiceConfig, docs: seq<Document>, id: string)
  {
    forall j, k :: 0 <= j < |docs| && 0 <= k < |docs| && j != k && Holds(docs[j], Eq(cfg.dao.idKey, Str(id)))
                   ==> !Holds(docs[k], Eq(cfg.dao.idKey, Str(id)))
  }

  /** After a soft delete no record with that id is readable, so Get reports no documents. */
  lemma SoftDeleteHides(cfg: ServiceConfig, businessId: string, customerId: string, h: Helpers, docs: seq<Document>, id: string)
    requires WellFormed(cfg)
    requires UpdateKeeps(h, FLD_IS_DELETED)
    requires UniqueId(cfg, docs, id)
    ensures GetSpec(cfg.dao, businessId, customerId, h, DeleteEffect(cfg, h, docs, id, false), id) == Err(NoDocuments)
  {
    var q := IdQuery(cfg.dao, id);
    assert SoftDeletePatch() - cfg.updateStrips == SoftDeletePatch();
    var patch := h.amendForUpdate(SoftDeletePatch());
    assert FLD_IS_DELETED in patch && patch[FLD_IS_DELETED] == Bool(true);
    var after := DeleteEffect(cfg, h, docs, id, false);
    forall d | true
      ensures Matches(d, q) <==> Holds(d, Eq(cfg.dao.idKey, Str(id)))
    {
      MatchesSingle(d, Eq(cfg.dao.idKey, Str(id)));
    }
    forall k | 0 <= k < |after|
      ensures !Readable(cfg.dao, businessId, customerId, after[k], id)
    {
      match FirstMatch(docs, q)
      case None =>
      case Some(i) =>
        if k == i {
          assert after[k] == docs[i] + patch;
          assert !IsActive(after[k]);
        } else {
          assert after[k] == docs[k];
        }
    }
    GetMeaning(cfg.dao, businessId, customerId, h, after, id);
  }

  /** As written, a successful soft delete of a record with a unique id is reported as a failure. */
  lemma SoftDeleteReportsNoDocuments(cfg: ServiceConfig, businessId: string, customerId: string, h: Helpers, docs: seq<Document>, id: string)
    requires WellFormed(cfg)
    requires UpdateKeeps(h, FLD_IS_DELETED)
    requires UniqueId(cfg, docs, id)
    ensures DeleteReply(cfg, businessId, customerId, h, docs, id, false, Succeeds) == Some(NoDocuments)
  {
    SoftDeleteHides(cfg, businessId, customerId, h, docs, id);
  }

  /** As intended, a soft delete whose write succeeds reports success and leaves the record unreadable. */
  lemma SoftDeleteIntendedSucceeds(cfg: ServiceConfig, businessId: string, customerId: string, h: Helpers, docs: seq<Document>, id: string)
    requires WellFormed(cfg)
    requires UpdateKeeps(h, FLD_IS_DELETED)
    requires UniqueId(cfg, docs, id)
    ensures DeleteReplyIntended(Succeeds) == None
    ensures GetSpec(cfg.dao, businessId, customerId, h, DeleteEffect(cfg, h, docs, id, false), id) == Err(NoDocuments)
    ensures forall k :: 0 <= k < |docs| && !Holds(docs[k], Eq(cfg.dao.idKey, Str(id))) ==>
                        DeleteEffect(cfg, h, docs, id, false)[k] == docs[k]
  {
    SoftDeleteHides(cfg, businessId, customerId, h, docs, id);
    var q := IdQuery(cfg.dao, id);
    forall k | 0 <= k < |docs| && !Holds(docs[k], Eq(cfg.dao.idKey, Str(id)))
      ensures DeleteEffect(cfg, h, docs, id, false)[k] == docs[k]
    {
      MatchesSingle(docs[k], Eq(cfg.dao.idKey, Str(id)));
    }
  }
}
