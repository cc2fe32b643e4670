/**
 * The store and the DAO object that the Mongo repositories build with
 * `InitializeDao`. Each method is proved against the specification
 * functions of `Repository`.
 */
module MongoDao {
  import opened Wrappers
  import opened Bson
  import opened Errors
  import opened Library
  import opened Repository

  /** The store behind a `mongo.Client`: documents per collection, in natural order. */
  class Database {
    var collections: map<string, seq<Document>>

    constructor (initial: map<string, seq<Document>>)
      ensures collections == initial
    {
      collections := initial;
    }
  }

  function Stored(collections: map<string, seq<Document>>, name: string): seq<Document>
  {
    if name in collections then collections[name] else []
  }

  class Dao {
    const client: Database
    const businessId: string
    const customerId: string   // "" for the DAOs built from a business id alone
    const cfg: DaoConfig
    const helpers: Helpers

    constructor InitializeDao(client: Database, businessId: string, customerId: string, cfg: DaoConfig, helpers: Helpers)
      ensures this.client == client && this.businessId == businessId && this.customerId == customerId
      ensures this.cfg == cfg && this.helpers == helpers
    {
      this.client := client;
      this.businessId := businessId;
      this.customerId := customerId;
      this.cfg := cfg;
      this.helpers := helpers;
    }

    function Docs(): seq<Document>
      reads client
    {
      Stored(client.collections, cfg.collection)
    }

    /** The collection after storing `docs` in it, the other collections untouched. */
    function WithDocs(docs: seq<Document>): map<string, seq<Document>>
      reads client
    {
      client.collections[cfg.collection := docs]
    }

    method List(filter: TextArg<Query>, sort: TextArg<SortSpec>, skip: int, limit: int, io: Io) returns (r: Result<ListResponse, Error>)
      ensures io.Fails? ==> r == Err(Driver(io.reason))
      ensures io.Succeeds? ==> r == Ok(ListSpec(cfg, businessId, customerId, helpers, Docs(), filter, sort, skip, limit))
    {
      if io.Fails? {
        return Err(Driver(io.reason));
      }
      var docs := Docs();
      var filterdoc := Scoped(cfg, businessId, customerId, FilterPairs(filter));
      var results := Window(Ordered(helpers, sort, Matching(docs, filterdoc)), skip, limit);
      var listdata: seq<Document> := [];
      var i := 0;
      while i < |results|
        invariant 0 <= i <= |results|
        invariant |listdata| == i
        invariant forall k :: 0 <= k < i ==> listdata[k] == helpers.amendForGet(results[k])
      {
        listdata := listdata + [helpers.amendForGet(results[i])];
        i := i + 1;
      }
      var filtercount := |Matching(docs, filterdoc)|;
      var totalcount := |Matching(docs, TotalPairs(cfg, businessId, customerId))|;
      assert listdata == AmendAll(helpers, results);
      r := Ok(ListResponse(Summary(totalcount, filtercount, |listdata|), listdata));
    }

    method Get(id: string) returns (r: Result<Document, Error>)
      ensures r == GetSpec(cfg, businessId, customerId, helpers, Docs(), id)
    {
      var docs := Docs();
      var filter := Scoped(cfg, businessId, customerId, IdQuery(cfg, id));
      match FirstMatch(docs, filter)
      case None =>
        r := Err(NoDocuments);
      case Some(i) =>
        r := Ok(helpers.amendForGet(docs[i]));
    }

    method Find(filter: TextArg<Query>) returns (r: Result<Document, Error>)
      ensures r == FindSpec(cfg, businessId, customerId, helpers, Docs(), filter)
    {
      var docs := Docs();
      var bfilter := Scoped(cfg, businessId, customerId, FilterPairs(filter));
      match FirstMatch(docs, bfilter)
      case None =>
        r := Err(NoDocuments);
      case Some(i) =>
        r := Ok(helpers.amendForGet(docs[i]));
    }

    /** Inserts the amended document and reads it back by the id it carries. */
    method Create(indata: Document, io: Io) returns (r: Result<Document, Error>)
      requires cfg.idKey in helpers.amendForCreate(indata) && helpers.amendForCreate(indata)[cfg.idKey].Str?
      modifies client
      ensures io.Fails? ==> r == Err(Driver(io.reason)) && client.collections == old(client.collections)
      ensures io.Succeeds? ==>
                && client.collections == old(WithDocs(Docs() + [helpers.amendForCreate(indata)]))
                && r == GetSpec(cfg, businessId, customerId, helpers, Docs(), helpers.amendForCreate(indata)[cfg.idKey].s)
    {
      if io.Fails? {
        return Err(Driver(io.reason));
      }
      var amended := helpers.amendForCreate(indata);
      client.collections := WithDocs(Docs() + [amended]);
      r := Get(amended[cfg.idKey].s);
    }

    /** `$set`s the amended fields on the document with this exact id, whatever its scope, then reads it back in scope. */
    method Update(id: string, indata: Document, io: Io) returns (r: Result<Document, Error>)
      modifies client
      ensures io.Fails? ==> r == Err(Driver(io.reason)) && client.collections == old(client.collections)
      ensures io.Succeeds? ==>
                && client.collections == old(WithDocs(SetFirst(Docs(), IdQuery(cfg, id), helpers.amendForUpdate(indata))))
                && r == GetSpec(cfg, businessId, customerId, helpers, Docs(), id)
    {
      if io.Fails? {
        return Err(Driver(io.reason));
      }
      var amended := helpers.amendForUpdate(indata);
      client.collections := WithDocs(SetFirst(Docs(), IdQuery(cfg, id), amended));
      r := Get(id);
    }

    /** Removes the first document whose id equals `id` ignoring case, whatever its scope, and reports how many went. */
    method Delete(id: string, io: Io) returns (deleted: nat, err: Option<Error>)
      modifies client
      ensures io.Fails? ==> deleted == 0 && err == Some(Driver(io.reason)) && client.collections == old(client.collections)
      ensures io.Succeeds? ==>
                && err == None
                && client.collections == old(WithDocs(RemoveFirst(Docs(), cfg.idKey, id)))
                && deleted == |old(Docs())| - |Docs()|
                && deleted <= 1
    {
      if io.Fails? {
        return 0, Some(Driver(io.reason));
      }
      var before := Docs();
      var after := RemoveFirst(before, cfg.idKey, id);
      DeleteRemovesAtMostOne(before, cfg.idKey, id);
      client.collections := WithDocs(after);
      deleted := |before| - |after|;
      err := None;
    }
  }
}
