/**
 * The tenant-scoped document repositories ("DAOs"). Every DAO of the sales
 * library follows one template; the template is modelled once here and each
 * concrete DAO is a `DaoConfig` naming its collection, its id field and how
 * it scopes by customer.
 */
module Repository {
  import opened Wrappers
  import opened Bson
  import opened Errors
  import opened Library

  const FLD_BUSINESS_ID: string := "business_id"
  const FLD_CUSTOMER_ID: string := "customer_id"
  const FLD_IS_DELETED: string := "is_deleted"

  /** How a DAO narrows its reads to one customer. */
  datatype CustomerScope =
    | BusinessOnly     // business_id only
    | CustomerWhenSet  // customer_id as well, when the DAO was built with a non-empty customer id
    | CustomerAlways   // customer_id as well, always (an empty id then matches only customer_id "")

  datatype DaoConfig = DaoConfig(
    collection: string,
    idKey: string,
    customer: CustomerScope,
    totalIgnoresDeleted: bool) // whether the list's total count leaves out the is_deleted condition

  function BusinessPair(businessId: string): Condition { Eq(FLD_BUSINESS_ID, Str(businessId)) }

  function CustomerPair(customerId: string): Condition { Eq(FLD_CUSTOMER_ID, Str(customerId)) }

  const ACTIVE_PAIR: Condition := Eq(FLD_IS_DELETED, Bool(false))

  /** The scope conditions a DAO appends to every read, in the order it appends them. */
  function ScopePairs(cfg: DaoConfig, businessId: string, customerId: string): Query
  {
    match cfg.customer
    case BusinessOnly => [BusinessPair(businessId), ACTIVE_PAIR]
    case CustomerWhenSet =>
      [BusinessPair(businessId), ACTIVE_PAIR] + (if |customerId| > 0 then [CustomerPair(customerId)] else [])
    case CustomerAlways => [BusinessPair(businessId), CustomerPair(customerId), ACTIVE_PAIR]
  }

  /** The query behind the list's total count. */
  function TotalPairs(cfg: DaoConfig, businessId: string, customerId: string): Query
  {
    var scope := ScopePairs(cfg, businessId, customerId);
    if cfg.totalIgnoresDeleted then Without(scope, FLD_IS_DELETED) else scope
  }

  function Without(q: Query, key: string): (r: Query)
    ensures forall c :: c in r <==> c in q && c.key != key
  {
    if q == [] then []
    else (if q[0].key == key then [] else [q[0]]) + Without(q[1..], key)
  }

  /** A caller's conditions followed by the DAO's scope. */
  function Scoped(cfg: DaoConfig, businessId: string, customerId: string, user: Query): Query
  {
    user + ScopePairs(cfg, businessId, customerId)
  }

  function IdQuery(cfg: DaoConfig, id: string): Query { [Eq(cfg.idKey, Str(id))] }

  function FilterPairs(filter: TextArg<Query>): Query
  {
    if filter.Parsed? then filter.value else []
  }

  // ---- What the scope means, stated on documents ----

  predicate OwnedBy(cfg: DaoConfig, businessId: string, customerId: string, d: Document)
  {
    && FLD_BUSINESS_ID in d && d[FLD_BUSINESS_ID] == Str(businessId)
    && match cfg.customer
       case BusinessOnly => true
       case CustomerWhenSet => customerId == "" || (FLD_CUSTOMER_ID in d && d[FLD_CUSTOMER_ID] == Str(customerId))
       case CustomerAlways => FLD_CUSTOMER_ID in d && d[FLD_CUSTOMER_ID] == Str(customerId)
  }

  predicate IsActive(d: Document)
  {
    FLD_IS_DELETED in d && d[FLD_IS_DELETED] == Bool(false)
  }

  /** A document the DAO's reads can see. */
  predicate InScope(cfg: DaoConfig, businessId: string, customerId: string, d: Document)
  {
    OwnedBy(cfg, businessId, customerId, d) && IsActive(d)
  }

  /** A document the list's total count includes. */
  predicate CountedInTotal(cfg: DaoConfig, businessId: string, customerId: string, d: Document)
  {
    OwnedBy(cfg, businessId, customerId, d) && (cfg.totalIgnoresDeleted || IsActive(d))
  }

  /** A document that `Get(id)` may return. */
  predicate Readable(cfg: DaoConfig, businessId: string, customerId: string, d: Document, id: string)
  {
    cfg.idKey in d && d[cfg.idKey] == Str(id) && InScope(cfg, businessId, customerId, d)
  }

  lemma MatchesByMembership(d: Document, q: Query)
    ensures Matches(d, q) <==> forall c :: c in q ==> Holds(d, c)
  {
    if Matches(d, q) {
      forall c | c in q
        ensures Holds(d, c)
      {
        var i :| 0 <= i < |q| && q[i] == c;
      }
    }
  }

  lemma ScopeMeaning(cfg: DaoConfig, businessId: string, customerId: string, d: Document)
    ensures Matches(d, ScopePairs(cfg, businessId, customerId)) <==> InScope(cfg, businessId, customerId, d)
  {
    var base := [BusinessPair(businessId), ACTIVE_PAIR];
    if cfg.customer.CustomerWhenSet? {
      var extra: Query := if |customerId| > 0 then [CustomerPair(customerId)] else [];
      MatchesAppend(d, base, extra);
      assert Matches(d, base) <==> Holds(d, base[0]) && Holds(d, base[1]);
      if |customerId| > 0 {
        assert Matches(d, extra) <==> Holds(d, extra[0]);
      }
    } else if cfg.customer.CustomerAlways? {
      var q := ScopePairs(cfg, businessId, customerId);
      assert Matches(d, q) <==> Holds(d, q[0]) && Holds(d, q[1]) && Holds(d, q[2]);
    } else {
      assert Matches(d, base) <==> Holds(d, base[0]) && Holds(d, base[1]);
    }
  }

  lemma TotalMeaning(cfg: DaoConfig, businessId: string, customerId: string, d: Document)
    ensures Matches(d, TotalPairs(cfg, businessId, customerId)) <==> CountedInTotal(cfg, businessId, customerId, d)
  {
    var scope := ScopePairs(cfg, businessId, customerId);
    ScopeMeaning(cfg, businessId, customerId, d);
    if cfg.totalIgnoresDeleted {
      var total := Without(scope, FLD_IS_DELETED);
      MatchesByMembership(d, total);
      var owned := Without(scope, FLD_IS_DELETED) + [ACTIVE_PAIR];
      MatchesAppend(d, total, [ACTIVE_PAIR]);
      assert Matches(d, [ACTIVE_PAIR]) <==> IsActive(d) by {
        assert [ACTIVE_PAIR][0] == ACTIVE_PAIR;
      }
      MatchingSameConditionsDoc(d, owned, scope);
      // Without the is_deleted condition the remaining conditions state ownership.
      if Matches(d, total) {
        var d' := d[FLD_IS_DELETED := Bool(false)];
        forall c | c in scope
          ensures Holds(d', c)
        {
          if c.key != FLD_IS_DELETED {
            assert c in total;
          }
        }
        MatchesByMembership(d', scope);
        ScopeMeaning(cfg, businessId, customerId, d');
      }
      if OwnedBy(cfg, businessId, customerId, d) {
        var d' := d[FLD_IS_DELETED := Bool(false)];
        ScopeMeaning(cfg, businessId, customerId, d');
        MatchesByMembership(d', scope);
        forall c | c in total
          ensures Holds(d, c)
        {
          assert c in scope && c.key != FLD_IS_DELETED;
        }
      }
    }
  }

  lemma MatchingSameConditionsDoc(d: Document, q1: Query, q2: Query)
    requires Implies(q1, q2) && Implies(q2, q1)
    ensures Matches(d, q1) <==> Matches(d, q2)
  {
    if Matches(d, q1) {
      ImpliesMatches(d, q1, q2);
    }
    if Matches(d, q2) {
      ImpliesMatches(d, q2, q1);
    }
  }

  /** A DAO read matches exactly the caller's conditions inside the DAO's scope. */
  lemma ScopedMeaning(cfg: DaoConfig, businessId: string, customerId: string, user: Query, d: Document)
    ensures Matches(d, Scoped(cfg, businessId, customerId, user)) <==>
            Matches(d, user) && InScope(cfg, businessId, customerId, d)
  {
    MatchesAppend(d, user, ScopePairs(cfg, businessId, customerId));
    ScopeMeaning(cfg, businessId, customerId, d);
  }

  lemma IdQueryMeaning(cfg: DaoConfig, businessId: string, customerId: string, id: string, d: Document)
    ensures Matches(d, Scoped(cfg, businessId, customerId, IdQuery(cfg, id))) <==> Readable(cfg, businessId, customerId, d, id)
  {
    ScopedMeaning(cfg, businessId, customerId, IdQuery(cfg, id), d);
    assert Matches(d, IdQuery(cfg, id)) <==> Holds(d, IdQuery(cfg, id)[0]);
  }

  // ---- Reads ----

  /** `FindOne(q)` followed by `AmendFldsForGet`, or the driver's "no documents". */
  function ReadFirst(h: Helpers, docs: seq<Document>, q: Query): Result<Document, Error>
  {
    match FirstMatch(docs, q)
    case None => Err(NoDocuments)
    case Some(i) => Ok(h.amendForGet(docs[i]))
  }

  function GetSpec(cfg: DaoConfig, businessId: string, customerId: string, h: Helpers, docs: seq<Document>, id: string): Result<Document, Error>
  {
    ReadFirst(h, docs, Scoped(cfg, businessId, customerId, IdQuery(cfg, id)))
  }

  function FindSpec(cfg: DaoConfig, businessId: string, customerId: string, h: Helpers, docs: seq<Document>, filter: TextArg<Query>): Result<Document, Error>
  {
    ReadFirst(h, docs, Scoped(cfg, businessId, customerId, FilterPairs(filter)))
  }

  /** `Get(id)` returns the first readable document with that id, amended, and fails only when there is none. */
  lemma GetMeaning(cfg: DaoConfig, businessId: string, customerId: string, h: Helpers, docs: seq<Document>, id: string)
    ensures var r := GetSpec(cfg, businessId, customerId, h, docs, id);
            && (r.Err? <==> forall k :: 0 <= k < |docs| ==> !Readable(cfg, businessId, customerId, docs[k], id))
            && (r.Err? ==> r.error == NoDocuments)
            && (r.Ok? ==> exists i :: 0 <= i < |docs| && Readable(cfg, businessId, customerId, docs[i], id)
                                    && r.value == h.amendForGet(docs[i])
                                    && forall k :: 0 <= k < i ==> !Readable(cfg, businessId, customerId, docs[k], id))
  {
    forall d | true
      ensures Matches(d, Scoped(cfg, businessId, customerId, IdQuery(cfg, id))) <==> Readable(cfg, businessId, customerId, d, id)
    {
      IdQueryMeaning(cfg, businessId, customerId, id, d);
    }
  }

  /** `Find(filter)` returns the first document in scope that meets the filter. */
  lemma FindMeaning(cfg: DaoConfig, businessId: string, customerId: string, h: Helpers, docs: seq<Document>, filter: TextArg<Query>)
    ensures var r := FindSpec(cfg, businessId, customerId, h, docs, filter);
            && (r.Err? <==> forall k :: 0 <= k < |docs| ==> !(Matches(docs[k], FilterPairs(filter)) && InScope(cfg, businessId, customerId, docs[k])))
            && (r.Err? ==> r.error == NoDocuments)
            && (r.Ok? ==> exists i :: 0 <= i < |docs| && Matches(docs[i], FilterPairs(filter)) && InScope(cfg, businessId, customerId, docs[i])
                                    && r.value == h.amendForGet(docs[i])
                                    && forall k :: 0 <= k < i ==> !(Matches(docs[k], FilterPairs(filter)) && InScope(cfg, businessId, customerId, docs[k])))
  {
    forall d | true
      ensures Matches(d, Scoped(cfg, businessId, customerId, FilterPairs(filter))) <==>
              Matches(d, FilterPairs(filter)) && InScope(cfg, businessId, customerId, d)
    {
      ScopedMeaning(cfg, businessId, customerId, FilterPairs(filter), d);
    }
  }

  /** A filter that does not parse is the same as no filter. */
  lemma MalformedFilterIsNoFilter(cfg: DaoConfig, businessId: string, customerId: string, h: Helpers, docs: seq<Document>)
    ensures FindSpec(cfg, businessId, customerId, h, docs, Malformed) == FindSpec(cfg, businessId, customerId, h, docs, Absent)
    ensures FindSpec(cfg, businessId, customerId, h, docs, Absent) == FindSpec(cfg, businessId, customerId, h, docs, Parsed([]))
  {
  }

  // ---- Lists ----

  datatype Summary = Summary(totalSize: nat, filteredSize: nat, resultSize: nat)

  /** `{summary: {total_size, filtered_size, result_size}, result: [...]}` */
  datatype ListResponse = ListResponse(summary: Summary, result: seq<Document>)

  function Ordered(h: Helpers, sort: TextArg<SortSpec>, docs: seq<Document>): seq<Document>
  {
    if sort.Parsed? then h.sortBy(sort.value, docs) else docs
  }

  /** The documents `Find` returns once sort, skip and limit are applied. */
  function Page(cfg: DaoConfig, businessId: string, customerId: string, h: Helpers, docs: seq<Document>,
                filter: TextArg<Query>, sort: TextArg<SortSpec>, skip: int, limit: int): seq<Document>
  {
    Window(Ordered(h, sort, Matching(docs, Scoped(cfg, businessId, customerId, FilterPairs(filter)))), skip, limit)
  }

  function AmendAll(h: Helpers, docs: seq<Document>): (r: seq<Document>)
    ensures |r| == |docs|
    ensures forall i :: 0 <= i < |docs| ==> r[i] == h.amendForGet(docs[i])
  {
    if docs == [] then [] else [h.amendForGet(docs[0])] + AmendAll(h, docs[1..])
  }

  function ListSpec(cfg: DaoConfig, businessId: string, customerId: string, h: Helpers, docs: seq<Document>,
                    filter: TextArg<Query>, sort: TextArg<SortSpec>, skip: int, limit: int): ListResponse
  {
    var page := Page(cfg, businessId, customerId, h, docs, filter, sort, skip, limit);
    ListResponse(
      Summary(|Matching(docs, TotalPairs(cfg, businessId, customerId))|,
              |Matching(docs, Scoped(cfg, businessId, customerId, FilterPairs(filter)))|,
              |page|),
      AmendAll(h, page))
  }

  lemma ScopedImpliesTotal(cfg: DaoConfig, businessId: string, customerId: string, user: Query)
    ensures Implies(Scoped(cfg, businessId, customerId, user), TotalPairs(cfg, businessId, customerId))
  {
    var scope := ScopePairs(cfg, businessId, customerId);
    forall c | c in TotalPairs(cfg, businessId, customerId)
      ensures c in Scoped(cfg, businessId, customerId, user)
    {
      assert c in scope;
      var i :| 0 <= i < |scope| && scope[i] == c;
      assert Scoped(cfg, businessId, customerId, user)[|user| + i] == c;
    }
  }

  /** result size <= filtered size <= total size. */
  lemma {:induction false} ListCountsOrdered(cfg: DaoConfig, businessId: string, customerId: string, h: Helpers, docs: seq<Document>,
                                             filter: TextArg<Query>, sort: TextArg<SortSpec>, skip: int, limit: int)
    requires SortReorders(h)
    ensures var s := ListSpec(cfg, businessId, customerId, h, docs, filter, sort, skip, limit).summary;
            s.resultSize <= s.filteredSize <= s.totalSize
  {
    var found := Matching(docs, Scoped(cfg, businessId, customerId, FilterPairs(filter)));
    ScopedImpliesTotal(cfg, businessId, customerId, FilterPairs(filter));
    MatchingFewer(docs, Scoped(cfg, businessId, customerId, FilterPairs(filter)), TotalPairs(cfg, businessId, customerId));
    if sort.Parsed? {
      assert |multiset(h.sortBy(sort.value, found))| == |multiset(found)|;
    }
  }

  /** The result holds exactly the `PageSize` documents that skip and limit leave, whatever the sort. */
  lemma ListResultSize(cfg: DaoConfig, businessId: string, customerId: string, h: Helpers, docs: seq<Document>,
                       filter: TextArg<Query>, sort: TextArg<SortSpec>, skip: int, limit: int)
    requires SortReorders(h)
    ensures var l := ListSpec(cfg, businessId, customerId, h, docs, filter, sort, skip, limit);
            l.summary.resultSize == |l.result| == PageSize(l.summary.filteredSize, skip, limit)
  {
    var found := Matching(docs, Scoped(cfg, businessId, customerId, FilterPairs(filter)));
    var ordered := Ordered(h, sort, found);
    if sort.Parsed? {
      assert |multiset(h.sortBy(sort.value, found))| == |multiset(found)|;
    }
    WindowIsSlice(ordered, skip, limit);
  }

  /** Every listed item is an amended document that is in scope and meets the filter. */
  lemma ListItemsInScope(cfg: DaoConfig, businessId: string, customerId: string, h: Helpers, docs: seq<Document>,
                         filter: TextArg<Query>, sort: TextArg<SortSpec>, skip: int, limit: int)
    requires SortReorders(h)
    ensures var result := ListSpec(cfg, businessId, customerId, h, docs, filter, sort, skip, limit).result;
            forall i :: 0 <= i < |result| ==>
              exists d :: d in docs && InScope(cfg, businessId, customerId, d) && Matches(d, FilterPairs(filter))
                          && result[i] == h.amendForGet(d)
  {
    var q := Scoped(cfg, businessId, customerId, FilterPairs(filter));
    var found := Matching(docs, q);
    var ordered := Ordered(h, sort, found);
    var page := Page(cfg, businessId, customerId, h, docs, filter, sort, skip, limit);
    WindowIsSlice(ordered, skip, limit);
    forall i | 0 <= i < |page|
      ensures page[i] in docs && InScope(cfg, businessId, customerId, page[i]) && Matches(page[i], FilterPairs(filter))
    {
      var start := PageStart(|ordered|, skip);
      assert page[i] == ordered[start + i];
      assert page[i] in multiset(ordered);
      assert page[i] in found;
      ScopedMeaning(cfg, businessId, customerId, FilterPairs(filter), page[i]);
    }
  }

  /** Sort, skip and limit change the page, never the two counts. */
  lemma ListCountsIgnorePaging(cfg: DaoConfig, businessId: string, customerId: string, h: Helpers, docs: seq<Document>,
                               filter: TextArg<Query>, sort1: TextArg<SortSpec>, skip1: int, limit1: int,
                               sort2: TextArg<SortSpec>, skip2: int, limit2: int)
    ensures var s1 := ListSpec(cfg, businessId, customerId, h, docs, filter, sort1, skip1, limit1).summary;
            var s2 := ListSpec(cfg, businessId, customerId, h, docs, filter, sort2, skip2, limit2).summary;
            s1.totalSize == s2.totalSize && s1.filteredSize == s2.filteredSize
  {
  }

  /**
   * Without a usable filter, and when the total keeps the is_deleted
   * condition, the filtered count equals the total count.
   */
  lemma UnfilteredListCountsAgree(cfg: DaoConfig, businessId: string, customerId: string, h: Helpers, docs: seq<Document>,
                                  filter: TextArg<Query>, sort: TextArg<SortSpec>, skip: int, limit: int)
    requires !filter.Parsed? && !cfg.totalIgnoresDeleted
    ensures var s := ListSpec(cfg, businessId, customerId, h, docs, filter, sort, skip, limit).summary;
            s.filteredSize == s.totalSize
  {
    assert Scoped(cfg, businessId, customerId, FilterPairs(filter)) == ScopePairs(cfg, businessId, customerId);
  }

  /** The total counts every owned document, deleted or not, exactly when the DAO says so. */
  lemma {:induction false} TotalCountsOwned(cfg: DaoConfig, businessId: string, customerId: string, docs: seq<Document>)
    ensures forall d :: d in Matching(docs, TotalPairs(cfg, businessId, customerId)) ==> CountedInTotal(cfg, businessId, customerId, d)
    ensures forall d :: d in docs && CountedInTotal(cfg, businessId, customerId, d) ==> d in Matching(docs, TotalPairs(cfg, businessId, customerId))
  {
    forall d | true
      ensures Matches(d, TotalPairs(cfg, businessId, customerId)) <==> CountedInTotal(cfg, businessId, customerId, d)
    {
      TotalMeaning(cfg, businessId, customerId, d);
    }
  }

  // ---- Writes ----

  /** `UpdateOne(q, {$set: patch})`: the first document matching `q` gets the patch merged in. */
  function SetFirst(docs: seq<Document>, q: Query, patch: Document): (r: seq<Document>)
    ensures |r| == |docs|
  {
    match FirstMatch(docs, q)
    case None => docs
    case Some(i) => docs[i := docs[i] + patch]
  }

  /** `$set` changes at most one document, the first that matches, which gains the patch; all others stay as they were. */
  lemma SetFirstMeaning(docs: seq<Document>, q: Query, patch: Document)
    ensures var r := SetFirst(docs, q, patch);
            && (forall k :: 0 <= k < |docs| && r[k] != docs[k] ==>
                  Matches(docs[k], q) && forall j :: 0 <= j < k ==> !Matches(docs[j], q))
            && (forall k :: 0 <= k < |docs| && Matches(docs[k], q) && (forall j :: 0 <= j < k ==> !Matches(docs[j], q)) ==>
                  r[k] == docs[k] + patch)
            && ((forall k :: 0 <= k < |docs| ==> !Matches(docs[k], q)) ==> r == docs)
  {
    var r := SetFirst(docs, q, patch);
    match FirstMatch(docs, q)
    case None =>
    case Some(i) =>
      forall k | 0 <= k < |docs| && Matches(docs[k], q) && (forall j :: 0 <= j < k ==> !Matches(docs[j], q))
        ensures k == i
      {
      }
  }

  /** Index of the first document whose `key` equals `id` ignoring ASCII case (a strength-1 collation on ASCII ids). */
  function FirstIgnoringCase(docs: seq<Document>, key: string, id: string): (r: Option<nat>)
    ensures r.None? <==> forall k :: 0 <= k < |docs| ==> !HoldsIgnoringCase(docs[k], key, id)
    ensures r.Some? ==> r.value < |docs| && HoldsIgnoringCase(docs[r.value], key, id)
    ensures r.Some? ==> forall k :: 0 <= k < r.value ==> !HoldsIgnoringCase(docs[k], key, id)
    decreases |docs|
  {
    if docs == [] then None
    else if HoldsIgnoringCase(docs[0], key, id) then Some(0)
    else
      match FirstIgnoringCase(docs[1..], key, id)
      case None => None
      case Some(k) => Some(k + 1)
  }

  /** `DeleteOne({key: id})` under the ASCII stand-in for a strength-1 collation. */
  function RemoveFirst(docs: seq<Document>, key: string, id: string): seq<Document>
  {
    match FirstIgnoringCase(docs, key, id)
    case None => docs
    case Some(i) => docs[..i] + docs[i + 1..]
  }

  /** A created document can be read back by its id exactly when it lands in the reader's scope (or an older one already is). */
  lemma CreateThenGet(cfg: DaoConfig, businessId: string, customerId: string, h: Helpers, docs: seq<Document>, created: Document, id: string)
    ensures GetSpec(cfg, businessId, customerId, h, docs + [created], id).Ok? <==>
            (exists k :: 0 <= k < |docs| && Readable(cfg, businessId, customerId, docs[k], id)) ||
            Readable(cfg, businessId, customerId, created, id)
    ensures (forall k :: 0 <= k < |docs| ==> !Readable(cfg, businessId, customerId, docs[k], id)) &&
            Readable(cfg, businessId, customerId, created, id) ==>
            GetSpec(cfg, businessId, customerId, h, docs + [created], id) == Ok(h.amendForGet(created))
  {
    var all := docs + [created];
    GetMeaning(cfg, businessId, customerId, h, all, id);
    assert all[|docs|] == created;
    assert forall k :: 0 <= k < |docs| ==> all[k] == docs[k];
    if (forall k :: 0 <= k < |docs| ==> !Readable(cfg, businessId, customerId, docs[k], id)) &&
       Readable(cfg, businessId, customerId, created, id) {
      var r := GetSpec(cfg, businessId, customerId, h, all, id);
      var i :| 0 <= i < |all| && Readable(cfg, businessId, customerId, all[i], id) && r.value == h.amendForGet(all[i]);
      assert i == |docs|;
    }
  }

  /** `Delete` removes at most one document, one whose id equals `id` ignoring case (the order of the others: `RemoveFirstKeepsOrder`). */
  lemma DeleteRemovesAtMostOne(docs: seq<Document>, key: string, id: string)
    ensures var r := RemoveFirst(docs, key, id);
            && |docs| - 1 <= |r| <= |docs|
            && multiset(r) <= multiset(docs)
            && (|r| == |docs| <==> forall k :: 0 <= k < |docs| ==> !HoldsIgnoringCase(docs[k], key, id))
            && (forall d :: d in multiset(docs) - multiset(r) ==> HoldsIgnoringCase(d, key, id))
  {
    var r := RemoveFirst(docs, key, id);
    var f := FirstIgnoringCase(docs, key, id);
    if f.Some? {
      var i := f.value;
      assert docs == docs[..i] + [docs[i]] + docs[i + 1..];
      assert multiset(docs) == multiset(r) + multiset{docs[i]};
    }
  }

  /** The documents `Delete` keeps stay in their stored order: only the first case-insensitive match is cut out. */
  lemma RemoveFirstKeepsOrder(docs: seq<Document>, key: string, id: string)
    ensures var f := FirstIgnoringCase(docs, key, id);
            && (f.None? ==> RemoveFirst(docs, key, id) == docs)
            && (f.Some? ==> RemoveFirst(docs, key, id) == docs[..f.value] + docs[f.value + 1..])
            && (f.Some? ==> forall k :: 0 <= k < |docs| - 1 ==>
                  RemoveFirst(docs, key, id)[k] == if k < f.value then docs[k] else docs[k + 1])
  {
  }
}
