/**
 * The five Mongo DAOs of the sales library, each an instance of the
 * repository template, with the properties their source promises.
 */
module SalesDaos {
  import opened Wrappers
  import opened Bson
  import opened Errors
  import opened Library
  import opened Repository

  const FLD_CART_ID: string := "cart_id"
  const FLD_DISCOUNT_ID: string := "discount_id"
  const FLD_QUIZ_ID: string := "quiz_id"
  const FLD_DEALER_ID: string := "dealer_id"

  /** CustomerCartMongoDBDao: customer_id is appended only when the DAO has one. */
  const CUSTOMER_CARTS: DaoConfig := DaoConfig("sales_customer_carts", FLD_CART_ID, CustomerWhenSet, false)

  /** CartMongoDBDao: customer_id is always appended; the total leaves is_deleted out. */
  const CART: DaoConfig := DaoConfig("sales_cart", FLD_CART_ID, CustomerAlways, true)

  /** DiscountMongoDBDao: business scope only. */
  const DISCOUNTS: DaoConfig := DaoConfig("sales_discounts", FLD_DISCOUNT_ID, BusinessOnly, false)

  /** CallbackMongoDBDao: business scope only, keyed by the quiz id field. */
  const CALLBACKS: DaoConfig := DaoConfig("sales_callbacks", FLD_QUIZ_ID, BusinessOnly, false)

  /** DealerMongoDBDao: business scope only. */
  const DEALERS: DaoConfig := DaoConfig("sales_dealers", FLD_DEALER_ID, BusinessOnly, false)

  // ---- Customer carts ----

  /** The list query is the caller's filter, then business and is_deleted, then customer_id when the DAO has one. */
  lemma CustomerCartsListQuery(businessId: string, customerId: string, filter: TextArg<Query>, d: Document)
    ensures Scoped(CUSTOMER_CARTS, businessId, customerId, FilterPairs(filter)) ==
            FilterPairs(filter) + [Eq("business_id", Str(businessId)), Eq("is_deleted", Bool(false))]
              + (if customerId == "" then [] else [Eq("customer_id", Str(customerId))])
    ensures Matches(d, Scoped(CUSTOMER_CARTS, businessId, customerId, FilterPairs(filter))) <==>
            && Matches(d, FilterPairs(filter))
            && "business_id" in d && d["business_id"] == Str(businessId)
            && "is_deleted" in d && d["is_deleted"] == Bool(false)
            && (customerId == "" || ("customer_id" in d && d["customer_id"] == Str(customerId)))
  {
    ScopedMeaning(CUSTOMER_CARTS, businessId, customerId, FilterPairs(filter), d);
  }

  /** An unusable filter or sort still lists: every in-scope cart is counted, and filtered equals total. */
  lemma CustomerCartsUnusableArguments(businessId: string, customerId: string, h: Helpers, docs: seq<Document>,
                                       filter: TextArg<Query>, sort: TextArg<SortSpec>, skip: int, limit: int)
    requires !filter.Parsed?
    requires SortReorders(h)
    ensures var l := ListSpec(CUSTOMER_CARTS, businessId, customerId, h, docs, filter, sort, skip, limit);
            && l.summary.filteredSize == l.summary.totalSize
            && l.summary.resultSize == PageSize(l.summary.totalSize, skip, limit)
    ensures !sort.Parsed? ==>
            ListSpec(CUSTOMER_CARTS, businessId, customerId, h, docs, filter, sort, skip, limit).result ==
            AmendAll(h, Window(Matching(docs, ScopePairs(CUSTOMER_CARTS, businessId, customerId)), skip, limit))
  {
    UnfilteredListCountsAgree(CUSTOMER_CARTS, businessId, customerId, h, docs, filter, sort, skip, limit);
    ListResultSize(CUSTOMER_CARTS, businessId, customerId, h, docs, filter, sort, skip, limit);
    assert Scoped(CUSTOMER_CARTS, businessId, customerId, FilterPairs(filter)) == ScopePairs(CUSTOMER_CARTS, businessId, customerId);
  }

  // ---- Cart ----

  /** Get reads a cart only when business_id and customer_id both equal the DAO's, even an empty customer id. */
  lemma CartGetScope(businessId: string, customerId: string, id: string, d: Document)
    ensures Readable(CART, businessId, customerId, d, id) <==>
            && "cart_id" in d && d["cart_id"] == Str(id)
            && "business_id" in d && d["business_id"] == Str(businessId)
            && "customer_id" in d && d["customer_id"] == Str(customerId)
            && "is_deleted" in d && d["is_deleted"] == Bool(false)
  {
  }

  /** The cart total counts a soft-deleted cart that neither the filtered count nor the page shows (an instance of `TotalCountsOwned`). */
  lemma CartTotalCountsDeleted(businessId: string, customerId: string, h: Helpers)
    ensures var deleted: Document := map["business_id" := Str(businessId), "customer_id" := Str(customerId), "is_deleted" := Bool(true)];
            ListSpec(CART, businessId, customerId, h, [deleted], Absent, Absent, 0, 0).summary == Summary(1, 0, 0)
  {
    var deleted: Document := map["business_id" := Str(businessId), "customer_id" := Str(customerId), "is_deleted" := Bool(true)];
    TotalMeaning(CART, businessId, customerId, deleted);
    ScopedMeaning(CART, businessId, customerId, [], deleted);
    assert Matching([deleted][1..], TotalPairs(CART, businessId, customerId)) == [];
  }

  /** A created cart reads back exactly when its business and customer are the DAO's (and it is not flagged deleted). */
  lemma CartCreateThenGet(businessId: string, customerId: string, h: Helpers, docs: seq<Document>, created: Document, id: string)
    requires forall k :: 0 <= k < |docs| ==> !Readable(CART, businessId, customerId, docs[k], id)
    requires "cart_id" in created && created["cart_id"] == Str(id)
    requires "is_deleted" in created && created["is_deleted"] == Bool(false)
    ensures GetSpec(CART, businessId, customerId, h, docs + [created], id).Ok? <==>
            && "business_id" in created && created["business_id"] == Str(businessId)
            && "customer_id" in created && created["customer_id"] == Str(customerId)
  {
    CreateThenGet(CART, businessId, customerId, h, docs, created, id);
  }

  // ---- Discounts ----

  /** Get by discount_id sees only the business's live discounts, whatever their customer_id. */
  lemma DiscountsGetScope(businessId: string, customerId: string, h: Helpers, docs: seq<Document>, id: string)
    ensures var r := GetSpec(DISCOUNTS, businessId, customerId, h, docs, id);
            && (r.Err? ==> r.error == NoDocuments)
            && (r.Ok? <==> exists k :: 0 <= k < |docs| && "discount_id" in docs[k] && docs[k]["discount_id"] == Str(id)
                                     && "business_id" in docs[k] && docs[k]["business_id"] == Str(businessId)
                                     && IsActive(docs[k]))
  {
    GetMeaning(DISCOUNTS, businessId, customerId, h, docs, id);
  }

  /** Skip and limit move the page only: the counts stay those of the unpaged query. */
  lemma DiscountsPagingKeepsCounts(businessId: string, h: Helpers, docs: seq<Document>, filter: TextArg<Query>,
                                   sort: TextArg<SortSpec>, skip: int, limit: int)
    requires SortReorders(h)
    ensures var paged := ListSpec(DISCOUNTS, businessId, "", h, docs, filter, sort, skip, limit);
            var whole := ListSpec(DISCOUNTS, businessId, "", h, docs, filter, sort, 0, 0);
            && paged.summary.totalSize == whole.summary.totalSize
            && paged.summary.filteredSize == whole.summary.filteredSize == whole.summary.resultSize
            && paged.summary.resultSize <= paged.summary.filteredSize <= paged.summary.totalSize
  {
    ListResultSize(DISCOUNTS, businessId, "", h, docs, filter, sort, 0, 0);
    ListCountsOrdered(DISCOUNTS, businessId, "", h, docs, filter, sort, skip, limit);
  }

  /** Delete matches discount_id ignoring case: a stored "ABC" goes when "abc" is deleted (an instance of `DeleteRemovesAtMostOne`). */
  lemma DiscountsDeleteIgnoresCase()
    ensures var stored: Document := map["discount_id" := Str("ABC")];
            RemoveFirst([stored], DISCOUNTS.idKey, "abc") == []
  {
    var stored: Document := map["discount_id" := Str("ABC")];
    assert Lower("ABC") == "abc";
    assert Lower("abc") == "abc";
    assert HoldsIgnoringCase(stored, DISCOUNTS.idKey, "abc");
  }

  // ---- Callbacks ----

  /** Every operation keys on quiz_id, so a created callback reads back under the quiz id it carries. */
  lemma CallbackCreateRoundTrip(businessId: string, h: Helpers, docs: seq<Document>, indata: Document, id: string)
    requires var created := h.amendForCreate(indata);
             "quiz_id" in created && created["quiz_id"] == Str(id)
             && "business_id" in created && created["business_id"] == Str(businessId)
             && IsActive(created)
    requires forall k :: 0 <= k < |docs| ==> !Readable(CALLBACKS, businessId, "", docs[k], id)
    ensures GetSpec(CALLBACKS, businessId, "", h, docs + [h.amendForCreate(indata)], id) == Ok(h.amendForGet(h.amendForCreate(indata)))
  {
    CreateThenGet(CALLBACKS, businessId, "", h, docs, h.amendForCreate(indata), id);
  }

  /** Update's write reaches a callback of another business, which the follow-up Get then does not see (an instance of `Dao.Update` and `SetFirstMeaning`). */
  lemma CallbackUpdateIsNotScoped(h: Helpers)
    ensures var foreign: Document := map["quiz_id" := Str("q1"), "business_id" := Str("other"), "is_deleted" := Bool(false)];
            var patch: Document := map["title" := Str("changed")];
            && SetFirst([foreign], IdQuery(CALLBACKS, "q1"), patch) == [foreign + patch]
            && GetSpec(CALLBACKS, "mine", "", h, [foreign + patch], "q1") == Err(NoDocuments)
  {
    var foreign: Document := map["quiz_id" := Str("q1"), "business_id" := Str("other"), "is_deleted" := Bool(false)];
    var patch: Document := map["title" := Str("changed")];
    assert Matches(foreign, IdQuery(CALLBACKS, "q1")) by {
      assert Holds(foreign, IdQuery(CALLBACKS, "q1")[0]);
    }
    IdQueryMeaning(CALLBACKS, "mine", "", "q1", foreign + patch);
  }

  // ---- Dealers ----

  /** Find ANDs the caller's filter with the business scope and the live flag. */
  lemma DealersFindScope(businessId: string, h: Helpers, docs: seq<Document>, filter: TextArg<Query>)
    ensures var r := FindSpec(DEALERS, businessId, "", h, docs, filter);
            r.Ok? <==> exists k :: 0 <= k < |docs| && Matches(docs[k], FilterPairs(filter))
                                   && "business_id" in docs[k] && docs[k]["business_id"] == Str(businessId)
                                   && IsActive(docs[k])
  {
    FindMeaning(DEALERS, businessId, "", h, docs, filter);
  }

  /** The total and filtered counts list the business's live dealers, the filtered ones meeting the filter too. */
  lemma DealersCounts(businessId: string, h: Helpers, docs: seq<Document>, filter: TextArg<Query>,
                      sort: TextArg<SortSpec>, skip: int, limit: int)
    requires SortReorders(h)
    ensures var s := ListSpec(DEALERS, businessId, "", h, docs, filter, sort, skip, limit).summary;
            && s.resultSize <= s.filteredSize <= s.totalSize
            && s.totalSize == |Matching(docs, [Eq("business_id", Str(businessId)), Eq("is_deleted", Bool(false))])|
  {
    ListCountsOrdered(DEALERS, businessId, "", h, docs, filter, sort, skip, limit);
  }

  /** Delete removes at most one dealer, one whose dealer_id equals the argument ignoring case. */
  lemma DealersDeleteAtMostOne(docs: seq<Document>, id: string)
    ensures var r := RemoveFirst(docs, DEALERS.idKey, id);
            && |docs| - |r| <= 1
            && (forall d: Document :: d in multiset(docs) - multiset(r) ==> "dealer_id" in d && d["dealer_id"].Str? && Lower(d["dealer_id"].s) == Lower(id))
  {
    DeleteRemovesAtMostOne(docs, DEALERS.idKey, id);
  }
}
