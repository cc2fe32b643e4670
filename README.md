# golib-sales, modelled in Dafny

The sales library stores tenant-scoped records in MongoDB. It has two layers.

- **Mongo DAOs.** Each `*MongoDBDao` holds a business id, and for some entities a customer id. It offers `List`, `Get`, `Find`, `Create`, `Update` and `Delete` on one collection.
- **Services.** Each `New*Service(props)` checks that the ids are present, builds its DAOs, then checks the ids against the business and customer lookups. Its `Create` writes the scope fields and the id into the caller's map before it delegates to the DAO. In five services (customer reviews, customer wishlists, customer type, compare products and cart) `Update` also deletes keys from the caller's map; the other ten pass it through unchanged. A soft `Delete` builds its own `{is_deleted: true}` map and calls `Update`.

Every DAO and every service follows one template and differs only in configuration. The model therefore has one generic DAO class and one generic service class, each parameterised by a configuration value. Each source file becomes one such value plus lemmas that instantiate the generic properties.

Modules:

- `Wrappers` holds `Option` and `Result`.
- `Errors` holds the error values and `Io`, an explicit success-or-failure argument that stands for each driver call.
- `Bson` holds documents as maps from field names to values, and queries as sequences of equality pairs. It also holds matching, `FindOne`, skip and limit, and ASCII lower-casing.
- `Library` holds the helpers the source imports but does not show: `AmendFldsforCreate`, `AmendFldsforUpdate`, `AmendFldsForGet`, `GenerateUniqueId` and the driver's sort order. They are function fields of a `Helpers` value, so no property depends on what they do beyond the predicates a lemma states it needs.
- `Repository` holds the DAO template as functions: the query each operation builds, the read and list specifications, and the store edits of `$set` and of `DeleteOne` under a strength-1 collation.
- `MongoDao` holds the in-memory database (`Database`, a class whose collections the DAO methods reassign) and the `Dao` class. The `Dao` methods are proved against the `Repository` functions.
- `SalesDaos` holds the five DAO configurations and their properties.
- `Services` holds the service template. It has the construction gate (`Gate`, `NewService`), the caller's map as a mutable `Record`, and the `Service` class.
- `SalesServices` holds the fifteen service configurations. For each one it states the closed form of its construction gate and the exact edits Create and Update make to the caller's map.

## Model

| member | source | states |
|---|---|---|
| Bson.MatchesAppend | sales_repository/mongodb_repository/customer_mongodb_repository/mongo_customer_carts_dao.go:77-84 | A document matches a query built by appending conditions exactly when it matches both parts. |
| Bson.MatchesSingle | sales_repository/mongodb_repository/customer_mongodb_repository/mongo_customer_carts_dao.go:259-263 | A one-pair filter such as `{cart_id: id}` matches a document exactly when that pair holds. |
| Bson.ImpliesMatches | sales_repository/mongodb_repository/customer_mongodb_repository/mongo_customer_carts_dao.go:112-123 | A document meeting every pair of a query also meets any query whose pairs all occur in it (the base filter is part of the full filter). |
| Bson.Matching | sales_repository/mongodb_repository/customer_mongodb_repository/mongo_customer_carts_dao.go:107-110 | `CountDocuments`: every counted document matches, every matching document is counted, and the matches are a sub-multiset of the collection. |
| Bson.MatchingFewer | sales_repository/mongodb_repository/customer_mongodb_repository/mongo_customer_carts_dao.go:120-123 | A query with fewer conditions matches at least as many documents, so a base-filter count bounds the full-filter count. |
| Bson.MatchingSameConditions | sales_repository/mongodb_repository/customer_mongodb_repository/mongo_customer_carts_dao.go:87-96 | Two queries with the same pairs in any order select the same documents. |
| Bson.FirstMatch | sales_repository/mongodb_repository/customer_mongodb_repository/mongo_customer_carts_dao.go:159-163 | `FindOne`: none exactly when no document matches; otherwise the index of a matching document with no match before it. |
| Bson.Window | sales_repository/mongodb_repository/customer_mongodb_repository/mongo_customer_carts_dao.go:68-76 | The page never has more elements than the input; which slice it is, with skip and limit applied only when positive, is stated by `Bson.WindowIsSlice`. |
| Bson.WindowIsSlice | sales_repository/mongodb_repository/customer_mongodb_repository/mongo_customer_carts_dao.go:68-76 | The page is the contiguous slice starting at the effective skip, of length `PageSize`. |
| Bson.LowerChar | sales_services/customer_services/customer_reviews_service.go:143-149 | ASCII lower-casing of one character, standing for `strings.ToLower` on ASCII ids: A-Z goes to a-z and every other character is kept. |
| Bson.Lower | sales_services/customer_services/customer_reviews_service.go:143-149 | ASCII lower-casing of an id, standing for `strings.ToLower` on ASCII ids: it keeps the length and maps each character by `LowerChar`. |
| Bson.LowerMakesLowerCase | sales_services/customer_services/customer_reviews_service.go:143-149 | An ASCII-lower-cased id has no letter A-Z and lower-casing it again changes nothing. |
| Bson.HoldsImpliesIgnoringCase | sales_repository/mongodb_repository/customer_mongodb_repository/mongo_customer_carts_dao.go:280-284 | An exact id match is also a match under the ASCII case-insensitive comparison that stands for Delete's strength-1 collation. |
| Repository.Without | sales_repository/mongodb_repository/mongo_cart_dao.go:110-113 | Dropping a key from a query keeps exactly the pairs on other keys (the cart total lacks `is_deleted`). |
| Repository.MatchesByMembership | sales_repository/mongodb_repository/customer_mongodb_repository/mongo_customer_carts_dao.go:77-84 | Matching a query is the same as meeting each of its pairs. |
| Repository.ScopeMeaning | sales_repository/mongodb_repository/customer_mongodb_repository/mongo_customer_carts_dao.go:77-84 | The appended scope pairs match exactly the documents owned by the DAO's business (and customer when its scope says so) that are not soft-deleted. |
| Repository.TotalMeaning | sales_repository/mongodb_repository/customer_mongodb_repository/mongo_customer_carts_dao.go:112-119 | The total's base filter matches exactly the owned documents, deleted ones too when the DAO leaves `is_deleted` out of it. |
| Repository.MatchingSameConditionsDoc | sales_repository/mongodb_repository/customer_mongodb_repository/mongo_customer_carts_dao.go:87-96 | Queries with the same pairs agree on every document. |
| Repository.ScopedMeaning | sales_repository/mongodb_repository/customer_mongodb_repository/mongo_customer_carts_dao.go:77-84 | The list and find query matches exactly the documents that meet the caller's pairs and are in scope. |
| Repository.IdQueryMeaning | sales_repository/mongodb_repository/customer_mongodb_repository/mongo_customer_carts_dao.go:147-156 | The Get query matches exactly the in-scope, live documents whose id field equals the argument. |
| Repository.GetMeaning | sales_repository/mongodb_repository/customer_mongodb_repository/mongo_customer_carts_dao.go:138-175 | Get fails exactly when no readable document has the id, and then only with the driver's no-documents error; otherwise it returns the first readable one, amended. |
| Repository.FindMeaning | sales_repository/mongodb_repository/customer_mongodb_repository/mongo_customer_carts_dao.go:178-218 | Find fails exactly when no in-scope document meets the filter, and then only with no-documents; otherwise the result is the first such document, amended. |
| Repository.MalformedFilterIsNoFilter | sales_repository/mongodb_repository/customer_mongodb_repository/mongo_customer_carts_dao.go:48-56 | A filter string that fails to parse behaves like no filter, which behaves like an empty one. |
| Repository.AmendAll | sales_repository/mongodb_repository/customer_mongodb_repository/mongo_customer_carts_dao.go:98-104 | Each listed item is `AmendFldsForGet` of the document at the same position. |
| Repository.ScopedImpliesTotal | sales_repository/mongodb_repository/customer_mongodb_repository/mongo_customer_carts_dao.go:112-123 | Every pair of the total's base filter occurs in the full list filter. |
| Repository.ListCountsOrdered | sales_repository/mongodb_repository/customer_mongodb_repository/mongo_customer_carts_dao.go:107-129 | result size <= filtered size <= total size, for every filter, sort, skip and limit. |
| Repository.ListResultSize | sales_repository/mongodb_repository/customer_mongodb_repository/mongo_customer_carts_dao.go:98-129 | The result size equals the number of returned items, which is the page size the skip and limit leave of the filtered matches. |
| Repository.ListItemsInScope | sales_repository/mongodb_repository/customer_mongodb_repository/mongo_customer_carts_dao.go:87-104 | Every returned item is the amended form of a stored document that is in scope and meets the filter. |
| Repository.ListCountsIgnorePaging | sales_repository/mongodb_repository/customer_mongodb_repository/mongo_customer_carts_dao.go:68-123 | Sort, skip and limit never change the total or the filtered count. |
| Repository.UnfilteredListCountsAgree | sales_repository/mongodb_repository/customer_mongodb_repository/mongo_customer_carts_dao.go:107-123 | With no usable filter and a total that keeps `is_deleted`, the filtered count equals the total count. |
| Repository.TotalCountsOwned | sales_repository/mongodb_repository/mongo_cart_dao.go:105-113 | The total counts exactly the owned documents, soft-deleted ones included when the DAO drops `is_deleted` from the total. |
| Repository.SetFirst | sales_repository/mongodb_repository/customer_mongodb_repository/mongo_customer_carts_dao.go:259-263 | `UpdateOne` with `$set` keeps the number of documents. |
| Repository.SetFirstMeaning | sales_repository/mongodb_repository/customer_mongodb_repository/mongo_customer_carts_dao.go:259-263 | `$set` changes only the first document matching the id, which gains the patch; nothing changes when no document matches. |
| Repository.FirstIgnoringCase | sales_repository/mongodb_repository/customer_mongodb_repository/mongo_customer_carts_dao.go:280-291 | The first index whose id equals the argument ignoring ASCII case (standing for the strength-1 collation), or none exactly when no document does. |
| Repository.CreateThenGet | sales_repository/mongodb_repository/customer_mongodb_repository/mongo_customer_carts_dao.go:231-242 | Reading a new id back succeeds exactly when the created document (or an older one) is readable; when only the created one is, the result is that document amended. |
| Repository.DeleteRemovesAtMostOne | sales_repository/mongodb_repository/customer_mongodb_repository/mongo_customer_carts_dao.go:280-293 | DeleteOne removes at most one document, one whose id matches ignoring case; the size drops exactly when some document matches. |
| Repository.RemoveFirstKeepsOrder | sales_repository/mongodb_repository/customer_mongodb_repository/mongo_customer_carts_dao.go:280-293 | Only the first case-insensitive match is removed; the other documents keep their stored order. |
| MongoDao.Dao.InitializeDao | sales_repository/mongodb_repository/customer_mongodb_repository/mongo_customer_carts_dao.go:26-31 | The DAO keeps the given client, business id and customer id. |
| MongoDao.Dao.List | sales_repository/mongodb_repository/customer_mongodb_repository/mongo_customer_carts_dao.go:34-135 | A driver failure is returned as the error; otherwise the loop builds the amended page and the response is `ListSpec` of the stored collection. |
| MongoDao.Dao.Get | sales_repository/mongodb_repository/customer_mongodb_repository/mongo_customer_carts_dao.go:138-175 | Get returns `GetSpec` of the stored collection and changes nothing. |
| MongoDao.Dao.Find | sales_repository/mongodb_repository/customer_mongodb_repository/mongo_customer_carts_dao.go:178-218 | Find returns `FindSpec` of the stored collection and changes nothing. |
| MongoDao.Dao.Create | sales_repository/mongodb_repository/customer_mongodb_repository/mongo_customer_carts_dao.go:221-243 | An insert failure leaves the store unchanged and returns the error; otherwise the amended record is appended and the result is Get of its id. |
| MongoDao.Dao.Update | sales_repository/mongodb_repository/customer_mongodb_repository/mongo_customer_carts_dao.go:246-268 | On success the amended input is merged into the first document with the id, with no tenant filter, and the result is Get of the id. |
| MongoDao.Dao.Delete | sales_repository/mongodb_repository/customer_mongodb_repository/mongo_customer_carts_dao.go:271-294 | On failure 0 and the error with the store unchanged; otherwise the first case-insensitive id match is removed and the count (0 or 1) is the size drop. |
| SalesDaos.CustomerCartsListQuery | sales_repository/mongodb_repository/customer_mongodb_repository/mongo_customer_carts_dao.go:77-84 | The customer-cart list query is the caller's pairs, then business and `is_deleted = false`, then `customer_id` only when the DAO has one. |
| SalesDaos.CustomerCartsUnusableArguments | sales_repository/mongodb_repository/customer_mongodb_repository/mongo_customer_carts_dao.go:48-66 | An absent or malformed filter still lists: filtered equals total, and with no sort the page is the scope matches in stored order. |
| SalesDaos.CartGetScope | sales_repository/mongodb_repository/mongo_cart_dao.go:140-145 | A cart is readable only when `business_id` and `customer_id` both equal the DAO's, even an empty customer id. |
| SalesDaos.CartTotalCountsDeleted | sales_repository/mongodb_repository/mongo_cart_dao.go:105-113 | A soft-deleted cart of the customer gives the summary (total 1, filtered 0, result 0). |
| SalesDaos.CartCreateThenGet | sales_repository/mongodb_repository/mongo_cart_dao.go:216-227 | A live new cart reads back exactly when its business and customer are the DAO's. |
| SalesDaos.DiscountsGetScope | sales_repository/mongodb_repository/mongo_discounts_dao.go:135-146 | Get by `discount_id` succeeds exactly when a live discount of the business has that id, and fails only with no-documents. |
| SalesDaos.DiscountsPagingKeepsCounts | sales_repository/mongodb_repository/mongo_discounts_dao.go:66-108 | Skip and limit leave both counts as for the unpaged list, and the counts stay ordered. |
| SalesDaos.DiscountsDeleteIgnoresCase | sales_repository/mongodb_repository/mongo_discounts_dao.go:258-271 | Deleting `abc` removes a stored discount with id `ABC`. |
| SalesDaos.CallbackCreateRoundTrip | sales_repository/mongodb_repository/mongo_callback_dao.go:199-221 | A live callback created in the business reads back under its quiz id as the amended stored record. |
| SalesDaos.CallbackUpdateIsNotScoped | sales_repository/mongodb_repository/mongo_callback_dao.go:237-245 | Update's write reaches another business's callback, and the follow-up Get then reports no documents. |
| SalesDaos.DealersFindScope | sales_repository/mongodb_repository/mongo_dealers_dao.go:172-186 | Find succeeds exactly when a live dealer of the business meets the filter. |
| SalesDaos.DealersCounts | sales_repository/mongodb_repository/mongo_dealers_dao.go:102-119 | The dealer counts are ordered, and the total counts the business's live dealers. |
| SalesDaos.DealersDeleteAtMostOne | sales_repository/mongodb_repository/mongo_dealers_dao.go:260-273 | Delete removes at most one dealer, one whose `dealer_id` equals the argument ignoring case. |
| Services.GateAccepts | sales_services/customer_services/customer_reviews_service.go:47-90 | A service is built exactly when the databases open, the required ids are present, the business is known and the customer is known whenever it is checked; the ids kept are the given ones. |
| Services.GateLeavesOpen | sales_services/compareprods_service.go:45-85 | A rejection leaves the database open exactly when the service does not close it on failure; the region store is never left open alone. |
| Services.CreateFieldsMeaning | sales_services/customer_services/customer_reviews_service.go:138-163 | Create writes the business id, the customer id where the service sets it and the id; every other key keeps its value; a supplied id is lower-cased and a missing one is the generated id. |
| Services.Service.InitializeService | sales_services/customer_services/customer_reviews_service.go:98-103 | The service's DAO is new, on the given database, with the service's ids. |
| Services.Service.EndService | sales_services/compareprods_service.go:88-92 | The main database is closed, and the region database too for a service that has one. |
| Services.Service.List | sales_services/customer_services/customer_reviews_service.go:106-117 | The service list is the DAO list. |
| Services.Service.Get | sales_services/customer_services/customer_reviews_service.go:120-127 | The service Get is the DAO Get. |
| Services.Service.Find | sales_services/customer_services/customer_reviews_service.go:129-135 | The service Find is the DAO Find. |
| Services.Service.Create | sales_services/customer_services/customer_reviews_service.go:138-163 | The caller's map becomes `CreateFields` of its old value, the DAO appends its amended form, and the result is Get of the new id. |
| Services.Service.Update | sales_services/customer_services/customer_reviews_service.go:166-179 | The caller's map loses the stripped keys, the rest is merged into the record with the id, and the result is Get of the id. |
| Services.Service.Delete | sales_services/customer_services/customer_reviews_service.go:182-203 | A permanent delete removes through the DAO; any other writes `is_deleted: true` through Update; the reply is as the source computes it. |
| Services.Service.DeleteIntended | sales_services/customer_services/customer_reviews_service.go:182-203 | The same store effect as Delete, with success reported whenever the write succeeds. |
| Services.NewService | sales_services/customer_services/customer_reviews_service.go:47-90 | The constructor returns a service exactly when `Gate` accepts, with the accepted ids; otherwise the verdict's error and the open databases it leaves. |
| Services.StrippedKeysSurviveUpdate | sales_services/customer_services/customer_reviews_service.go:166-179 | A key Update strips keeps its stored value in every document. |
| Services.SoftDeleteHides | sales_services/customer_services/customer_reviews_service.go:182-203 | After a soft delete of an id no other record carries, Get of that id reports no documents. |
| Services.SoftDeleteReportsNoDocuments | sales_services/customer_services/customer_reviews_service.go:182-203 | As written, a successful soft delete of such a record returns the no-documents error. |
| Services.SoftDeleteIntendedSucceeds | sales_services/customer_services/customer_reviews_service.go:182-203 | As intended, the soft delete reports success, hides the record and leaves the others unchanged. |
| SalesServices.CustomerReviewsGate | sales_services/customer_services/customer_reviews_service.go:47-90 | The constructor's verdict in closed form: business_id is required and must be known; customer_id is optional and checked only when non-empty; a failure closes the database. |
| SalesServices.CustomerReviewsRecordEdits | sales_services/customer_services/customer_reviews_service.go:138-179 | The exact map Create hands on and the exact map Update forwards: Create overwrites business_id, customer_id, review_id and keeps every other key; a supplied review_id is lower-cased, a missing one is a unique id with prefix "reviw"; Update deletes business_id, customer_id, review_id from its input. |
| SalesServices.CustomerWishlistsGate | sales_services/customer_services/customer_wishlists_service.go:47-90 | The constructor's verdict in closed form: business_id is required and must be known; customer_id is optional and checked only when non-empty; a failure leaves the database open. |
| SalesServices.CustomerWishlistsRecordEdits | sales_services/customer_services/customer_wishlists_service.go:138-179 | The exact map Create hands on and the exact map Update forwards: Create overwrites business_id, customer_id, wishlist_id and keeps every other key; a supplied wishlist_id is lower-cased, a missing one is a unique id with prefix "wish"; Update deletes business_id, customer_id, wishlist_id from its input. |
| SalesServices.CustomerTypeGate | sales_services/customer_services/customer_type_service.go:46-89 | The constructor's verdict in closed form: business_id and customer_id are both required and both must be known; a failure closes the database. |
| SalesServices.CustomerTypeRecordEdits | sales_services/customer_services/customer_type_service.go:137-177 | The exact map Create hands on and the exact map Update forwards: Create overwrites business_id, customer_type_id and keeps every other key; a supplied customer_type_id is lower-cased, a missing one is a unique id with prefix "crt"; Update deletes business_id, customer_id, customer_type_id from its input. |
| SalesServices.CustomerOrderGate | sales_services/customer_services/customer_order_service.go:46-88 | The constructor's verdict in closed form: business_id and customer_id are both required and both must be known; a failure leaves the database open. |
| SalesServices.CustomerOrderRecordEdits | sales_services/customer_services/customer_order_service.go:135-170 | The exact map Create hands on and the exact map Update forwards: Create overwrites business_id, customer_order_id and keeps every other key; a supplied customer_order_id is lower-cased, a missing one is a unique id with prefix "c_order"; Update passes its input through unchanged. |
| SalesServices.CompareProdsGate | sales_services/compareprods_service.go:45-85 | The constructor's verdict in closed form: The business id is read before anything opens; a failed region open closes the main store; an unknown business closes both. |
| SalesServices.CompareProdsRecordEdits | sales_services/compareprods_service.go:133-171 | The exact map Create hands on and the exact map Update forwards: Create overwrites business_id and keeps every other key; no id is assigned; Update deletes material_type_id from its input. |
| SalesServices.CartGate | sales_services/cart_service.go:45-88 | The constructor's verdict in closed form: business_id and customer_id are both required and both must be known; a failure leaves the database open. |
| SalesServices.CartRecordEdits | sales_services/cart_service.go:136-177 | The exact map Create hands on and the exact map Update forwards: Create overwrites business_id, customer_id, cart_id and keeps every other key; a supplied cart_id is lower-cased, a missing one is a unique id with prefix "crt"; Update deletes business_id, customer_id, cart_id from its input. |
| SalesServices.SalesOrderGate | sales_services/customer_order_service.go:42-70 | The constructor's verdict in closed form: business_id must be given and known; a failure leaves the database open. |
| SalesServices.SalesOrderRecordEdits | sales_services/customer_order_service.go:117-152 | The exact map Create hands on and the exact map Update forwards: Create overwrites business_id, customer_order_id and keeps every other key; a supplied customer_order_id is lower-cased, a missing one is a unique id with prefix "c_order"; Update passes its input through unchanged. |
| SalesServices.PoliciesGate | sales_services/policies_service.go:44-75 | The constructor's verdict in closed form: business_id must be given and known; a failure leaves the database open. |
| SalesServices.PoliciesRecordEdits | sales_services/policies_service.go:122-157 | The exact map Create hands on and the exact map Update forwards: Create overwrites business_id, policies_id and keeps every other key; a supplied policies_id is lower-cased, a missing one is a unique id with prefix "pol"; Update passes its input through unchanged. |
| SalesServices.NavigationGate | sales_services/navigation_service.go:42-70 | The constructor's verdict in closed form: business_id must be given and known; a failure leaves the database open. |
| SalesServices.NavigationRecordEdits | sales_services/navigation_service.go:117-152 | The exact map Create hands on and the exact map Update forwards: Create overwrites business_id, navigation_id and keeps every other key; a supplied navigation_id is lower-cased, a missing one is a unique id with prefix "nav"; Update passes its input through unchanged. |
| SalesServices.ProductGate | sales_services/product_service.go:44-75 | The constructor's verdict in closed form: business_id must be given and known; a failure leaves the database open. |
| SalesServices.ProductRecordEdits | sales_services/product_service.go:122-157 | The exact map Create hands on and the exact map Update forwards: Create overwrites business_id, product_id and keeps every other key; a supplied product_id is lower-cased, a missing one is a unique id with prefix "prod"; Update passes its input through unchanged. |
| SalesServices.WishlistGate | sales_services/wishlist_service.go:43-71 | The constructor's verdict in closed form: business_id must be given and known; a failure leaves the database open. |
| SalesServices.WishlistRecordEdits | sales_services/wishlist_service.go:118-153 | The exact map Create hands on and the exact map Update forwards: Create overwrites business_id, wishlist_id and keeps every other key; a supplied wishlist_id is lower-cased, a missing one is a unique id with prefix "wish"; Update passes its input through unchanged. |
| SalesServices.AboutUsGate | sales_services/aboutus_service.go:43-71 | The constructor's verdict in closed form: business_id must be given and known; a failure leaves the database open. |
| SalesServices.AboutUsRecordEdits | sales_services/aboutus_service.go:118-153 | The exact map Create hands on and the exact map Update forwards: Create overwrites business_id, brand_id and keeps every other key; a supplied brand_id is lower-cased, a missing one is a unique id with prefix "abtus"; Update passes its input through unchanged. |
| SalesServices.ReviewGate | sales_services/review_service.go:43-71 | The constructor's verdict in closed form: business_id must be given and known; a failure leaves the database open. |
| SalesServices.ReviewRecordEdits | sales_services/review_service.go:118-153 | The exact map Create hands on and the exact map Update forwards: Create overwrites business_id, review_id and keeps every other key; a supplied review_id is lower-cased, a missing one is a unique id with prefix "rev"; Update passes its input through unchanged. |
| SalesServices.MediaGate | sales_services/media_service.go:43-71 | The constructor's verdict in closed form: business_id must be given and known; a failure leaves the database open. |
| SalesServices.MediaRecordEdits | sales_services/media_service.go:118-153 | The exact map Create hands on and the exact map Update forwards: Create overwrites business_id, media_id and keeps every other key; a supplied media_id is lower-cased, a missing one is a unique id with prefix "media"; Update passes its input through unchanged. |
| SalesServices.BrandGate | sales_services/brands_service.go:43-71 | The constructor's verdict in closed form: business_id must be given and known; a failure leaves the database open. |
| SalesServices.BrandRecordEdits | sales_services/brands_service.go:118-153 | The exact map Create hands on and the exact map Update forwards: Create overwrites business_id, brand_id and keeps every other key; a supplied brand_id is lower-cased, a missing one is a unique id with prefix "brnd"; Update passes its input through unchanged. |
| SalesServices.CustomerOrderAsWrittenNeverBuilds | sales_services/customer_services/customer_order_service.go:72-100 | As written (`CustomerOrderGateAsWritten`: the intended checks up to the business lookup, then the panic of Get on the unassigned customer DAO) the service is never built; with the database open it panics exactly when both ids are given and the business is known, and its rejections are the intended ones. |
| SalesServices.CustomerOrderNilCustomerDao | sales_services/customer_services/customer_order_service.go:78-83 | Concrete ids that are both known: as written the constructor panics, as intended it accepts them. |
| SalesServices.CustomerOrderIntendedAccepts | sales_services/customer_services/customer_order_service.go:46-88 | As intended the service is built exactly when the database opens and both ids are given and known, and it keeps those ids. |
| SalesServices.CartCreateRoundTrip | sales_services/cart_service.go:136-161 | A cart the service creates reads back, under the id Create chose, as the amended stored record. |
| SalesServices.WishlistUpdateMovesRecord | sales_services/wishlist_service.go:145-153 | An Update carrying another `business_id` moves a wishlist out of its business: Get before finds it, Get after does not, the other business does. |
| SalesServices.CustomerWishlistUpdateKeepsOwner | sales_services/customer_services/customer_wishlists_service.go:166-179 | The same Update through the customer wishlist service leaves the record unchanged. |
| SalesServices.CartSoftDeleteReportsNoDocuments | sales_services/cart_service.go:180-201 | A live cart that Get finds is reported as not found by its successful soft delete; the corrected reply is success. |

## Left out

- Mongo driver plumbing (contexts, cursors, `GetMongoDbCollection`) is replaced by an in-memory `seq` of documents per collection. Each driver failure is an `Io` argument.
- Extended-JSON parsing of filter and sort strings: a filter is absent, malformed or a parsed list of equality pairs. Operators other than equality are not modelled.
- Sort order is an uninterpreted reordering (`Helpers.sortBy`). Lemmas about counts assume only that it is a permutation.
- The internals of `AmendFldsforCreate`, `AmendFldsforUpdate`, `AmendFldsForGet` and `GenerateUniqueId` are uninterpreted. The randomness of `GenerateUniqueId` is a `nonce` argument.
- The business lookups are sets of known ids in `Environment`. They are `daoBusiness.GetDetails`, or `daoBusiness.Get` in the brand, compare products, customer review, customer type and customer wishlist services. The customer lookup, `daoCustomer.Get`, is a set of known ids there too.
- Logging, the `init()` log flags and the decode error in Get and Find that the source ignores are left out.
- The late-checked collection error in Get and Find is left out: those reads fail only with the no-documents error.
- `log.Fatal` on a failed database open ends the process. It is modelled as the verdict `Exited`; the model does not capture that nothing after it runs.
- The empty `{}` element the Get and Find filters carry constrains nothing and is not modelled.
- Panics from Go type assertions (a non-string id in the caller's map, a missing id after amending) become preconditions instead of failures.
- The customer order service in `customer_services` calls Get on a customer DAO that it never assigns, which panics in the source. The rest of the model uses the intended customer lookup; the panic is recorded under "## Findings". A panic and `log.Fatal` are both the verdict `Exited`.
- The integer widths of `skip`, `limit` and the counts (`int64`) are not modelled: integers are unbounded.
- Collection names and the field constants not defined in `sales_common/appcommon.go` (`quiz_id`, `discount_id`, `dealer_id`, `policies_id`, `material_type_id`, `customer_type_id` and the `Db*` collection names) are taken to be the literal names. The DAO implementations behind the services other than the cart service are not part of this model. They are configured like the DAOs that are: business scope plus `is_deleted = false`, with a conditional customer scope for the DAOs in `customer_services`.
- Which database type a DAO factory selects is left out. So are the factory's unimplemented branches and the nil DAO they return.
- `sales_services/customer_services/customer_auth_service.go` and `sales_services/categories_service copy.go` are not part of this model.
- `IsMemberExist` and `GetMemberDataStr` are both modelled as "an absent key is a missing-member error".
- Bson.LowerChar: lower-cases ASCII letters only. The Unicode case mappings of Go's `strings.ToLower` (for example `Ä` to `ä`) are not modelled, so a non-ASCII id is stored as the model says only when it has no non-ASCII capitals.
- Bson.Lower: ids are lower-cased in ASCII only; the Unicode mappings of `strings.ToLower` are not modelled.
- Bson.LowerMakesLowerCase: "lower case" means "no letter A-Z"; a non-ASCII capital survives the model's lower-casing, unlike under `strings.ToLower`.
- Repository.FirstIgnoringCase: compares ids ignoring ASCII case only. The strength-1 collation also treats non-ASCII case variants and accented letters as equal, and that is not modelled.
- Repository.RemoveFirst: removes under the ASCII case-insensitive comparison above, not the full strength-1 collation.
- MongoDao.Dao.Create: assumes `AmendFldsforCreate` returns a new map and does not write into the caller's map. Go maps are shared references and the DAO passes the caller's own map, so the contract's statement of the caller's map holds only under that assumption.
- MongoDao.Dao.Update: assumes `AmendFldsforUpdate` does not write into the caller's map, for the same reason.
- Services.Service.Create: its statement that the caller's map ends up as `CreateFields` of its old value assumes the DAO's `AmendFldsforCreate` does not write into that map.
- Services.Service.Update: its statement that the caller's map only loses the stripped keys assumes the DAO's `AmendFldsforUpdate` does not write into that map.
- Services.Service.Delete: the permanent branch reports only the DAO's error; the removed count it discards is not part of the reply.
- Repository.SetFirst: its own contract states only that the length is kept. The content of the change is stated by `Repository.SetFirstMeaning`.

## Findings

| source | as written | input that shows it | evidently intended | confidence | as-written member | corrected member |
|---|---|---|---|---|---|---|
| sales_services/cart_service.go:180-201 | A soft delete, in this and every other service, calls the service's Update. Update's DAO call re-reads the record through Get, which admits only `is_deleted = false`. So the write succeeds, the re-read fails, and Delete returns that no-documents error (generic form: `Services.SoftDeleteReportsNoDocuments`, `Services.Service.Delete`) | a live cart `{cart_id: "c1", business_id: "mine", customer_id: "me", is_deleted: false}` and `Delete("c1", false)` on the cart service of business `mine` and customer `me` | a soft delete whose write succeeds reports success (`Services.Service.DeleteIntended`) | not executed | SalesServices.CartSoftDeleteReportsNoDocuments | Services.SoftDeleteIntendedSucceeds |
| sales_services/customer_services/customer_order_service.go:79-83 | The customer check calls `p.daoCustomer.Get`, but `initializeService` (lines 96-100) assigns only the order and business DAOs. So the call goes through a nil DAO and panics whenever both ids are given and the business is known: the service can never be built | `props = {business_id: "b1", customer_id: "c1"}` with business `b1` and customer `(b1, c1)` both known | the customer is checked like in the other customer services, and the service is built when it is known | not executed | SalesServices.CustomerOrderNilCustomerDao | SalesServices.CustomerOrderIntendedAccepts |
