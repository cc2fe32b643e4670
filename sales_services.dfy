/**
 * The fifteen services of the sales library, each an instance of the
 * service template, with the construction gate and the record edits each
 * source file performs.
 */
module SalesServices {
  import opened Wrappers
  import opened Bson
  import opened Errors
  import opened Library
  import opened Repository
  import opened MongoDao
  import opened Services
  import opened SalesDaos


  /** customerreviewBaseService */
  const CUSTOMER_REVIEWS: ServiceConfig := ServiceConfig(
    DaoConfig("sales_customer_reviews", "review_id", CustomerWhenSet, false),
    Some("review_id"), "reviw", OptionalCustomer, true,
    {"business_id", "customer_id", "review_id"}, true, false, "Invalid business_id")

  /** customerwishlistBaseService */
  const CUSTOMER_WISHLISTS: ServiceConfig := ServiceConfig(
    DaoConfig("sales_customer_wishlist", "wishlist_id", CustomerWhenSet, false),
    Some("wishlist_id"), "wish", OptionalCustomer, true,
    {"business_id", "customer_id", "wishlist_id"}, false, false, "Invalid business_id")

  /** customerTypeBaseService */
  const CUSTOMER_TYPES: ServiceConfig := ServiceConfig(
    DaoConfig("sales_customer_type", "customer_type_id", CustomerWhenSet, false),
    Some("customer_type_id"), "crt", RequiredCustomer, false,
    {"business_id", "customer_id", "customer_type_id"}, true, false, "Invalid BusinessId")

  /** customerOrderBaseService */
  const CUSTOMER_ORDERS: ServiceConfig := ServiceConfig(
    DaoConfig("sales_customer_order", "customer_order_id", CustomerWhenSet, false),
    Some("customer_order_id"), "c_order", RequiredCustomer, false,
    {}, false, false, "Invalid business_id")

  /** compareProdsBaseService */
  const COMPARE_PRODS: ServiceConfig := ServiceConfig(
    DaoConfig("sales_compare_prods", "material_type_id", BusinessOnly, false),
    None, "", NoCustomer, false,
    {"material_type_id"}, true, true, "Invalid BusinessId")

  /** cartBaseService */
  const CART_SERVICE: ServiceConfig := ServiceConfig(
    CART,
    Some("cart_id"), "crt", RequiredCustomer, true,
    {"business_id", "customer_id", "cart_id"}, false, false, "Invalid BusinessId")

  /** customer_orderBaseService */
  const SALES_ORDERS: ServiceConfig := ServiceConfig(
    DaoConfig("sales_customer_order", "customer_order_id", BusinessOnly, false),
    Some("customer_order_id"), "c_order", NoCustomer, false,
    {}, false, false, "Invalid business_id")

  /** policiesBaseService */
  const POLICIES: ServiceConfig := ServiceConfig(
    DaoConfig("sales_policies", "policies_id", BusinessOnly, false),
    Some("policies_id"), "pol", NoCustomer, false,
    {}, false, false, "Invalid business_id")

  /** navigationBaseService */
  const NAVIGATION: ServiceConfig := ServiceConfig(
    DaoConfig("sales_navigation", "navigation_id", BusinessOnly, false),
    Some("navigation_id"), "nav", NoCustomer, false,
    {}, false, false, "Invalid business_id")

  /** productBaseService */
  const PRODUCTS: ServiceConfig := ServiceConfig(
    DaoConfig("sales_products", "product_id", BusinessOnly, false),
    Some("product_id"), "prod", NoCustomer, false,
    {}, false, false, "Invalid business_id")

  /** wishlistBaseService */
  const WISHLISTS: ServiceConfig := ServiceConfig(
    DaoConfig("sales_wishlist", "wishlist_id", BusinessOnly, false),
    Some("wishlist_id"), "wish", NoCustomer, false,
    {}, false, false, "Invalid business_id")

  /** aboutusBaseService */
  const ABOUT_US: ServiceConfig := ServiceConfig(
    DaoConfig("sales_aboutus", "brand_id", BusinessOnly, false),
    Some("brand_id"), "abtus", NoCustomer, false,
    {}, false, false, "Invalid business_id")

  /** reviewBaseService */
  const REVIEWS: ServiceConfig := ServiceConfig(
    DaoConfig("sales_review", "review_id", BusinessOnly, false),
    Some("review_id"), "rev", NoCustomer, false,
    {}, false, false, "Invalid business_id")

  /** mediaBaseService */
  const MEDIA: ServiceConfig := ServiceConfig(
    DaoConfig("sales_media", "media_id", BusinessOnly, false),
    Some("media_id"), "media", NoCustomer, false,
    {}, false, false, "Invalid business_id")

  /** brandBaseService */
  const BRANDS: ServiceConfig := ServiceConfig(
    DaoConfig("sales_brands", "brand_id", BusinessOnly, false),
    Some("brand_id"), "brnd", NoCustomer, false,
    {}, false, false, "Invalid business_id")

  /** Every service configuration satisfies the template's assumptions, so each can be built. */
  lemma AllWellFormed()
    ensures WellFormed(CUSTOMER_REVIEWS) && WellFormed(CUSTOMER_WISHLISTS) && WellFormed(CUSTOMER_TYPES)
    ensures WellFormed(CUSTOMER_ORDERS) && WellFormed(COMPARE_PRODS) && WellFormed(CART_SERVICE)
    ensures WellFormed(SALES_ORDERS) && WellFormed(POLICIES) && WellFormed(NAVIGATION) && WellFormed(PRODUCTS)
    ensures WellFormed(WISHLISTS) && WellFormed(ABOUT_US) && WellFormed(REVIEWS) && WellFormed(MEDIA) && WellFormed(BRANDS)
  {
  }

  /** business_id is required and must be known; customer_id is optional and checked only when non-empty; a failure closes the database. */
  lemma CustomerReviewsGate(props: map<string, string>, env: Environment)
    ensures Gate(CUSTOMER_REVIEWS, props, env) ==
            if env.mainOpen.Fails? then Exited(env.mainOpen.reason)
            else if "business_id" !in props then Rejected(MissingMember("business_id"), false, false)
            else
              var businessId := props["business_id"];
              var customerId := if "customer_id" in props then props["customer_id"] else "";
              if businessId !in env.businesses then Rejected(AppError(INVALID_ID_CODE, "Invalid business_id"), false, false)
              else if customerId != "" && (businessId, customerId) !in env.customers then
                Rejected(AppError(INVALID_ID_CODE, INVALID_CUSTOMER_MSG), false, false)
              else Accepted(businessId, customerId)
  {
  }

  /** Create overwrites business_id, customer_id, review_id and keeps every other key; a supplied review_id is lower-cased, a missing one is a unique id with prefix "reviw"; Update deletes business_id, customer_id, review_id from its input. */
  lemma CustomerReviewsRecordEdits(businessId: string, customerId: string, h: Helpers, fields: Document, nonce: nat)
    requires "review_id" in fields ==> fields["review_id"].Str?
    ensures CreateFields(CUSTOMER_REVIEWS, businessId, customerId, h, fields, nonce) ==
              fields["business_id" := Str(businessId)]["customer_id" := Str(customerId)]
              ["review_id" := Str(if "review_id" in fields then Lower(fields["review_id"].s) else h.uniqueId("reviw", nonce))]
    ensures fields - CUSTOMER_REVIEWS.updateStrips == fields - {"business_id", "customer_id", "review_id"}
  {
  }

  /** business_id is required and must be known; customer_id is optional and checked only when non-empty; a failure leaves the database open. */
  lemma CustomerWishlistsGate(props: map<string, string>, env: Environment)
    ensures Gate(CUSTOMER_WISHLISTS, props, env) ==
            if env.mainOpen.Fails? then Exited(env.mainOpen.reason)
            else if "business_id" !in props then Rejected(MissingMember("business_id"), true, false)
            else
              var businessId := props["business_id"];
              var customerId := if "customer_id" in props then props["customer_id"] else "";
              if businessId !in env.businesses then Rejected(AppError(INVALID_ID_CODE, "Invalid business_id"), true, false)
              else if customerId != "" && (businessId, customerId) !in env.customers then
                Rejected(AppError(INVALID_ID_CODE, INVALID_CUSTOMER_MSG), true, false)
              else Accepted(businessId, customerId)
  {
  }

  /** Create overwrites business_id, customer_id, wishlist_id and keeps every other key; a supplied wishlist_id is lower-cased, a missing one is a unique id with prefix "wish"; Update deletes business_id, customer_id, wishlist_id from its input. */
  lemma CustomerWishlistsRecordEdits(businessId: string, customerId: string, h: Helpers, fields: Document, nonce: nat)
    requires "wishlist_id" in fields ==> fields["wishlist_id"].Str?
    ensures CreateFields(CUSTOMER_WISHLISTS, businessId, customerId, h, fields, nonce) ==
              fields["business_id" := Str(businessId)]["customer_id" := Str(customerId)]
              ["wishlist_id" := Str(if "wishlist_id" in fields then Lower(fields["wishlist_id"].s) else h.uniqueId("wish", nonce))]
    ensures fields - CUSTOMER_WISHLISTS.updateStrips == fields - {"business_id", "customer_id", "wishlist_id"}
  {
  }

  /** business_id and customer_id are both required and both must be known; a failure closes the database. */
  lemma CustomerTypeGate(props: map<string, string>, env: Environment)
    ensures Gate(CUSTOMER_TYPES, props, env) ==
            if env.mainOpen.Fails? then Exited(env.mainOpen.reason)
            else if "business_id" !in props then Rejected(MissingMember("business_id"), false, false)
            else if "customer_id" !in props then Rejected(MissingMember("customer_id"), false, false)
            else
              var businessId := props["business_id"];
              var customerId := props["customer_id"];
              if businessId !in env.businesses then Rejected(AppError(INVALID_ID_CODE, "Invalid BusinessId"), false, false)
              else if (businessId, customerId) !in env.customers then Rejected(AppError(INVALID_ID_CODE, INVALID_CUSTOMER_MSG), false, false)
              else Accepted(businessId, customerId)
  {
  }

  /** Create overwrites business_id, customer_type_id and keeps every other key; a supplied customer_type_id is lower-cased, a missing one is a unique id with prefix "crt"; Update deletes business_id, customer_id, customer_type_id from its input. */
  lemma CustomerTypeRecordEdits(businessId: string, customerId: string, h: Helpers, fields: Document, nonce: nat)
    requires "customer_type_id" in fields ==> fields["customer_type_id"].Str?
    ensures CreateFields(CUSTOMER_TYPES, businessId, customerId, h, fields, nonce) ==
              fields["business_id" := Str(businessId)]
              ["customer_type_id" := Str(if "customer_type_id" in fields then Lower(fields["customer_type_id"].s) else h.uniqueId("crt", nonce))]
    ensures fields - CUSTOMER_TYPES.updateStrips == fields - {"business_id", "customer_id", "customer_type_id"}
  {
  }

  /** business_id and customer_id are both required and both must be known; a failure leaves the database open. */
  lemma CustomerOrderGate(props: map<string, string>, env: Environment)
    ensures Gate(CUSTOMER_ORDERS, props, env) ==
            if env.mainOpen.Fails? then Exited(env.mainOpen.reason)
            else if "business_id" !in props then Rejected(MissingMember("business_id"), true, false)
            else if "customer_id" !in props then Rejected(MissingMember("customer_id"), true, false)
            else
              var businessId := props["business_id"];
              var customerId := props["customer_id"];
              if businessId !in env.businesses then Rejected(AppError(INVALID_ID_CODE, "Invalid business_id"), true, false)
              else if (businessId, customerId) !in env.customers then Rejected(AppError(INVALID_ID_CODE, INVALID_CUSTOMER_MSG), true, false)
              else Accepted(businessId, customerId)
  {
  }

  /** Create overwrites business_id, customer_order_id and keeps every other key; a supplied customer_order_id is lower-cased, a missing one is a unique id with prefix "c_order"; Update passes its input through unchanged. */
  lemma CustomerOrderRecordEdits(businessId: string, customerId: string, h: Helpers, fields: Document, nonce: nat)
    requires "customer_order_id" in fields ==> fields["customer_order_id"].Str?
    ensures CreateFields(CUSTOMER_ORDERS, businessId, customerId, h, fields, nonce) ==
              fields["business_id" := Str(businessId)]
              ["customer_order_id" := Str(if "customer_order_id" in fields then Lower(fields["customer_order_id"].s) else h.uniqueId("c_order", nonce))]
    ensures fields - CUSTOMER_ORDERS.updateStrips == fields
  {
  }

  /** The business id is read before anything opens; a failed region open closes the main store; an unknown business closes both. */
  lemma CompareProdsGate(props: map<string, string>, env: Environment)
    ensures Gate(COMPARE_PRODS, props, env) ==
            if "business_id" !in props then Rejected(MissingMember("business_id"), false, false)
            else if env.mainOpen.Fails? then Rejected(Driver(env.mainOpen.reason), false, false)
            else if env.regionOpen.Fails? then Rejected(Driver(env.regionOpen.reason), false, false)
            else if props["business_id"] !in env.businesses then Rejected(AppError(INVALID_ID_CODE, "Invalid BusinessId"), false, false)
            else Accepted(props["business_id"], "")
  {
  }

  /** Create overwrites business_id and keeps every other key; no id is assigned; Update deletes material_type_id from its input. */
  lemma CompareProdsRecordEdits(businessId: string, customerId: string, h: Helpers, fields: Document, nonce: nat)
    ensures CreateFields(COMPARE_PRODS, businessId, customerId, h, fields, nonce) ==
              fields["business_id" := Str(businessId)]
    ensures fields - COMPARE_PRODS.updateStrips == fields - {"material_type_id"}
  {
  }

  /** business_id and customer_id are both required and both must be known; a failure leaves the database open. */
  lemma CartGate(props: map<string, string>, env: Environment)
    ensures Gate(CART_SERVICE, props, env) ==
            if env.mainOpen.Fails? then Exited(env.mainOpen.reason)
            else if "business_id" !in props then Rejected(MissingMember("business_id"), true, false)
            else if "customer_id" !in props then Rejected(MissingMember("customer_id"), true, false)
            else
              var businessId := props["business_id"];
              var customerId := props["customer_id"];
              if businessId !in env.businesses then Rejected(AppError(INVALID_ID_CODE, "Invalid BusinessId"), true, false)
              else if (businessId, customerId) !in env.customers then Rejected(AppError(INVALID_ID_CODE, INVALID_CUSTOMER_MSG), true, false)
              else Accepted(businessId, customerId)
  {
  }

  /** Create overwrites business_id, customer_id, cart_id and keeps every other key; a supplied cart_id is lower-cased, a missing one is a unique id with prefix "crt"; Update deletes business_id, customer_id, cart_id from its input. */
  lemma CartRecordEdits(businessId: string, customerId: string, h: Helpers, fields: Document, nonce: nat)
    requires "cart_id" in fields ==> fields["cart_id"].Str?
    ensures CreateFields(CART_SERVICE, businessId, customerId, h, fields, nonce) ==
              fields["business_id" := Str(businessId)]["customer_id" := Str(customerId)]
              ["cart_id" := Str(if "cart_id" in fields then Lower(fields["cart_id"].s) else h.uniqueId("crt", nonce))]
    ensures fields - CART_SERVICE.updateStrips == fields - {"business_id", "customer_id", "cart_id"}
  {
  }

  /** business_id must be given and known; a failure leaves the database open. */
  lemma SalesOrderGate(props: map<string, string>, env: Environment)
    ensures Gate(SALES_ORDERS, props, env) ==
            if env.mainOpen.Fails? then Exited(env.mainOpen.reason)
            else if "business_id" !in props then Rejected(MissingMember("business_id"), true, false)
            else if props["business_id"] !in env.businesses then Rejected(AppError(INVALID_ID_CODE, "Invalid business_id"), true, false)
            else Accepted(props["business_id"], "")
  {
  }

  /** Create overwrites business_id, customer_order_id and keeps every other key; a supplied customer_order_id is lower-cased, a missing one is a unique id with prefix "c_order"; Update passes its input through unchanged. */
  lemma SalesOrderRecordEdits(businessId: string, customerId: string, h: Helpers, fields: Document, nonce: nat)
    requires "customer_order_id" in fields ==> fields["customer_order_id"].Str?
    ensures CreateFields(SALES_ORDERS, businessId, customerId, h, fields, nonce) ==
              fields["business_id" := Str(businessId)]
              ["customer_order_id" := Str(if "customer_order_id" in fields then Lower(fields["customer_order_id"].s) else h.uniqueId("c_order", nonce))]
    ensures fields - SALES_ORDERS.updateStrips == fields
  {
  }

  /** business_id must be given and known; a failure leaves the database open. */
  lemma PoliciesGate(props: map<string, string>, env: Environment)
    ensures Gate(POLICIES, props, env) ==
            if env.mainOpen.Fails? then Exited(env.mainOpen.reason)
            else if "business_id" !in props then Rejected(MissingMember("business_id"), true, false)
            else if props["business_id"] !in env.businesses then Rejected(AppError(INVALID_ID_CODE, "Invalid business_id"), true, false)
            else Accepted(props["business_id"], "")
  {
  }

  /** Create overwrites business_id, policies_id and keeps every other key; a supplied policies_id is lower-cased, a missing one is a unique id with prefix "pol"; Update passes its input through unchanged. */
  lemma PoliciesRecordEdits(businessId: string, customerId: string, h: Helpers, fields: Document, nonce: nat)
    requires "policies_id" in fields ==> fields["policies_id"].Str?
    ensures CreateFields(POLICIES, businessId, customerId, h, fields, nonce) ==
              fields["business_id" := Str(businessId)]
              ["policies_id" := Str(if "policies_id" in fields then Lower(fields["policies_id"].s) else h.uniqueId("pol", nonce))]
    ensures fields - POLICIES.updateStrips == fields
  {
  }

  /** business_id must be given and known; a failure leaves the database open. */
  lemma NavigationGate(props: map<string, string>, env: Environment)
    ensures Gate(NAVIGATION, props, env) ==
            if env.mainOpen.Fails? then Exited(env.mainOpen.reason)
            else if "business_id" !in props then Rejected(MissingMember("business_id"), true, false)
            else if props["business_id"] !in env.businesses then Rejected(AppError(INVALID_ID_CODE, "Invalid business_id"), true, false)
            else Accepted(props["business_id"], "")
  {
  }

  /** Create overwrites business_id, navigation_id and keeps every other key; a supplied navigation_id is lower-cased, a missing one is a unique id with prefix "nav"; Update passes its input through unchanged. */
  lemma NavigationRecordEdits(businessId: string, customerId: string, h: Helpers, fields: Document, nonce: nat)
    requires "navigation_id" in fields ==> fields["navigation_id"].Str?
    ensures CreateFields(NAVIGATION, businessId, customerId, h, fields, nonce) ==
              fields["business_id" := Str(businessId)]
              ["navigation_id" := Str(if "navigation_id" in fields then Lower(fields["navigation_id"].s) else h.uniqueId("nav", nonce))]
    ensures fields - NAVIGATION.updateStrips == fields
  {
  }

  /** business_id must be given and known; a failure leaves the database open. */
  lemma ProductGate(props: map<string, string>, env: Environment)
    ensures Gate(PRODUCTS, props, env) ==
            if env.mainOpen.Fails? then Exited(env.mainOpen.reason)
            else if "business_id" !in props then Rejected(MissingMember("business_id"), true, false)
            else if props["business_id"] !in env.businesses then Rejected(AppError(INVALID_ID_CODE, "Invalid business_id"), true, false)
            else Accepted(props["business_id"], "")
  {
  }

  /** Create overwrites business_id, product_id and keeps every other key; a supplied product_id is lower-cased, a missing one is a unique id with prefix "prod"; Update passes its input through unchanged. */
  lemma ProductRecordEdits(businessId: string, customerId: string, h: Helpers, fields: Document, nonce: nat)
    requires "product_id" in fields ==> fields["product_id"].Str?
    ensures CreateFields(PRODUCTS, businessId, customerId, h, fields, nonce) ==
              fields["business_id" := Str(businessId)]
              ["product_id" := Str(if "product_id" in fields then Lower(fields["product_id"].s) else h.uniqueId("prod", nonce))]
    ensures fields - PRODUCTS.updateStrips == fields
  {
  }

  /** business_id must be given and known; a failure leaves the database open. */
  lemma WishlistGate(props: map<string, string>, env: Environment)
    ensures Gate(WISHLISTS, props, env) ==
            if env.mainOpen.Fails? then Exited(env.mainOpen.reason)
            else if "business_id" !in props then Rejected(MissingMember("business_id"), true, false)
            else if props["business_id"] !in env.businesses then Rejected(AppError(INVALID_ID_CODE, "Invalid business_id"), true, false)
            else Accepted(props["business_id"], "")
  {
  }

  /** Create overwrites business_id, wishlist_id and keeps every other key; a supplied wishlist_id is lower-cased, a missing one is a unique id with prefix "wish"; Update passes its input through unchanged. */
  lemma WishlistRecordEdits(businessId: string, customerId: string, h: Helpers, fields: Document, nonce: nat)
    requires "wishlist_id" in fields ==> fields["wishlist_id"].Str?
    ensures CreateFields(WISHLISTS, businessId, customerId, h, fields, nonce) ==
              fields["business_id" := Str(businessId)]
              ["wishlist_id" := Str(if "wishlist_id" in fields then Lower(fields["wishlist_id"].s) else h.uniqueId("wish", nonce))]
    ensures fields - WISHLISTS.updateStrips == fields
  {
  }

  /** business_id must be given and known; a failure leaves the database open. */
  lemma AboutUsGate(props: map<string, string>, env: Environment)
    ensures Gate(ABOUT_US, props, env) ==
            if env.mainOpen.Fails? then Exited(env.mainOpen.reason)
            else if "business_id" !in props then Rejected(MissingMember("business_id"), true, false)
            else if props["business_id"] !in env.businesses then Rejected(AppError(INVALID_ID_CODE, "Invalid business_id"), true, false)
            else Accepted(props["business_id"], "")
  {
  }

  /** Create overwrites business_id, brand_id and keeps every other key; a supplied brand_id is lower-cased, a missing one is a unique id with prefix "abtus"; Update passes its input through unchanged. */
  lemma AboutUsRecordEdits(businessId: string, customerId: string, h: Helpers, fields: Document, nonce: nat)
    requires "brand_id" in fields ==> fields["brand_id"].Str?
    ensures CreateFields(ABOUT_US, businessId, customerId, h, fields, nonce) ==
              fields["business_id" := Str(businessId)]
              ["brand_id" := Str(if "brand_id" in fields then Lower(fields["brand_id"].s) else h.uniqueId("abtus", nonce))]
    ensures fields - ABOUT_US.updateStrips == fields
  {
  }

  /** business_id must be given and known; a failure leaves the database open. */
  lemma ReviewGate(props: map<string, string>, env: Environment)
    ensures Gate(REVIEWS, props, env) ==
            if env.mainOpen.Fails? then Exited(env.mainOpen.reason)
            else if "business_id" !in props then Rejected(MissingMember("business_id"), true, false)
            else if props["business_id"] !in env.businesses then Rejected(AppError(INVALID_ID_CODE, "Invalid business_id"), true, false)
            else Accepted(props["business_id"], "")
  {
  }

  /** Create overwrites business_id, review_id and keeps every other key; a supplied review_id is lower-cased, a missing one is a unique id with prefix "rev"; Update passes its input through unchanged. */
  lemma ReviewRecordEdits(businessId: string, customerId: string, h: Helpers, fields: Document, nonce: nat)
    requires "review_id" in fields ==> fields["review_id"].Str?
    ensures CreateFields(REVIEWS, businessId, customerId, h, fields, nonce) ==
              fields["business_id" := Str(businessId)]
              ["review_id" := Str(if "review_id" in fields then Lower(fields["review_id"].s) else h.uniqueId("rev", nonce))]
    ensures fields - REVIEWS.updateStrips == fields
  {
  }

  /** business_id must be given and known; a failure leaves the database open. */
  lemma MediaGate(props: map<string, string>, env: Environment)
    ensures Gate(MEDIA, props, env) ==
            if env.mainOpen.Fails? then Exited(env.mainOpen.reason)
            else if "business_id" !in props then Rejected(MissingMember("business_id"), true, false)
            else if props["business_id"] !in env.businesses then Rejected(AppError(INVALID_ID_CODE, "Invalid business_id"), true, false)
            else Accepted(props["business_id"], "")
  {
  }

  /** Create overwrites business_id, media_id and keeps every other key; a supplied media_id is lower-cased, a missing one is a unique id with prefix "media"; Update passes its input through unchanged. */
  lemma MediaRecordEdits(businessId: string, customerId: string, h: Helpers, fields: Document, nonce: nat)
    requires "media_id" in fields ==> fields["media_id"].Str?
    ensures CreateFields(MEDIA, businessId, customerId, h, fields, nonce) ==
              fields["business_id" := Str(businessId)]
              ["media_id" := Str(if "media_id" in fields then Lower(fields["media_id"].s) else h.uniqueId("media", nonce))]
    ensures fields - MEDIA.updateStrips == fields
  {
  }

  /** business_id must be given and known; a failure leaves the database open. */
  lemma BrandGate(props: map<string, string>, env: Environment)
    ensures Gate(BRANDS, props, env) ==
            if env.mainOpen.Fails? then Exited(env.mainOpen.reason)
            else if "business_id" !in props then Rejected(MissingMember("business_id"), true, false)
            else if props["business_id"] !in env.businesses then Rejected(AppError(INVALID_ID_CODE, "Invalid business_id"), true, false)
            else Accepted(props["business_id"], "")
  {
  }

  /** Create overwrites business_id, brand_id and keeps every other key; a supplied brand_id is lower-cased, a missing one is a unique id with prefix "brnd"; Update passes its input through unchanged. */
  lemma BrandRecordEdits(businessId: string, customerId: string, h: Helpers, fields: Document, nonce: nat)
    requires "brand_id" in fields ==> fields["brand_id"].Str?
    ensures CreateFields(BRANDS, businessId, customerId, h, fields, nonce) ==
              fields["business_id" := Str(businessId)]
              ["brand_id" := Str(if "brand_id" in fields then Lower(fields["brand_id"].s) else h.uniqueId("brnd", nonce))]
    ensures fields - BRANDS.updateStrips == fields
  {
  }

  // ---- Concrete consequences ----

  /** Helpers that change nothing: no amending, ids are the prefix, sorting keeps the order. */
  const IDENTITY: Helpers := Helpers(d => d, d => d, d => d, (prefix, nonce) => prefix, (spec, docs) => docs)

  /** Amending for create marks every record live. */
  ghost predicate CreateMarksLive(h: Helpers)
  {
    forall d: Document :: FLD_IS_DELETED in h.amendForCreate(d) && h.amendForCreate(d)[FLD_IS_DELETED] == Bool(false)
  }

  /** A cart created for a customer is the cart the same customer then reads back under the new id. */
  lemma CartCreateRoundTrip(businessId: string, customerId: string, h: Helpers, docs: seq<Document>, fields: Document, nonce: nat)
    requires "cart_id" in fields ==> fields["cart_id"].Str?
    requires CreateKeeps(h, "business_id") && CreateKeeps(h, "customer_id") && CreateKeeps(h, "cart_id")
    requires CreateMarksLive(h)
    ensures var stored := h.amendForCreate(CreateFields(CART_SERVICE, businessId, customerId, h, fields, nonce));
            var id := ChosenId(CART_SERVICE, h, fields, "cart_id", nonce);
            (forall k :: 0 <= k < |docs| ==> !Readable(CART, businessId, customerId, docs[k], id)) ==>
            GetSpec(CART, businessId, customerId, h, docs + [stored], id) == Ok(h.amendForGet(stored))
  {
    var created := CreateFields(CART_SERVICE, businessId, customerId, h, fields, nonce);
    var stored := h.amendForCreate(created);
    var id := ChosenId(CART_SERVICE, h, fields, "cart_id", nonce);
    CartRecordEdits(businessId, customerId, h, fields, nonce);
    assert created["cart_id"] == Str(id) && created["business_id"] == Str(businessId) && created["customer_id"] == Str(customerId);
    assert Readable(CART, businessId, customerId, stored, id);
    CreateThenGet(CART, businessId, customerId, h, docs, stored, id);
  }

  /** A wishlist Update passes business_id through, so it can hand a record to another business. */
  lemma WishlistUpdateMovesRecord()
    ensures var before: Document := map["wishlist_id" := Str("w1"), "business_id" := Str("mine"), "is_deleted" := Bool(false)];
            var input: Document := map["business_id" := Str("other")];
            var after := SetFirst([before], IdQuery(WISHLISTS.dao, "w1"), IDENTITY.amendForUpdate(input - WISHLISTS.updateStrips));
            && GetSpec(WISHLISTS.dao, "mine", "", IDENTITY, [before], "w1") == Ok(before)
            && after == [before + input]
            && GetSpec(WISHLISTS.dao, "mine", "", IDENTITY, after, "w1") == Err(NoDocuments)
            && GetSpec(WISHLISTS.dao, "other", "", IDENTITY, after, "w1").Ok?
  {
    var before: Document := map["wishlist_id" := Str("w1"), "business_id" := Str("mine"), "is_deleted" := Bool(false)];
    var input: Document := map["business_id" := Str("other")];
    assert input - WISHLISTS.updateStrips == input;
    assert Matches(before, IdQuery(WISHLISTS.dao, "w1")) by {
      assert Holds(before, IdQuery(WISHLISTS.dao, "w1")[0]);
    }
    GetMeaning(WISHLISTS.dao, "mine", "", IDENTITY, [before], "w1");
    GetMeaning(WISHLISTS.dao, "mine", "", IDENTITY, [before + input], "w1");
    assert Readable(WISHLISTS.dao, "other", "", (before + input), "w1");
    GetMeaning(WISHLISTS.dao, "other", "", IDENTITY, [before + input], "w1");
  }

  /** The same Update through the customer wishlist service leaves the record where it was. */
  lemma CustomerWishlistUpdateKeepsOwner()
    ensures var before: Document := map["wishlist_id" := Str("w1"), "business_id" := Str("mine"), "is_deleted" := Bool(false)];
            var input: Document := map["business_id" := Str("other")];
            SetFirst([before], IdQuery(CUSTOMER_WISHLISTS.dao, "w1"), IDENTITY.amendForUpdate(input - CUSTOMER_WISHLISTS.updateStrips)) == [before]
  {
    var before: Document := map["wishlist_id" := Str("w1"), "business_id" := Str("mine"), "is_deleted" := Bool(false)];
    var input: Document := map["business_id" := Str("other")];
    assert input - CUSTOMER_WISHLISTS.updateStrips == map[];
    assert before + map[] == before;
    assert Matches(before, IdQuery(CUSTOMER_WISHLISTS.dao, "w1")) by {
      assert Holds(before, IdQuery(CUSTOMER_WISHLISTS.dao, "w1")[0]);
    }
  }

  /** A live cart that Get finds is, as written, reported as not found by the soft Delete that hides it. */
  lemma CartSoftDeleteReportsNoDocuments()
    ensures var stored: Document := map["cart_id" := Str("c1"), "business_id" := Str("mine"), "customer_id" := Str("me"),
                                        "is_deleted" := Bool(false)];
            && GetSpec(CART_SERVICE.dao, "mine", "me", IDENTITY, [stored], "c1") == Ok(stored)
            && DeleteReply(CART_SERVICE, "mine", "me", IDENTITY, [stored], "c1", false, Succeeds) == Some(NoDocuments)
            && DeleteReplyIntended(Succeeds) == None
  {
    var stored: Document := map["cart_id" := Str("c1"), "business_id" := Str("mine"), "customer_id" := Str("me"),
                                "is_deleted" := Bool(false)];
    AllWellFormed();
    GetMeaning(CART_SERVICE.dao, "mine", "me", IDENTITY, [stored], "c1");
    SoftDeleteReportsNoDocuments(CART_SERVICE, "mine", "me", IDENTITY, [stored], "c1");
  }

  // ---- The customer order service's customer check ----

  /** The process stop that `NewCustomerOrderService` reaches through its unassigned customer DAO. */
  const NIL_CUSTOMER_DAO: string := "nil customer DAO"

  /**
   * `NewCustomerOrderService` as written: the customer check calls Get on a
   * customer DAO that `initializeService` never assigns, so once the business
   * is known the constructor panics instead of checking the customer.
   */
  function CustomerOrderGateAsWritten(props: map<string, string>, env: Environment): Verdict
  {
    if env.mainOpen.Fails? then Exited(env.mainOpen.reason)
    else if "business_id" !in props then Rejected(MissingMember("business_id"), true, false)
    else if "customer_id" !in props then Rejected(MissingMember("customer_id"), true, false)
    else if props["business_id"] !in env.businesses then Rejected(AppError(INVALID_ID_CODE, "Invalid business_id"), true, false)
    else Exited(NIL_CUSTOMER_DAO)
  }

  /** As written the customer order service is never built: a known business always ends in the panic. */
  lemma CustomerOrderAsWrittenNeverBuilds(props: map<string, string>, env: Environment)
    ensures !CustomerOrderGateAsWritten(props, env).Accepted?
    ensures env.mainOpen.Succeeds? ==>
            (CustomerOrderGateAsWritten(props, env).Exited? <==>
               "business_id" in props && "customer_id" in props && props["business_id"] in env.businesses)
    ensures CustomerOrderGateAsWritten(props, env).Rejected? ==> CustomerOrderGateAsWritten(props, env) == Gate(CUSTOMER_ORDERS, props, env)
  {
  }

  /** Known ids that the intended gate accepts end, as written, in the panic. */
  lemma CustomerOrderNilCustomerDao()
    ensures var props := map["business_id" := "b1", "customer_id" := "c1"];
            var env := Environment(Succeeds, Succeeds, {"b1"}, {("b1", "c1")});
            && CustomerOrderGateAsWritten(props, env) == Exited(NIL_CUSTOMER_DAO)
            && Gate(CUSTOMER_ORDERS, props, env) == Accepted("b1", "c1")
  {
  }

  /** As intended the customer order service is built exactly when both ids are given and known, and keeps them. */
  lemma CustomerOrderIntendedAccepts(props: map<string, string>, env: Environment)
    ensures Gate(CUSTOMER_ORDERS, props, env).Accepted? <==>
            && env.mainOpen.Succeeds?
            && "business_id" in props && "customer_id" in props
            && props["business_id"] in env.businesses
            && (props["business_id"], props["customer_id"]) in env.customers
    ensures Gate(CUSTOMER_ORDERS, props, env).Accepted? ==>
            Gate(CUSTOMER_ORDERS, props, env) == Accepted(props["business_id"], props["customer_id"])
  {
    AllWellFormed();
    GateAccepts(CUSTOMER_ORDERS, props, env);
  }
}
