/**
 * The helpers the repositories and services call but whose code is not part
 * of this model (field amending in the shared db layer, unique id
 * generation, the driver's sort order). They are handed in as values, so
 * every property below holds for whatever those helpers do, unless a lemma
 * names an assumption about them.
 */
module Library {
  import opened Bson

  /** A parsed `sort` JSON document; what order it means is up to the driver. */
  datatype SortSpec = SortSpec(fields: Document)

  /** The result of `json.Unmarshal` on an optional argument. */
  datatype TextArg<+T> = Absent | Malformed | Parsed(value: T)

  datatype Helpers = Helpers(
    amendForCreate: Document -> Document,             // db_common.AmendFldsforCreate
    amendForUpdate: Document -> Document,             // db_common.AmendFldsforUpdate
    amendForGet: Document -> Document,                // db_common.AmendFldsForGet
    uniqueId: (string, nat) -> string,                // utils.GenerateUniqueId(prefix); the nat stands for its randomness
    sortBy: (SortSpec, seq<Document>) -> seq<Document>) // the order `options.SetSort` produces

  /** A sort only reorders the documents it is given. */
  ghost predicate SortReorders(h: Helpers)
  {
    forall spec, docs :: multiset(h.sortBy(spec, docs)) == multiset(docs)
  }

  /** Amending for create keeps a string value stored under `key`. */
  ghost predicate CreateKeeps(h: Helpers, key: string)
  {
    forall d: Document :: key in d && d[key].Str? ==> key in h.amendForCreate(d) && h.amendForCreate(d)[key] == d[key]
  }

  /** Amending for update adds no field `key` of its own. */
  ghost predicate UpdateAddsNo(h: Helpers, key: string)
  {
    forall d: Document :: key !in d ==> key !in h.amendForUpdate(d)
  }

  /** Amending for update keeps a value stored under `key`. */
  ghost predicate UpdateKeeps(h: Helpers, key: string)
  {
    forall d: Document :: key in d ==> key in h.amendForUpdate(d) && h.amendForUpdate(d)[key] == d[key]
  }
}
