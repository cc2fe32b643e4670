/**
 * Documents, equality filters and the few collection operations that the
 * repositories use: matching, first match in natural order, skip/limit
 * windows and an ASCII case-insensitive comparison standing for a strength-1 collation.
 */
module Bson {
  import opened Wrappers

  /** A field value, reduced to the kinds the repositories compare. */
  datatype Value = Str(s: string) | Bool(b: bool) | Int(i: int) | Other(tag: string)

  /** A stored document or a `utils.Map` payload. */
  type Document = map<string, Value>

  /** One `bson.E{Key: k, Value: v}` element of a filter document: field k equals v. */
  datatype Condition = Eq(key: string, value: Value)

  /** A `bson.D` filter: every element must hold. */
  type Query = seq<Condition>

  predicate Holds(d: Document, c: Condition)
  {
    c.key in d && d[c.key] == c.value
  }

  predicate Matches(d: Document, q: Query)
  {
    forall i :: 0 <= i < |q| ==> Holds(d, q[i])
  }

  lemma MatchesAppend(d: Document, q1: Query, q2: Query)
    ensures Matches(d, q1 + q2) <==> Matches(d, q1) && Matches(d, q2)
  {
    if Matches(d, q1) && Matches(d, q2) {
      forall i | 0 <= i < |q1 + q2|
        ensures Holds(d, (q1 + q2)[i])
      {
        if i >= |q1| {
          assert (q1 + q2)[i] == q2[i - |q1|];
        }
      }
    }
    if Matches(d, q1 + q2) {
      forall i | 0 <= i < |q1|
        ensures Holds(d, q1[i])
      {
        assert (q1 + q2)[i] == q1[i];
      }
      forall i | 0 <= i < |q2|
        ensures Holds(d, q2[i])
      {
        assert (q1 + q2)[|q1| + i] == q2[i];
      }
    }
  }

  lemma MatchesSingle(d: Document, c: Condition)
    ensures Matches(d, [c]) <==> Holds(d, c)
  {
    assert [c][0] == c;
  }

  /** Every condition of `weaker` also occurs in `stronger`. */
  predicate Implies(stronger: Query, weaker: Query)
  {
    forall c :: c in weaker ==> c in stronger
  }

  lemma ImpliesMatches(d: Document, stronger: Query, weaker: Query)
    requires Implies(stronger, weaker)
    requires Matches(d, stronger)
    ensures Matches(d, weaker)
  {
    forall i | 0 <= i < |weaker|
      ensures Holds(d, weaker[i])
    {
      assert weaker[i] in stronger;
      var j :| 0 <= j < |stronger| && stronger[j] == weaker[i];
    }
  }

  /** The documents a `Find`/`CountDocuments` with filter `q` selects, in natural order. */
  function Matching(docs: seq<Document>, q: Query): (r: seq<Document>)
    ensures |r| <= |docs|
    ensures multiset(r) <= multiset(docs)
    ensures forall d :: d in r ==> Matches(d, q)
    ensures forall d :: d in docs && Matches(d, q) ==> d in r
    decreases |docs|
  {
    if docs == [] then []
    else
      assert docs == [docs[0]] + docs[1..];
      if Matches(docs[0], q) then [docs[0]] + Matching(docs[1..], q)
      else Matching(docs[1..], q)
  }

  /** A stronger filter never selects more documents. */
  lemma {:induction false} MatchingFewer(docs: seq<Document>, stronger: Query, weaker: Query)
    requires Implies(stronger, weaker)
    ensures |Matching(docs, stronger)| <= |Matching(docs, weaker)|
    decreases |docs|
  {
    if docs != [] {
      MatchingFewer(docs[1..], stronger, weaker);
      if Matches(docs[0], stronger) {
        ImpliesMatches(docs[0], stronger, weaker);
      }
    }
  }

  /** Filters with the same conditions select the same documents. */
  lemma {:induction false} MatchingSameConditions(docs: seq<Document>, q1: Query, q2: Query)
    requires Implies(q1, q2) && Implies(q2, q1)
    ensures Matching(docs, q1) == Matching(docs, q2)
    decreases |docs|
  {
    if docs != [] {
      MatchingSameConditions(docs[1..], q1, q2);
      if Matches(docs[0], q1) {
        ImpliesMatches(docs[0], q1, q2);
      }
      if Matches(docs[0], q2) {
        ImpliesMatches(docs[0], q2, q1);
      }
    }
  }

  /** Index of the document `FindOne` returns: the first match in natural order. */
  function FirstMatch(docs: seq<Document>, q: Query): (r: Option<nat>)
    ensures r.None? <==> forall k :: 0 <= k < |docs| ==> !Matches(docs[k], q)
    ensures r.Some? ==> r.value < |docs| && Matches(docs[r.value], q)
    ensures r.Some? ==> forall k :: 0 <= k < r.value ==> !Matches(docs[k], q)
    decreases |docs|
  {
    if docs == [] then None
    else if Matches(docs[0], q) then Some(0)
    else
      match FirstMatch(docs[1..], q)
      case None => None
      case Some(k) => Some(k + 1)
  }

  function Min(a: int, b: int): int { if a <= b then a else b }

  /**
   * `options.SetSkip`/`SetLimit` applied to an ordered result; each option is
   * only set when its argument is positive, so zero or a negative value means
   * "unset".
   */
  function Window<T>(s: seq<T>, skip: int, limit: int): (r: seq<T>)
    ensures |r| <= |s|
  {
    var rest := if skip > 0 then s[Min(skip, |s|)..] else s;
    if limit > 0 && limit < |rest| then rest[..limit] else rest
  }

  /** Where a window starts, and the number of items it keeps. */
  function PageStart(n: nat, skip: int): nat { if skip <= 0 then 0 else Min(skip, n) }

  function PageSize(n: nat, skip: int, limit: int): nat
  {
    var available := n - PageStart(n, skip);
    if limit > 0 then Min(limit, available) else available
  }

  /** A window is the contiguous run of `PageSize` items starting at `PageStart`. */
  lemma WindowIsSlice<T>(s: seq<T>, skip: int, limit: int)
    ensures var start := PageStart(|s|, skip);
            |Window(s, skip, limit)| == PageSize(|s|, skip, limit) &&
            Window(s, skip, limit) == s[start..start + PageSize(|s|, skip, limit)]
  {
  }

  /** ASCII lower-casing, standing for `strings.ToLower` and the strength-1 collation on ASCII ids (non-ASCII case is not modelled). */
  function LowerChar(c: char): (r: char)
    ensures !('A' <= r <= 'Z')
    ensures 'A' <= c <= 'Z' ==> r as int == c as int + 32
    ensures !('A' <= c <= 'Z') ==> r == c
  {
    if 'A' <= c <= 'Z' then (c as int + 32) as char else c
  }

  function Lower(s: string): (r: string)
    ensures |r| == |s|
    ensures forall i :: 0 <= i < |s| ==> r[i] == LowerChar(s[i])
  {
    if s == [] then [] else [LowerChar(s[0])] + Lower(s[1..])
  }

  predicate IsLowerCase(s: string)
  {
    forall i :: 0 <= i < |s| ==> !('A' <= s[i] <= 'Z')
  }

  lemma LowerMakesLowerCase(s: string)
    ensures IsLowerCase(Lower(s))
    ensures Lower(Lower(s)) == Lower(s)
  {
  }

  /** Two strings equal ignoring ASCII case, standing for a strength-1 collation on ASCII ids. */
  predicate SameIgnoringCase(a: string, b: string)
  {
    Lower(a) == Lower(b)
  }

  /** Field `key` holds `id` ignoring ASCII case, as a strength-1 collation compares ASCII ids. */
  predicate HoldsIgnoringCase(d: Document, key: string, id: string)
  {
    key in d && d[key].Str? && SameIgnoringCase(d[key].s, id)
  }

  lemma HoldsImpliesIgnoringCase(d: Document, key: string, id: string)
    requires Holds(d, Eq(key, Str(id)))
    ensures HoldsIgnoringCase(d, key, id)
  {
  }
}
