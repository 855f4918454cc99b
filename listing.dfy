/**
  `GET /api/tenders` (server.js:226-234): behind `isAuthenticated`, the
  whole `tenders` table in the order of
  `ORDER BY ai_score DESC, created_at DESC`. PostgreSQL puts NULLs first
  under DESC, so a tender without a score heads the list. Rows equal on
  both keys come in an order the database does not fix; the model lists
  them in one particular order, and what it proves holds of any.
*/
module Listing {
  import opened Wrappers
  import opened Schema
  import opened Session

  /** Score `a` comes strictly before score `b` under DESC NULLS FIRST. */
  predicate ScoreAhead(a: Option<int>, b: Option<int>) {
    match (a, b)
    case (None, Some(_)) => true
    case (Some(x), Some(y)) => x > y
    case _ => false
  }

  /** The two ORDER BY keys of a row. */
  datatype SortKey = SortKey(score: Option<int>, createdAt: Timestamp)

  function KeyOf(t: Tender): SortKey {
    SortKey(t.aiScore, t.createdAt)
  }

  /** Key `x` may be listed before key `y`: a higher (or NULL) score, or the
      same score and a creation time no earlier. */
  predicate KeyBefore(x: SortKey, y: SortKey) {
    ScoreAhead(x.score, y.score) || (x.score == y.score && x.createdAt >= y.createdAt)
  }

  /** Row `a` may be listed before row `b`. */
  predicate RanksBefore(a: Tender, b: Tender) {
    KeyBefore(KeyOf(a), KeyOf(b))
  }

  /** Every pair of rows is in ORDER BY order. */
  predicate Ordered(s: seq<Tender>) {
    forall i, j :: 0 <= i < j < |s| ==> RanksBefore(s[i], s[j])
  }

  /** RanksBefore is a total preorder, so an ordered listing exists. */
  lemma RanksBeforeTotal(a: Tender, b: Tender)
    ensures RanksBefore(a, b) || RanksBefore(b, a)
  {
  }

  /** `h` may be listed before every row of `m`. */
  predicate AheadOfAll(h: Tender, m: multiset<Tender>) {
    forall x :: x in m ==> RanksBefore(h, x)
  }

  /** A row ahead of every row of an ordered listing can head it. */
  lemma OrderedCons(h: Tender, rest: seq<Tender>)
    requires Ordered(rest) && AheadOfAll(h, multiset(rest))
    ensures Ordered([h] + rest)
  {
  }

  /** The head of an ordered listing is ahead of its tail. */
  lemma HeadAheadOfTail(s: seq<Tender>)
    requires Ordered(s) && |s| > 0
    ensures AheadOfAll(s[0], multiset(s[1..]))
  {
  }

  /** A row ahead of the head of an ordered listing is ahead of all of it. */
  lemma AheadOfHead(t: Tender, s: seq<Tender>)
    requires Ordered(s) && |s| > 0 && RanksBefore(t, s[0])
    ensures AheadOfAll(t, multiset(s))
  {
  }

  /** Place `t` into an ordered listing. */
  function InsertByRank(t: Tender, s: seq<Tender>): (r: seq<Tender>)
    requires Ordered(s)
    ensures Ordered(r)
    ensures multiset(r) == multiset(s) + multiset{t}
  {
    if s == [] then [t]
    else if RanksBefore(t, s[0]) then
      AheadOfHead(t, s);
      OrderedCons(t, s);
      [t] + s
    else
      var rest := InsertByRank(t, s[1..]);
      HeadAheadOfTail(s);
      RanksBeforeTotal(t, s[0]);
      assert AheadOfAll(s[0], multiset(rest));
      OrderedCons(s[0], rest);
      assert s == [s[0]] + s[1..];
      [s[0]] + rest
  }

  /** The rows of the table in ORDER BY order: a permutation of the table
      that is ordered. */
  function SortByRank(s: seq<Tender>): (r: seq<Tender>)
    ensures Ordered(r)
    ensures multiset(r) == multiset(s)
  {
    if s == [] then []
    else
      assert s == [s[0]] + s[1..];
      InsertByRank(s[0], SortByRank(s[1..]))
  }

  /** The reply of `GET /api/tenders`. */
  datatype TenderList = Unauthorized | Rows(rows: seq<Tender>)

  /** isAuthenticated (server.js:130-135) in front of the query
      (server.js:226-229): 401 for an anonymous session, otherwise every
      tender, ordered. */
  function ListTenders(us: seq<User>, ts: seq<Tender>, s: SessionState): (r: TenderList)
    ensures r.Rows? <==> IsAuthenticated(us, s)
    ensures r.Rows? ==> Ordered(r.rows) && multiset(r.rows) == multiset(ts)
  {
    if IsAuthenticated(us, s) then Rows(SortByRank(ts)) else Unauthorized
  }

  /** What an ordered listing shows a reader: a tender without a score
      before every scored one, a higher score before a lower one, and
      among equal scores the newer before the older. */
  lemma ListingOrderMeaning(r: seq<Tender>, i: nat, j: nat)
    requires Ordered(r) && i < |r| && j < |r|
    ensures r[i].aiScore.None? && r[j].aiScore.Some? ==> i < j
    ensures r[i].aiScore.Some? && r[j].aiScore.Some? && r[i].aiScore.value > r[j].aiScore.value ==> i < j
    ensures r[i].aiScore == r[j].aiScore && r[i].createdAt > r[j].createdAt ==> i < j
  {
  }

  /** The sort keys of a listing, position by position. */
  function Keys(s: seq<Tender>): (k: seq<SortKey>)
    ensures |k| == |s| && forall i :: 0 <= i < |s| ==> k[i] == KeyOf(s[i])
  {
    seq(|s|, i requires 0 <= i < |s| => KeyOf(s[i]))
  }

  predicate KeysOrdered(k: seq<SortKey>) {
    forall i, j :: 0 <= i < j < |k| ==> KeyBefore(k[i], k[j])
  }

  lemma MultisetTail<T>(s: seq<T>)
    requires |s| > 0
    ensures multiset(s[1..]) == multiset(s) - multiset{s[0]}
  {
    assert s == [s[0]] + s[1..];
  }

  lemma MultisetRemoveAt<T>(s: seq<T>, p: nat)
    requires p < |s|
    ensures multiset(s[..p] + s[p+1..]) == multiset(s) - multiset{s[p]}
  {
    assert s == s[..p] + [s[p]] + s[p+1..];
  }

  lemma KeysConcat(x: seq<Tender>, y: seq<Tender>)
    ensures Keys(x + y) == Keys(x) + Keys(y)
  {
  }

  lemma KeysTail(a: seq<Tender>)
    requires |a| > 0
    ensures multiset(Keys(a)) == multiset{KeyOf(a[0])} + multiset(Keys(a[1..]))
  {
    var k := Keys(a);
    assert k == [k[0]] + k[1..];
    assert k[1..] == Keys(a[1..]);
  }

  lemma KeysRemoveAt(b: seq<Tender>, p: nat)
    requires p < |b|
    ensures multiset(Keys(b)) == multiset{KeyOf(b[p])} + multiset(Keys(b[..p] + b[p+1..]))
  {
    assert b == b[..p] + [b[p]] + b[p+1..];
    KeysConcat(b[..p] + [b[p]], b[p+1..]);
    KeysConcat(b[..p], [b[p]]);
    KeysConcat(b[..p], b[p+1..]);
  }

  /** Permuting the rows permutes their keys. */
  lemma {:induction false} KeysOfPermutation(a: seq<Tender>, b: seq<Tender>)
    requires multiset(a) == multiset(b)
    ensures multiset(Keys(a)) == multiset(Keys(b))
    decreases |a|
  {
    if a == [] {
      assert |b| == |multiset(b)| == 0;
    } else {
      assert a[0] in multiset(b);
      var p :| 0 <= p < |b| && b[p] == a[0];
      MultisetTail(a);
      MultisetRemoveAt(b, p);
      KeysOfPermutation(a[1..], b[..p] + b[p+1..]);
      KeysTail(a);
      KeysRemoveAt(b, p);
    }
  }

  /** Distinct keys never tie: KeyBefore is antisymmetric. */
  lemma KeyBeforeAntisymmetric(x: SortKey, y: SortKey)
    requires KeyBefore(x, y) && KeyBefore(y, x)
    ensures x == y
  {
  }

  /** Two ordered key sequences holding the same keys start with the same
      key: each head is ahead of the other's. */
  lemma OrderedHeadsAgree(x: seq<SortKey>, y: seq<SortKey>)
    requires KeysOrdered(x) && KeysOrdered(y) && multiset(x) == multiset(y)
    requires |x| > 0 && |y| > 0
    ensures x[0] == y[0]
  {
    assert x[0] in multiset(y);
    var q :| 0 <= q < |y| && y[q] == x[0];
    assert y[0] in multiset(x);
    var p :| 0 <= p < |x| && x[p] == y[0];
    assert KeyBefore(y[0], x[0]) by {
      if q != 0 { assert KeyBefore(y[0], y[q]); }
    }
    assert KeyBefore(x[0], y[0]) by {
      if p != 0 { assert KeyBefore(x[0], x[p]); }
    }
    KeyBeforeAntisymmetric(x[0], y[0]);
  }

  lemma KeysOrderedTail(x: seq<SortKey>)
    requires KeysOrdered(x) && |x| > 0
    ensures KeysOrdered(x[1..])
  {
  }

  /** Under this total order an ordered sequence of keys is fixed by its
      multiset. */
  lemma {:induction false} OrderedKeysUnique(x: seq<SortKey>, y: seq<SortKey>)
    requires KeysOrdered(x) && KeysOrdered(y) && multiset(x) == multiset(y)
    ensures x == y
    decreases |x|
  {
    assert |x| == |multiset(x)| == |multiset(y)| == |y|;
    if x != [] {
      OrderedHeadsAgree(x, y);
      MultisetTail(x);
      MultisetTail(y);
      KeysOrderedTail(x);
      KeysOrderedTail(y);
      OrderedKeysUnique(x[1..], y[1..]);
      assert x == [x[0]] + x[1..] && y == [y[0]] + y[1..];
    }
  }

  /** Two ordered listings of the same table agree on the sort keys at every
      position: whichever order the database picks among ties, the scores
      and creation times come in the same sequence. */
  lemma OrderedListingsAgreeOnKeys(a: seq<Tender>, b: seq<Tender>)
    requires Ordered(a) && Ordered(b) && multiset(a) == multiset(b)
    ensures Keys(a) == Keys(b)
  {
    KeysOfPermutation(a, b);
    OrderedKeysUnique(Keys(a), Keys(b));
  }
}
