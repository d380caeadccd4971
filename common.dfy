/**
 * Shared vocabulary of the GrantThrive model: optional values, the HTTP
 * outcomes a request handler can end with, and the handler result type.
 */
module Common {

  datatype Option<T> = None | Some(value: T)

  /** Python truthiness of an optional integer: `None` and `0` are both false. */
  predicate Truthy(o: Option<int>)
  {
    o.Some? && o.value != 0
  }

  /** The error outcomes raised as `HTTPException` (or returned by the Flask views). */
  datatype HttpError =
    | Unauthorized      // 401
    | Forbidden         // 403
    | NotFound          // 404
    | BadRequest        // 400
    | Unprocessable     // 422, a request body refused by a schema validator
    | PayloadTooLarge   // 413
    | ServerError       // 500

  /** The numeric status code of an error outcome. */
  function Code(e: HttpError): (c: nat)
    ensures 400 <= c < 600
    ensures c == 403 <==> e == Forbidden
    ensures c == 404 <==> e == NotFound
  {
    match e
    case Unauthorized => 401
    case Forbidden => 403
    case NotFound => 404
    case BadRequest => 400
    case Unprocessable => 422
    case PayloadTooLarge => 413
    case ServerError => 500
  }

  /** What a handler returns: a value, or the error it raises. */
  datatype Result<T> = Ok(value: T) | Fail(error: HttpError)

  /** Integer count of the elements of `s` satisfying `p`. */
  function CountWhere<T>(s: seq<T>, p: T -> bool): (n: nat)
    ensures n <= |s|
  {
    if s == [] then 0 else CountWhere(s[..|s| - 1], p) + (if p(s[|s| - 1]) then 1 else 0)
  }

  /** The positions of `s` whose element satisfies `p`. */
  function IndicesWhere<T>(s: seq<T>, p: T -> bool): set<nat>
  {
    set i: nat | i < |s| && p(s[i])
  }

  /** Counting the elements that satisfy `p` counts their positions. */
  lemma {:induction false} CountWhereIsIndexCount<T>(s: seq<T>, p: T -> bool)
    ensures CountWhere(s, p) == |IndicesWhere(s, p)|
  {
    if s != [] {
      var init := s[..|s| - 1];
      CountWhereIsIndexCount(init, p);
      var last: nat := |s| - 1;
      if p(s[last]) {
        assert IndicesWhere(s, p) == IndicesWhere(init, p) + {last};
        assert last !in IndicesWhere(init, p);
      } else {
        assert IndicesWhere(s, p) == IndicesWhere(init, p);
      }
    }
  }

  /** `(total + limit - 1) // limit`: the number of pages of `limit` rows holding `total` rows. */
  function PageCount(total: nat, limit: nat): (pages: nat)
    requires limit >= 1
    ensures (pages - 1) * limit < total <= pages * limit || (total == 0 && pages == 0)
  {
    (total + limit - 1) / limit
  }

  /** `skip // limit + 1`: the 1-based page on which row `skip` lies. */
  function PageNumber(skip: nat, limit: nat): (page: nat)
    requires limit >= 1
    ensures page >= 1
    ensures (page - 1) * limit <= skip < page * limit
  {
    skip / limit + 1
  }

  /** Sum of `f` over the elements of `s`. */
  function SumOf<T>(s: seq<T>, f: T -> int): int
  {
    if s == [] then 0 else SumOf(s[..|s| - 1], f) + f(s[|s| - 1])
  }

  /** Elements counted under two exclusive conditions are together no more than the sequence holds. */
  lemma {:induction false} CountDisjoint<T>(s: seq<T>, p: T -> bool, q: T -> bool)
    requires forall x :: !(p(x) && q(x))
    ensures CountWhere(s, p) + CountWhere(s, q) <= |s|
  {
    if s != [] {
      CountDisjoint(s[..|s| - 1], p, q);
    }
  }

  /** A subset is no larger than the set that holds it. */
  lemma SubsetCardinality<T>(a: set<T>, b: set<T>)
    requires a <= b
    ensures |a| <= |b|
  {
    assert b == a + (b - a);
  }

  /** `counts.get(key, 0)`. */
  function CountIn<K>(counts: map<K, nat>, key: K): nat
  {
    if key in counts then counts[key] else 0
  }

  /**
   * The counting dictionary a loop builds with `d[k] = d.get(k, 0) + 1`
   * over the keys `key(x)` of the elements of `s`, left to right.
   */
  function Tally<T, K>(s: seq<T>, key: T -> K): map<K, nat>
  {
    if s == [] then map[]
    else
      var counts := Tally(s[..|s| - 1], key);
      var k := key(s[|s| - 1]);
      counts[k := CountIn(counts, k) + 1]
  }

  /** Counting one more element of a sequence bumps its key by one. */
  lemma TallyStep<T, K>(s: seq<T>, key: T -> K, i: nat)
    requires i < |s|
    ensures Tally(s[..i + 1], key) == Tally(s[..i], key)[key(s[i]) := CountIn(Tally(s[..i], key), key(s[i])) + 1]
  {
    assert s[..i + 1][..i] == s[..i];
  }

  /** The counting loop `for x in s: counts[key(x)] += 1` over a `defaultdict(int)`. */
  method CountBy<T, K>(s: seq<T>, key: T -> K) returns (counts: map<K, nat>)
    ensures counts == Tally(s, key)
  {
    counts := map[];
    var i := 0;
    while i < |s|
      invariant 0 <= i <= |s|
      invariant counts == Tally(s[..i], key)
    {
      counts := CountNext(s, key, i, counts);
      i := i + 1;
    }
    assert s[..i] == s;
  }

  /** One turn of a counting loop: `counts[key(s[i])] += 1` moves the tally on by one element. */
  method CountNext<T, K>(s: seq<T>, key: T -> K, i: nat, counts: map<K, nat>) returns (next: map<K, nat>)
    requires i < |s| && counts == Tally(s[..i], key)
    ensures next == Tally(s[..i + 1], key)
  {
    TallyStep(s, key, i);
    var k := key(s[i]);
    next := counts[k := CountIn(counts, k) + 1];
  }

  /** Some element of a non-empty set. */
  ghost function Pick<K>(keys: set<K>): (k: K)
    requires keys != {}
    ensures k in keys
  {
    var k :| k in keys; k
  }

  /** The sum of the values of a counting dictionary. */
  ghost function MapSum<K>(m: map<K, nat>): nat
    decreases |m.Keys|
  {
    if m.Keys == {} then 0
    else
      var k := Pick(m.Keys);
      assert (m - {k}).Keys == m.Keys - {k};
      m[k] + MapSum(m - {k})
  }

  /** Any key can be taken out first: the sum does not depend on the order keys are visited. */
  lemma {:induction false} MapSumRemove<K>(m: map<K, nat>, k: K)
    requires k in m
    ensures MapSum(m) == m[k] + MapSum(m - {k})
    decreases |m.Keys|
  {
    var j := Pick(m.Keys);
    var mj := m - {j};
    assert MapSum(m) == m[j] + MapSum(mj);
    if j != k {
      var mk := m - {k};
      RemoveTwo(m, j, k);
      MapSumRemove(mj, k);
      MapSumRemove(mk, j);
    }
  }

  /** Taking two distinct keys out of a map, in either order. */
  lemma RemoveTwo<K>(m: map<K, nat>, j: K, k: K)
    requires j in m && k in m && j != k
    ensures (m - {j}).Keys == m.Keys - {j} && (m - {k}).Keys == m.Keys - {k}
    ensures k in m - {j} && (m - {j})[k] == m[k] && j in m - {k} && (m - {k})[j] == m[j]
    ensures (m - {j}) - {k} == (m - {k}) - {j}
  {
    assert (m - {j}) - {k} == (m - {k}) - {j};
  }

  /** Each key is counted as often as it occurs, and only keys that occur are present. */
  lemma {:induction false} TallyCount<T, K>(s: seq<T>, key: T -> K, k: K)
    ensures CountIn(Tally(s, key), k) == CountWhere(s, (x: T) => key(x) == k)
    ensures k in Tally(s, key) <==> exists i :: 0 <= i < |s| && key(s[i]) == k
  {
    if s != [] {
      var init := s[..|s| - 1];
      TallyCount(init, key, k);
      if k in Tally(init, key) {
        var i :| 0 <= i < |init| && key(init[i]) == k;
        assert key(s[i]) == k;
      }
      if exists i :: 0 <= i < |s| && key(s[i]) == k {
        var i :| 0 <= i < |s| && key(s[i]) == k;
        if i < |s| - 1 {
          assert key(init[i]) == k;
        }
      }
    }
  }

  /** The counts of a tally add up to the number of elements counted. */
  lemma {:induction false} TallyTotal<T, K>(s: seq<T>, key: T -> K)
    ensures MapSum(Tally(s, key)) == |s|
  {
    if s != [] {
      var init := s[..|s| - 1];
      var k := key(s[|s| - 1]);
      TallyTotal(init, key);
      var before := Tally(init, key);
      var after := Tally(s, key);
      MapSumRemove(after, k);
      assert after - {k} == before - {k};
      if k in before {
        MapSumRemove(before, k);
      } else {
        assert before - {k} == before;
      }
    }
  }

  /** A quotient of a value between `n` and `5n` by a positive `n` lies in 1..5. */
  lemma QuotientBounds(s: real, n: real)
    requires n > 0.0 && n <= s <= 5.0 * n
    ensures 1.0 <= s / n <= 5.0
  {
    var q := s / n;
    assert q * n == s;
    if q < 1.0 {
      ScaleStrict(q, 1.0, n);
    }
    if q > 5.0 {
      ScaleStrict(5.0, q, n);
    }
  }

  /** Scaling by a positive factor keeps a strict order. */
  lemma ScaleStrict(a: real, b: real, n: real)
    requires a < b && n > 0.0
    ensures a * n < b * n
  {
    assert (b - a) * n > 0.0;
    assert (b - a) * n == b * n - a * n;
  }

  /** What a loop has produced after its first `n` iterations, iteration `k` turning `xs[k]` into `step(xs[k], k)`. */
  ghost function StepPrefix<A, B>(xs: seq<A>, step: (A, nat) -> B, n: nat): seq<B>
    requires n <= |xs|
  {
    if n == 0 then [] else StepPrefix(xs, step, n - 1) + [step(xs[n - 1], n - 1)]
  }

  /** Iteration `j` produced the entry for `xs[j]`. */
  lemma {:induction false} StepPrefixAt<A, B>(xs: seq<A>, step: (A, nat) -> B, n: nat)
    requires n <= |xs|
    ensures |StepPrefix(xs, step, n)| == n
    ensures forall j :: 0 <= j < n ==> StepPrefix(xs, step, n)[j] == step(xs[j], j)
  {
    if n > 0 {
      StepPrefixAt(xs, step, n - 1);
    }
  }

  /** The supplied value of a field, or the current one when it was not supplied. */
  function Supplied<T>(o: Option<T>, current: T): (v: T)
    ensures o.Some? ==> v == o.value
    ensures o.None? ==> v == current
  {
    if o.Some? then o.value else current
  }

  /** A set that gains exactly one new element grows by one. */
  lemma FreshInsertCard<T>(before: set<T>, after: set<T>, k: T)
    requires k !in before && forall x :: x in after <==> x in before || x == k
    ensures |after| == |before| + 1
  {
    assert after == before + {k};
  }
}
