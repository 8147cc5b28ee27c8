/** Values and sequence helpers shared by every part of the model: optional
    values, JavaScript numbers restricted to integers with an explicit NaN,
    JavaScript truthiness, the session a request carries, and the pure
    sequence operations that database queries are built from. */
module Common {

  datatype Option<+T> = None | Some(value: T)

  datatype Result<+T, +E> = Ok(value: T) | Err(error: E)

  /** A JavaScript number holding an amount in minor currency units.
      NaN is kept as its own case because the source tests for it. */
  datatype Number = Num(value: int) | NaN

  /** `a + b` on JavaScript numbers: NaN absorbs everything. */
  function Add(a: Number, b: Number): Number
  {
    if a.Num? && b.Num? then Num(a.value + b.value) else NaN
  }

  /** `a - b` on JavaScript numbers. */
  function Sub(a: Number, b: Number): Number
  {
    if a.Num? && b.Num? then Num(a.value - b.value) else NaN
  }

  /** `n > 0` on a JavaScript number; false for NaN. */
  predicate Positive(n: Number)
  {
    n.Num? && n.value > 0
  }

  /** JavaScript truthiness of a possibly absent number: undefined, 0 and NaN are falsy. */
  predicate TruthyNumber(n: Option<Number>)
  {
    n.Some? && n.value.Num? && n.value.value != 0
  }

  /** JavaScript truthiness of a possibly absent string: undefined and "" are falsy. */
  predicate Truthy(s: Option<string>)
  {
    s.Some? && s.value != ""
  }

  /** `a || b` where `a` is a possibly absent string. */
  function OrElse(a: Option<string>, b: string): string
  {
    if Truthy(a) then a.value else b
  }

  /** The user part of an authenticated session. `isAdmin` may be absent. */
  datatype SessionUser = SessionUser(id: string, isAdmin: Option<bool>)

  /** A session as the authentication layer hands it over; it may lack a user. */
  datatype Session = Session(user: Option<SessionUser>)

  /** `session && session.user`: the check every API route starts with. */
  predicate SignedIn(session: Option<Session>)
  {
    session.Some? && session.value.user.Some?
  }

  function SessionUserOf(session: Option<Session>): SessionUser
    requires SignedIn(session)
  {
    session.value.user.value
  }

  /** `user.isAdmin` read as a JavaScript condition: absent counts as false. */
  predicate IsAdmin(u: SessionUser)
  {
    u.isAdmin == Some(true)
  }

  // ---------------------------------------------------------------- strings

  predicate StartsWith(s: string, prefix: string)
  {
    |prefix| <= |s| && s[..|prefix|] == prefix
  }

  function UpperChar(c: char): char
  {
    if 'a' <= c <= 'z' then (c as int - 32) as char else c
  }

  /** `s.toUpperCase()`, restricted to ASCII letters. */
  function Upper(s: string): (r: string)
    ensures |r| == |s|
    ensures forall i :: 0 <= i < |s| ==> r[i] == UpperChar(s[i])
  {
    if s == [] then [] else [UpperChar(s[0])] + Upper(s[1..])
  }

  /** `s.split(c)[0]`: the part of `s` before the first `c`, or all of `s`. */
  function BeforeFirst(s: string, c: char): (r: string)
    ensures r <= s
    ensures c !in r
    ensures |r| < |s| ==> s[|r|] == c
  {
    if s == [] then [] else if s[0] == c then [] else [s[0]] + BeforeFirst(s[1..], c)
  }

  function DigitChar(d: int): char
    requires 0 <= d < 10
  {
    ('0' as int + d) as char
  }

  function NatText(n: nat): string
  {
    if n < 10 then [DigitChar(n)] else NatText(n / 10) + [DigitChar(n % 10)]
  }

  /** `String(n)` for a number in the model's integer units. */
  function NumberText(n: Number): string
  {
    match n
    case NaN => "NaN"
    case Num(v) => if v < 0 then "-" + NatText(-v) else NatText(v)
  }

  // ------------------------------------------------------ rows and queries

  /** No two rows share a key: what a unique index on a table guarantees. */
  predicate UniqueBy<T, K(==)>(s: seq<T>, key: T -> K)
  {
    forall i, j :: 0 <= i < j < |s| ==> key(s[i]) != key(s[j])
  }

  predicate HasKey<T, K(==)>(s: seq<T>, key: T -> K, k: K)
  {
    exists i :: 0 <= i < |s| && key(s[i]) == k
  }

  /** Number of rows whose key is `k`. */
  function CountKey<T, K(==)>(s: seq<T>, key: T -> K, k: K): (n: nat)
    ensures n <= |s|
    ensures n == 0 <==> !HasKey(s, key, k)
  {
    if s == [] then 0
    else
      var init := s[..|s| - 1];
      assert forall i :: 0 <= i < |init| ==> init[i] == s[i];
      CountKey(init, key, k) + (if key(s[|s| - 1]) == k then 1 else 0)
  }

  /** The position of the first row with key `k`, or -1 if there is none. */
  function IndexOfKey<T, K(==)>(s: seq<T>, key: T -> K, k: K): (i: int)
    ensures -1 <= i < |s|
    ensures i >= 0 ==> key(s[i]) == k && forall j :: 0 <= j < i ==> key(s[j]) != k
    ensures i < 0 <==> !HasKey(s, key, k)
  {
    if s == [] then -1
    else if key(s[0]) == k then 0
    else
      var j := IndexOfKey(s[1..], key, k);
      if j < 0 then -1 else j + 1
  }

  /** `findUnique` on a table: the row with key `k`, if any. */
  function FindByKey<T, K(==)>(s: seq<T>, key: T -> K, k: K): (r: Option<T>)
    ensures r.Some? <==> HasKey(s, key, k)
    ensures r.Some? ==> r.value in s && key(r.value) == k
  {
    var i := IndexOfKey(s, key, k);
    if i < 0 then None else Some(s[i])
  }

  lemma {:induction false} UniqueCountAtMostOne<T, K>(s: seq<T>, key: T -> K, k: K)
    requires UniqueBy(s, key)
    ensures CountKey(s, key, k) <= 1
  {
    if s != [] {
      var init := s[..|s| - 1];
      assert UniqueBy(init, key) by {
        forall i, j | 0 <= i < j < |init| ensures key(init[i]) != key(init[j]) {
          assert init[i] == s[i] && init[j] == s[j];
        }
      }
      UniqueCountAtMostOne(init, key, k);
      if key(s[|s| - 1]) == k {
        assert !HasKey(init, key, k) by {
          forall i | 0 <= i < |init| ensures key(init[i]) != k {
            assert init[i] == s[i];
          }
        }
      }
    }
  }

  lemma AppendKeepsUnique<T, K>(s: seq<T>, key: T -> K, x: T)
    requires UniqueBy(s, key)
    requires !HasKey(s, key, key(x))
    ensures UniqueBy(s + [x], key)
  {
    var t := s + [x];
    forall i, j | 0 <= i < j < |t| ensures key(t[i]) != key(t[j]) {
      if j == |s| {
        assert t[i] == s[i];
      } else {
        assert t[i] == s[i] && t[j] == s[j];
      }
    }
  }

  lemma AppendHasKey<T, K>(s: seq<T>, key: T -> K, x: T, k: K)
    ensures HasKey(s + [x], key, k) <==> HasKey(s, key, k) || key(x) == k
  {
    var t := s + [x];
    if HasKey(s, key, k) {
      var i :| 0 <= i < |s| && key(s[i]) == k;
      assert t[i] == s[i];
    }
    if HasKey(t, key, k) {
      var i :| 0 <= i < |t| && key(t[i]) == k;
      if i < |s| { assert t[i] == s[i]; }
    }
    assert t[|s|] == x;
  }

  /** After appending a row with a new key, looking that key up finds the row. */
  lemma FindAfterAppend<T, K>(s: seq<T>, key: T -> K, x: T)
    requires !HasKey(s, key, key(x))
    ensures IndexOfKey(s + [x], key, key(x)) == |s|
    ensures FindByKey(s + [x], key, key(x)) == Some(x)
  {
    AppendHasKey(s, key, x, key(x));
  }

  /** The rows satisfying `p`, in their original order (`findMany` with a `where`). */
  function Filter<T(!new)>(s: seq<T>, p: T -> bool): (r: seq<T>)
    ensures |r| <= |s|
    ensures forall x :: x in r <==> x in s && p(x)
    ensures forall x :: multiset(r)[x] == if p(x) then multiset(s)[x] else 0
  {
    if s == [] then []
    else
      var init := s[..|s| - 1];
      var last := s[|s| - 1];
      assert s == init + [last];
      var r := Filter(init, p);
      if p(last) then r + [last] else r
  }

  /** Insert `x` into a sequence sorted by decreasing `key`. */
  function InsertDesc<T(!new)>(x: T, s: seq<T>, key: T -> int): (r: seq<T>)
    requires SortedDesc(s, key)
    ensures multiset(r) == multiset(s) + multiset{x}
    ensures forall y :: y in r ==> y == x || y in s
    ensures SortedDesc(r, key)
  {
    if s == [] then [x]
    else if key(x) >= key(s[0]) then [x] + s
    else
      var tail := s[1..];
      var rest := InsertDesc(x, tail, key);
      assert s == [s[0]] + tail;
      assert forall y :: y in tail ==> key(y) <= key(s[0]) by {
        forall y | y in tail ensures key(y) <= key(s[0]) {
          var j :| 0 <= j < |tail| && tail[j] == y;
          assert s[j + 1] == y;
        }
      }
      SortedCons(s[0], rest, key);
      [s[0]] + rest
  }

  lemma SortedCons<T>(a: T, s: seq<T>, key: T -> int)
    requires SortedDesc(s, key)
    requires forall y :: y in s ==> key(y) <= key(a)
    ensures SortedDesc([a] + s, key)
  {
    var r := [a] + s;
    forall i, j | 0 <= i < j < |r| ensures key(r[i]) >= key(r[j]) {
      assert r[j] == s[j - 1];
      if i > 0 { assert r[i] == s[i - 1]; }
    }
  }

  predicate SortedDesc<T>(s: seq<T>, key: T -> int)
  {
    forall i, j :: 0 <= i < j < |s| ==> key(s[i]) >= key(s[j])
  }

  /** `orderBy: { key: 'desc' }`: a permutation of `s` ordered by decreasing `key`. */
  function SortDesc<T(!new)>(s: seq<T>, key: T -> int): (r: seq<T>)
    ensures multiset(r) == multiset(s)
    ensures SortedDesc(r, key)
  {
    if s == [] then []
    else
      assert s == [s[0]] + s[1..];
      InsertDesc(s[0], SortDesc(s[1..], key), key)
  }

  /** The sum of `f` over `s`, accumulated from the front as a `for` loop does. */
  function SumBy<T>(s: seq<T>, f: T -> int): int
  {
    if s == [] then 0 else SumBy(s[..|s| - 1], f) + f(s[|s| - 1])
  }

  lemma SumBySnoc<T>(s: seq<T>, x: T, f: T -> int)
    ensures SumBy(s + [x], f) == SumBy(s, f) + f(x)
  {
    assert (s + [x])[..|s|] == s;
  }

  lemma {:induction false} SumByConcat<T>(a: seq<T>, b: seq<T>, f: T -> int)
    ensures SumBy(a + b, f) == SumBy(a, f) + SumBy(b, f)
    decreases |b|
  {
    if b == [] {
      assert a + b == a;
    } else {
      var init := b[..|b| - 1];
      var last := b[|b| - 1];
      assert b == init + [last];
      assert a + b == (a + init) + [last];
      SumBySnoc(a + init, last, f);
      SumBySnoc(init, last, f);
      SumByConcat(a, init, f);
    }
  }

  /** A sum does not depend on the order of its terms. */
  lemma {:induction false} SumByPermutation<T>(s: seq<T>, t: seq<T>, f: T -> int)
    requires multiset(s) == multiset(t)
    ensures SumBy(s, f) == SumBy(t, f)
    decreases |s|
  {
    if s == [] {
      assert |t| == |multiset(t)| == 0;
    } else {
      var init := s[..|s| - 1];
      var x := s[|s| - 1];
      assert s == init + [x];
      assert x in multiset(t);
      var j :| 0 <= j < |t| && t[j] == x;
      var before, after := t[..j], t[j + 1..];
      assert t == before + [x] + after;
      var rest := before + after;
      assert multiset(t) == multiset(before) + multiset{x} + multiset(after);
      assert multiset(s) == multiset(init) + multiset{x};
      assert multiset(rest) == multiset(before) + multiset(after);
      assert multiset(init) == multiset(s) - multiset{x};
      assert multiset(rest) == multiset(t) - multiset{x};
      SumByPermutation(init, rest, f);
      SumBySnoc(init, x, f);
      SumByConcat(before + [x], after, f);
      SumBySnoc(before, x, f);
      SumByConcat(before, after, f);
    }
  }

  /** Dropping rows on which `f` is zero does not change the sum. */
  lemma {:induction false} SumByFilter<T(!new)>(s: seq<T>, p: T -> bool, f: T -> int)
    requires forall x :: !p(x) ==> f(x) == 0
    ensures SumBy(Filter(s, p), f) == SumBy(s, f)
  {
    if s != [] {
      var init := s[..|s| - 1];
      var last := s[|s| - 1];
      SumByFilter(init, p, f);
      if p(last) {
        SumBySnoc(Filter(init, p), last, f);
      }
    }
  }
}
