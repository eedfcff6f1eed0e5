/** Values shared by the gateway and the three backend services: optional
    values, JSON bodies, HTTP replies, and the order-preserving filter that
    every listing endpoint is built from. */
module Common {

  datatype Option<T> = None | Some(value: T)

  /** A JSON value as carried in request and response bodies.
      Numbers are integers (money is kept in cents). */
  datatype Json =
    | JNull
    | JBool(b: bool)
    | JNum(n: int)
    | JStr(s: string)
    | JArr(elems: seq<Json>)
    | JObj(fields: seq<(string, Json)>)

  /** An HTTP reply: a status code with either the success value or an error body. */
  datatype Reply<T> = Ok(status: int, value: T) | Err(status: int, body: Json)

  /** The `{error: msg}` body every service uses for its error replies. */
  function ErrorBody(msg: string): Json {
    JObj([("error", JStr(msg))])
  }

  function Error<T>(status: int, msg: string): Reply<T> {
    Err(status, ErrorBody(msg))
  }

  /** A string-valued request field that is present and not empty: the test
      `if (x)` in JavaScript and `if x` in Python make on a string. */
  predicate Given(x: Option<string>) {
    x.Some? && x.value != ""
  }

  /** `s.startsWith(prefix)` (JavaScript, Python). */
  predicate StartsWith(s: string, prefix: string) {
    |prefix| <= |s| && s[..|prefix|] == prefix
  }

  /** `x || d` (JavaScript) on a string field: an absent or empty value gives `d`. */
  function OrElse(x: Option<string>, d: string): string {
    if Given(x) then x.value else d
  }

  /** `d.get(key, default)` (Python): only an absent key gives the default. */
  function GetOr<T>(x: Option<T>, d: T): T {
    match x
    case Some(v) => v
    case None => d
  }

  /** The elements of `s` that satisfy `keep`, in their original order:
      `Array.prototype.filter` in JavaScript, a filtering list comprehension in Python. */
  function Filter<T>(s: seq<T>, keep: T -> bool): (r: seq<T>)
    ensures |r| <= |s|
    ensures forall x :: x in r ==> x in s && keep(x)
  {
    if s == [] then []
    else if keep(s[0]) then [s[0]] + Filter(s[1..], keep)
    else Filter(s[1..], keep)
  }

  /** Nothing that satisfies the predicate is dropped. */
  lemma {:induction false} FilterComplete<T>(s: seq<T>, keep: T -> bool, x: T)
    requires x in s && keep(x)
    ensures x in Filter(s, keep)
  {
    if s[0] != x {
      FilterComplete(s[1..], keep, x);
    }
  }

  /** Filtering distributes over concatenation: the result keeps the order of `s`. */
  lemma {:induction false} FilterAppend<T>(a: seq<T>, b: seq<T>, keep: T -> bool)
    ensures Filter(a + b, keep) == Filter(a, keep) + Filter(b, keep)
  {
    if a == [] {
      assert a + b == b;
    } else {
      assert (a + b)[0] == a[0];
      assert (a + b)[1..] == a[1..] + b;
      FilterAppend(a[1..], b, keep);
    }
  }

  /** Two filters applied one after the other equal one filter by their conjunction. */
  lemma {:induction false} FilterTwice<T>(s: seq<T>, p: T -> bool, q: T -> bool, both: T -> bool)
    requires forall x :: both(x) == (p(x) && q(x))
    ensures Filter(Filter(s, p), q) == Filter(s, both)
  {
    if s != [] {
      FilterTwice(s[1..], p, q, both);
      if p(s[0]) {
        assert Filter(s, p) == [s[0]] + Filter(s[1..], p);
        assert Filter(s, p)[1..] == Filter(s[1..], p);
      }
    }
  }

  /** A filter that keeps everything is the identity: an absent filter does not restrict. */
  lemma {:induction false} FilterKeepAll<T>(s: seq<T>, keep: T -> bool)
    requires forall x :: keep(x)
    ensures Filter(s, keep) == s
  {
    if s != [] {
      FilterKeepAll(s[1..], keep);
      assert [s[0]] + s[1..] == s;
    }
  }

  /** Filters by predicates that agree everywhere give the same result. */
  lemma {:induction false} FilterSame<T>(s: seq<T>, f: T -> bool, g: T -> bool)
    requires forall x :: f(x) == g(x)
    ensures Filter(s, f) == Filter(s, g)
  {
    if s != [] {
      FilterSame(s[1..], f, g);
    }
  }

  /** The index of the first element satisfying `keep`, or -1 when none does:
      `Array.prototype.findIndex` in JavaScript, `next(...)` over a list in Python. */
  function IndexWhere<T>(s: seq<T>, keep: T -> bool): (i: int)
    ensures -1 <= i < |s|
    ensures 0 <= i ==> keep(s[i]) && forall j :: 0 <= j < i ==> !keep(s[j])
    ensures i == -1 <==> forall j :: 0 <= j < |s| ==> !keep(s[j])
  {
    if s == [] then -1
    else if keep(s[0]) then 0
    else
      var k := IndexWhere(s[1..], keep);
      if k == -1 then -1 else k + 1
  }
}
