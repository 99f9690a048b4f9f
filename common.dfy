/**
 * Shared vocabulary of the FTIR processing model: optional values, results,
 * the IEEE classification of a sample read from a file, and JSON values as
 * the configuration files and the batch summary hold them.
 */
module Common {

  datatype Option<+T> = None | Some(value: T)

  datatype Result<+T, +E> = Ok(value: T) | Err(error: E)

  /** A number as the CSV reader delivers it: finite, NaN or an infinity. */
  datatype Sample = Finite(v: real) | NaN | Inf

  predicate AllFinite(s: seq<Sample>)
  {
    forall i :: 0 <= i < |s| ==> s[i].Finite?
  }

  function Values(s: seq<Sample>): (r: seq<real>)
    requires AllFinite(s)
    ensures |r| == |s|
    ensures forall i :: 0 <= i < |s| ==> r[i] == s[i].v
  {
    seq(|s|, i requires 0 <= i < |s| => s[i].v)
  }

  function Samples(r: seq<real>): (s: seq<Sample>)
    ensures |s| == |r| && AllFinite(s)
    ensures forall i :: 0 <= i < |r| ==> s[i] == Finite(r[i])
  {
    seq(|r|, i requires 0 <= i < |r| => Finite(r[i]))
  }

  /** A JSON value as Python's json module reads it. */
  datatype Json =
    | JNull
    | JBool(b: bool)
    | JNum(n: real)
    | JStr(s: string)
    | JArr(items: seq<Json>)
    | JObj(members: map<string, Json>)

  /** Python's truth value of a decoded JSON value. */
  predicate Truthy(j: Json)
  {
    match j
    case JNull => false
    case JBool(b) => b
    case JNum(n) => n != 0.0
    case JStr(s) => s != ""
    case JArr(a) => a != []
    case JObj(m) => m != map[]
  }

  /** `d.get(key)` on a dictionary: the member, or None (JNull) when absent. */
  function Get(m: map<string, Json>, key: string): Json
  {
    if key in m then m[key] else JNull
  }

  /** Pointwise difference `a - b` of two arrays of the same length. */
  function Diff(a: seq<real>, b: seq<real>): (r: seq<real>)
    requires |a| == |b|
    ensures |r| == |a|
    ensures forall i :: 0 <= i < |a| ==> r[i] == a[i] - b[i]
  {
    seq(|a|, i requires 0 <= i < |a| => a[i] - b[i])
  }

  /** `np.zeros(n)` */
  function Zeros(n: nat): (r: seq<real>)
    ensures |r| == n && forall i :: 0 <= i < n ==> r[i] == 0.0
  {
    seq(n, i => 0.0)
  }

  function Min(s: seq<real>): (m: real)
    requires |s| > 0
    ensures m in s
    ensures forall i :: 0 <= i < |s| ==> m <= s[i]
  {
    if |s| == 1 then s[0]
    else
      var rest := Min(s[1..]);
      if s[0] <= rest then s[0] else rest
  }

  function Max(s: seq<real>): (m: real)
    requires |s| > 0
    ensures m in s
    ensures forall i :: 0 <= i < |s| ==> s[i] <= m
  {
    if |s| == 1 then s[0]
    else
      var rest := Max(s[1..]);
      if s[0] >= rest then s[0] else rest
  }

  function Abs(r: real): real
  {
    if r < 0.0 then -r else r
  }

  /** Removing position i shifts every later element down by one. */
  lemma RemoveAt<T>(s: seq<T>, i: nat) returns (r: seq<T>)
    requires i < |s|
    ensures r == s[..i] + s[i + 1..] && |r| == |s| - 1
    ensures forall j :: 0 <= j < i ==> r[j] == s[j]
    ensures forall j :: i <= j < |r| ==> r[j] == s[j + 1]
  {
    r := s[..i] + s[i + 1..];
  }

  /** `f` applied to every element, in order; None as soon as one application fails. */
  function CollectAll<A, B>(f: A -> Option<B>, xs: seq<A>): (r: Option<seq<B>>)
    ensures r.Some? ==> |r.value| == |xs|
  {
    if |xs| == 0 then Some([])
    else
      match CollectAll(f, xs[..|xs| - 1])
      case None => None
      case Some(front) =>
        match f(xs[|xs| - 1])
        case None => None
        case Some(last) => Some(front + [last])
  }

  lemma CollectSnoc<A, B>(f: A -> Option<B>, xs: seq<A>, x: A)
    ensures CollectAll(f, xs + [x]) ==
      match (CollectAll(f, xs), f(x))
      case (Some(front), Some(last)) => Some(front + [last])
      case _ => None
  {
    assert (xs + [x])[..|xs|] == xs;
  }

  /** One failing prefix makes the whole collection fail. */
  lemma {:induction false} CollectPrefixFails<A, B>(f: A -> Option<B>, xs: seq<A>, i: nat)
    requires 0 < i <= |xs| && CollectAll(f, xs[..i]).None?
    ensures CollectAll(f, xs).None?
    decreases |xs| - i
  {
    if i < |xs| {
      assert xs[..i + 1] == xs[..i] + [xs[i]];
      CollectSnoc(f, xs[..i], xs[i]);
      CollectPrefixFails(f, xs, i + 1);
    } else {
      assert xs[..i] == xs;
    }
  }

  /** A successful collection holds, position by position, what `f` gives there. */
  lemma {:induction false} CollectAt<A, B>(f: A -> Option<B>, xs: seq<A>)
    requires CollectAll(f, xs).Some?
    ensures forall i :: 0 <= i < |xs| ==> f(xs[i]) == Some(CollectAll(f, xs).value[i])
    decreases |xs|
  {
    if |xs| > 0 {
      var front := xs[..|xs| - 1];
      CollectAt(f, front);
      assert forall i :: 0 <= i < |front| ==> front[i] == xs[i];
    }
  }

  /** Elements that each succeed collect to the list of their values. */
  lemma {:induction false} CollectOfEach<A, B>(f: A -> Option<B>, xs: seq<A>, rs: seq<B>)
    requires |xs| == |rs|
    requires forall i :: 0 <= i < |xs| ==> f(xs[i]) == Some(rs[i])
    ensures CollectAll(f, xs) == Some(rs)
    decreases |xs|
  {
    if |xs| > 0 {
      var n := |xs| - 1;
      var front, rfront := xs[..n], rs[..n];
      forall i | 0 <= i < n
        ensures f(front[i]) == Some(rfront[i])
      {
        assert front[i] == xs[i] && rfront[i] == rs[i];
      }
      CollectOfEach(f, front, rfront);
      CollectSnoc(f, front, xs[n]);
      assert front + [xs[n]] == xs;
      assert rfront + [rs[n]] == rs;
    }
  }

  lemma CollectUpdate<A, B>(f: A -> Option<B>, xs: seq<A>, k: nat, x: A)
    requires CollectAll(f, xs).Some? && k < |xs| && f(x).Some?
    ensures CollectAll(f, xs[k := x]) == Some(CollectAll(f, xs).value[k := f(x).value])
  {
    CollectAt(f, xs);
    CollectOfEach(f, xs[k := x], CollectAll(f, xs).value[k := f(x).value]);
  }

  lemma CollectRemove<A, B>(f: A -> Option<B>, xs: seq<A>, k: nat)
    requires CollectAll(f, xs).Some? && k < |xs|
    ensures CollectAll(f, xs[..k] + xs[k + 1..])
            == Some(CollectAll(f, xs).value[..k] + CollectAll(f, xs).value[k + 1..])
  {
    var rs := CollectAll(f, xs).value;
    CollectAt(f, xs);
    var xs' := RemoveAt(xs, k);
    var rs' := RemoveAt(rs, k);
    CollectOfEach(f, xs', rs');
  }
}
