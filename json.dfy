/**
 * JavaScript values as this library handles them: the documents it reads from
 * and writes to the store, the bodies of the store's replies, and the rows of
 * view results.
 *
 * An object is an ORDERED sequence of members, because the library compares
 * documents through their serialisations, where member order matters.
 * Assignment (`o[k] = v`) keeps an existing member where it is and appends a
 * new one at the end; `delete o[k]` removes the member.
 */
module Json {

  datatype Json =
    | JUndefined               // JavaScript's `undefined`; also what reading a missing member yields
    | JNull
    | JBool(b: bool)
    | JNum(n: int)             // integral numbers only
    | JStr(s: string)
    | JArr(items: seq<Json>)
    | JObj(members: seq<Member>)

  datatype Member = Member(key: string, value: Json)

  type Props = seq<Member>

  /** The member names of an object, in order. */
  function Keys(p: Props): seq<string>
  {
    if p == [] then [] else [p[0].key] + Keys(p[1..])
  }

  /** Reading `o[k]`: the value of the member named `k`, or `undefined`. */
  function Get(p: Props, k: string): Json
  {
    if p == [] then JUndefined
    else if p[0].key == k then p[0].value
    else Get(p[1..], k)
  }

  /** JavaScript objects never hold two members with the same name. */
  ghost predicate DistinctKeys(p: Props)
  {
    forall i, j :: 0 <= i < j < |p| ==> p[i].key != p[j].key
  }

  /** Assignment `o[k] = v`: an existing member keeps its place, a new one goes last. */
  function Put(p: Props, k: string, v: Json): (r: Props)
    ensures Get(r, k) == v
    ensures forall j :: j != k ==> Get(r, j) == Get(p, j)
  {
    if p == [] then [Member(k, v)]
    else if p[0].key == k then [Member(k, v)] + p[1..]
    else [p[0]] + Put(p[1..], k, v)
  }

  /** An existing name keeps its place among the keys; a new one is appended. */
  lemma {:induction false} PutKeys(p: Props, k: string, v: Json)
    ensures Keys(Put(p, k, v)) == if k in Keys(p) then Keys(p) else Keys(p) + [k]
  {
    if p != [] && p[0].key != k {
      PutKeys(p[1..], k, v);
    }
  }

  /** `delete o[k]`: afterwards no member is named `k`; the others keep their order. */
  function Remove(p: Props, k: string): (r: Props)
    ensures Get(r, k) == JUndefined && k !in Keys(r)
    ensures forall j :: j != k ==> Get(r, j) == Get(p, j)
    ensures forall j :: j in Keys(r) <==> j in Keys(p) && j != k
    ensures k !in Keys(p) ==> r == p
  {
    if p == [] then []
    else if p[0].key == k then Remove(p[1..], k)
    else [p[0]] + Remove(p[1..], k)
  }

  lemma {:induction false} KeysMembership(p: Props, k: string)
    ensures k in Keys(p) <==> exists i :: 0 <= i < |p| && p[i].key == k
    ensures k !in Keys(p) ==> Get(p, k) == JUndefined
  {
    if p != [] {
      KeysMembership(p[1..], k);
      if k in Keys(p[1..]) {
        var i :| 0 <= i < |p[1..]| && p[1..][i].key == k;
        assert p[i + 1].key == k;
      }
      if exists i :: 0 <= i < |p| && p[i].key == k {
        var i :| 0 <= i < |p| && p[i].key == k;
        if i > 0 { assert p[1..][i - 1].key == k; }
      }
    }
  }

  lemma {:induction false} PutKeepsDistinct(p: Props, k: string, v: Json)
    requires DistinctKeys(p)
    ensures DistinctKeys(Put(p, k, v))
  {
    if p != [] && p[0].key != k {
      PutKeepsDistinct(p[1..], k, v);
      PutKeys(p[1..], k, v);
      var r := Put(p, k, v);
      var tail := Put(p[1..], k, v);
      assert r == [p[0]] + tail;
      KeysMembership(p[1..], p[0].key);
      KeysMembership(tail, p[0].key);
      assert p[0].key !in Keys(p[1..]);
      forall i, j | 0 <= i < j < |r| ensures r[i].key != r[j].key {
        if i == 0 {
          assert r[j] == tail[j - 1];
        } else {
          assert r[i] == tail[i - 1] && r[j] == tail[j - 1];
        }
      }
    } else if p != [] {
      var r := Put(p, k, v);
      forall i, j | 0 <= i < j < |r| ensures r[i].key != r[j].key {
        assert r[j] == p[j];
        if i > 0 { assert r[i] == p[i]; } else { assert r[i].key == p[0].key; }
      }
    }
  }

  /** JavaScript truthiness: everything except undefined, null, false, 0 and "" is truthy. */
  predicate Truthy(v: Json)
  {
    match v
    case JUndefined => false
    case JNull => false
    case JBool(b) => b
    case JNum(n) => n != 0
    case JStr(s) => s != ""
    case _ => true
  }

  /** A value JSON can carry: no `undefined` anywhere inside it. */
  predicate IsJson(v: Json)
    decreases v
  {
    match v
    case JUndefined => false
    case JArr(xs) => ItemsAreJson(xs)
    case JObj(p) => MembersAreJson(p)
    case _ => true
  }

  predicate ItemsAreJson(xs: seq<Json>)
    decreases xs
  {
    xs == [] || (IsJson(xs[0]) && ItemsAreJson(xs[1..]))
  }

  predicate MembersAreJson(p: Props)
    decreases p
  {
    p == [] || (assert p[0] in p; IsJson(p[0].value) && MembersAreJson(p[1..]))
  }

  /**
   * `JSON.parse(JSON.stringify(v))` for a value that is not itself undefined:
   * members whose value is undefined disappear and undefined array elements
   * become null. `Clone(JUndefined)` is never needed and is left as it is.
   */
  function Clone(v: Json): Json
    decreases v
  {
    match v
    case JArr(xs) => JArr(CloneItems(xs))
    case JObj(p) => JObj(CloneMembers(p))
    case _ => v
  }

  function CloneItems(xs: seq<Json>): seq<Json>
    decreases xs
  {
    if xs == [] then []
    else [if xs[0].JUndefined? then JNull else Clone(xs[0])] + CloneItems(xs[1..])
  }

  function CloneMembers(p: Props): Props
    decreases p
  {
    if p == [] then []
    else if p[0].value.JUndefined? then CloneMembers(p[1..])
    else assert p[0] in p; [Member(p[0].key, Clone(p[0].value))] + CloneMembers(p[1..])
  }

  /** Whatever a clone is built from, it is a JSON value ... */
  lemma {:induction false} CloneIsJson(v: Json)
    requires !v.JUndefined?
    ensures IsJson(Clone(v))
    decreases v
  {
    match v
    case JArr(xs) => CloneItemsAreJson(xs);
    case JObj(p) => CloneMembersAreJson(p);
    case _ =>
  }

  lemma {:induction false} CloneItemsAreJson(xs: seq<Json>)
    ensures ItemsAreJson(CloneItems(xs))
    decreases xs
  {
    if xs != [] {
      if !xs[0].JUndefined? { CloneIsJson(xs[0]); }
      CloneItemsAreJson(xs[1..]);
    }
  }

  lemma {:induction false} CloneMembersAreJson(p: Props)
    ensures MembersAreJson(CloneMembers(p))
    decreases p
  {
    if p != [] {
      assert p[0] in p;
      if !p[0].value.JUndefined? { CloneIsJson(p[0].value); }
      CloneMembersAreJson(p[1..]);
    }
  }

  /** ... and a JSON value is its own clone. */
  lemma {:induction false} CloneOfJson(v: Json)
    requires IsJson(v)
    ensures Clone(v) == v
    decreases v
  {
    match v
    case JArr(xs) => CloneItemsOfJson(xs);
    case JObj(p) => CloneMembersOfJson(p);
    case _ =>
  }

  lemma {:induction false} CloneItemsOfJson(xs: seq<Json>)
    requires ItemsAreJson(xs)
    ensures CloneItems(xs) == xs
    decreases xs
  {
    if xs != [] {
      CloneOfJson(xs[0]);
      CloneItemsOfJson(xs[1..]);
    }
  }

  lemma {:induction false} CloneMembersOfJson(p: Props)
    requires MembersAreJson(p)
    ensures CloneMembers(p) == p
    decreases p
  {
    if p != [] {
      assert p[0] in p;
      CloneOfJson(p[0].value);
      CloneMembersOfJson(p[1..]);
    }
  }

  predicate IsDigit(c: char)
  {
    '0' <= c <= '9'
  }

  function Digit(d: nat): (c: char)
    requires d < 10
    ensures IsDigit(c)
  {
    "0123456789"[d]
  }

  /** The decimal rendering of a natural number, as `String(n)` gives it. */
  function NatToString(n: nat): (s: string)
    ensures |s| >= 1 && (forall i :: 0 <= i < |s| ==> IsDigit(s[i]))
    ensures n >= 10 ==> |s| >= 2
    decreases n
  {
    if n < 10 then [Digit(n)] else NatToString(n / 10) + [Digit(n % 10)]
  }

  /** `String(i)` for an integral number. */
  function IntToString(i: int): string
  {
    if i < 0 then "-" + NatToString(-i) else NatToString(i)
  }

  lemma {:induction false} NatToStringInjective(m: nat, n: nat)
    requires NatToString(m) == NatToString(n)
    ensures m == n
    decreases m
  {
    var s := NatToString(m);
    if m < 10 && n < 10 {
      assert s[0] == Digit(m) == Digit(n);
    } else if m >= 10 && n >= 10 {
      assert s[|s| - 1] == Digit(m % 10) == Digit(n % 10);
      assert NatToString(m / 10) == s[..|s| - 1] == NatToString(n / 10);
      NatToStringInjective(m / 10, n / 10);
    }
  }

  /**
   * A mutable JavaScript object. The library changes documents in place
   * (assignment and `delete`), and several variables may name one object.
   */
  class JsObject {
    var members: Props

    constructor (p: Props)
      ensures members == p
    {
      members := p;
    }

    /** `this[k] = v` */
    method Set(k: string, v: Json)
      modifies this
      ensures members == Put(old(members), k, v)
    {
      members := Put(members, k, v);
    }

    /** `delete this[k]` */
    method Delete(k: string)
      modifies this
      ensures members == Remove(old(members), k)
    {
      members := Remove(members, k);
    }
  }
}
