/**
 * `JSON.stringify` on the values of module Json, without spacing:
 * members holding `undefined` are left out of objects, `undefined` array
 * elements print as `null`, and strings are escaped the way ECMAScript's
 * QuoteJSONString escapes them.
 *
 * The library decides whether an update is a no-op by comparing two
 * serialisations (lib/attempt.js:94). `StringifyInjective` shows that, on
 * values without `undefined`, equal serialisations mean equal values, member
 * order included.
 */
module JsonText {
  import opened Json

  function Hex(d: nat): char
    requires d < 16
  {
    "0123456789abcdef"[d]
  }

  /** How one character is written inside a JSON string literal. */
  function EscapeChar(c: char): string
  {
    var n := c as int;
    if c == '"' then ['\\', '"']
    else if c == '\\' then ['\\', '\\']
    else if n == 8 then ['\\', 'b']
    else if n == 9 then ['\\', 't']
    else if n == 10 then ['\\', 'n']
    else if n == 12 then ['\\', 'f']
    else if n == 13 then ['\\', 'r']
    else if n < 32 then ['\\', 'u', '0', '0', Hex(n / 16), Hex(n % 16)]
    else [c]
  }

  function Escape(s: string): string
  {
    if s == [] then [] else EscapeChar(s[0]) + Escape(s[1..])
  }

  function Quote(s: string): string
  {
    ['"'] + Escape(s) + ['"']
  }

  function Stringify(v: Json): string
    decreases v
  {
    match v
    case JUndefined => "null"   // as an array element; object members holding it are skipped
    case JNull => "null"
    case JBool(b) => if b then "true" else "false"
    case JNum(n) => IntToString(n)
    case JStr(s) => Quote(s)
    case JArr(xs) => "[" + ItemsText(xs, true) + "]"
    case JObj(p) => "{" + MembersText(p, true) + "}"
  }

  function Separator(first: bool): string
  {
    if first then "" else ","
  }

  function ItemsText(xs: seq<Json>, first: bool): string
    decreases xs
  {
    if xs == [] then ""
    else Separator(first) + Stringify(xs[0]) + ItemsText(xs[1..], false)
  }

  function MembersText(p: Props, first: bool): string
    decreases p
  {
    if p == [] then ""
    else if p[0].value.JUndefined? then MembersText(p[1..], first)
    else
      assert p[0] in p;
      Separator(first) + Quote(p[0].key) + ":" + Stringify(p[0].value) + MembersText(p[1..], false)
  }

  /** What may follow a value inside a serialisation: nothing, a comma or a closing bracket. */
  predicate Stops(s: string)
  {
    s == [] || s[0] == ',' || s[0] == ']' || s[0] == '}'
  }

  /** Dropping a common prefix. */
  lemma {:induction false} CancelPrefix(p: string, x: string, y: string)
    requires p + x == p + y
    ensures x == y
  {
    assert x == (p + x)[|p|..];
    assert y == (p + y)[|p|..];
  }

  /** The first character of a serialisation tells which kind of value it is. */
  lemma {:induction false} FirstChar(v: Json)
    ensures |Stringify(v)| > 0
    ensures var c := Stringify(v)[0];
      match v
      case JUndefined => c == 'n'
      case JNull => c == 'n'
      case JBool(b) => c == if b then 't' else 'f'
      case JNum(n) => c == '-' || IsDigit(c)
      case JStr(_) => c == '"'
      case JArr(_) => c == '['
      case JObj(_) => c == '{'
  {
    if v.JNum? {
      SignChar(v.n);
    }
  }

  /** The length of the run of digits a string starts with. */
  function DigitRun(u: string): nat
  {
    if u != [] && IsDigit(u[0]) then 1 + DigitRun(u[1..]) else 0
  }

  lemma {:induction false} DigitRunOf(a: string, s: string)
    requires forall i :: 0 <= i < |a| ==> IsDigit(a[i])
    requires s == [] || !IsDigit(s[0])
    ensures DigitRun(a + s) == |a|
  {
    if a != [] {
      assert (a + s)[0] == a[0];
      assert (a + s)[1..] == a[1..] + s;
      DigitRunOf(a[1..], s);
    } else {
      assert a + s == s;
    }
  }

  /** `u` is the digits of `x` followed by text that does not start with a digit. */
  predicate NatText(u: string, x: nat, s: string)
  {
    u == NatToString(x) + s && (s == [] || !IsDigit(s[0]))
  }

  /** Two non-negative numbers followed by non-digits that read as the same text `u`. */
  lemma {:induction false} NatUnique(x: nat, y: nat, s: string, t: string, u: string)
    requires NatText(u, x, s) && NatText(u, y, t)
    ensures x == y && s == t
  {
    var a, b := NatToString(x), NatToString(y);
    DigitRunOf(a, s);
    DigitRunOf(b, t);
    assert a == u[..|a|] == b;
    assert s == u[|a|..] == t;
    NatToStringInjective(x, y);
  }

  lemma {:induction false} SignChar(m: int)
    ensures m < 0 ==> IntToString(m) == "-" + NatToString(-m)
    ensures m >= 0 ==> IntToString(m) == NatToString(m)
    ensures |IntToString(m)| > 0
    ensures IntToString(m)[0] == '-' <==> m < 0
    ensures IntToString(m)[0] == '-' || IsDigit(IntToString(m)[0])
  {
    if m >= 0 {
      assert IsDigit(NatToString(m)[0]);
    }
  }

  lemma {:induction false} IntShape(m: int, s: string)
    ensures m < 0 ==> IntToString(m) + s == "-" + (NatToString(-m) + s)
    ensures m >= 0 ==> IntToString(m) + s == NatToString(m) + s
    ensures (IntToString(m) + s)[0] == '-' <==> m < 0
  {
    SignChar(m);
  }

  lemma {:induction false} NumUnique(m: int, n: int, s: string, t: string)
    requires IntToString(m) + s == IntToString(n) + t
    requires Stops(s) && Stops(t)
    ensures m == n && s == t
  {
    SameSign(m, n, s, t);
    StopsNoDigit(s);
    StopsNoDigit(t);
    if m < 0 {
      NumUniqueNegative(m, n, s, t, IntToString(m) + s);
    } else {
      NumUniqueNonNegative(m, n, s, t, IntToString(m) + s);
    }
  }

  lemma {:induction false} NumUniqueNegative(m: int, n: int, s: string, t: string, u: string)
    requires m < 0 && n < 0 && u == IntToString(m) + s && u == IntToString(n) + t
    requires s == [] || !IsDigit(s[0])
    requires t == [] || !IsDigit(t[0])
    ensures m == n && s == t
  {
    var v := u[1..];
    var x: nat, y: nat := -m, -n;
    DropSign(m, x, s, u, v);
    DropSign(n, y, t, u, v);
    NatUnique(x, y, s, t, v);
  }

  lemma {:induction false} NumUniqueNonNegative(m: int, n: int, s: string, t: string, u: string)
    requires m >= 0 && n >= 0 && u == IntToString(m) + s && u == IntToString(n) + t
    requires s == [] || !IsDigit(s[0])
    requires t == [] || !IsDigit(t[0])
    ensures m == n && s == t
  {
    KeepSign(m, s, u);
    KeepSign(n, t, u);
    NatUnique(m, n, s, t, u);
  }

  lemma {:induction false} SameSign(m: int, n: int, s: string, t: string)
    requires IntToString(m) + s == IntToString(n) + t
    ensures m < 0 <==> n < 0
  {
    IntShape(m, s);
    IntShape(n, t);
  }

  lemma {:induction false} StopsNoDigit(s: string)
    requires Stops(s)
    ensures s == [] || !IsDigit(s[0])
  {
  }

  /** A non-negative number is its digits. */
  lemma {:induction false} KeepSign(m: int, s: string, u: string)
    requires m >= 0 && u == IntToString(m) + s && (s == [] || !IsDigit(s[0]))
    ensures NatText(u, m, s)
  {
  }

  /** Past its minus sign, a negative number is the digits of its magnitude. */
  lemma {:induction false} DropSign(m: int, x: nat, s: string, u: string, v: string)
    requires m < 0 && x == -m && u == IntToString(m) + s && |u| > 0 && v == u[1..] && (s == [] || !IsDigit(s[0]))
    ensures NatText(v, x, s)
  {
    var a := NatToString(x);
    assert IntToString(m) == ['-'] + a;
    assert u == ['-'] + (a + s);
    assert v == a + s;
  }

  lemma {:induction false} EscapeCharShape(c: char)
    ensures |EscapeChar(c)| > 0 && EscapeChar(c)[0] != '"'
    ensures EscapeChar(c)[0] == '\\' <==> |EscapeChar(c)| > 1
  {
  }

  lemma {:induction false} EscapeCharInjective(c: char, d: char)
    requires EscapeChar(c) == EscapeChar(d)
    ensures c == d
  {
    var e := EscapeChar(c);
    if |e| == 6 {
      var n, m := c as int, d as int;
      assert Hex(n / 16) == e[4] == Hex(m / 16);
      assert Hex(n % 16) == e[5] == Hex(m % 16);
      assert n / 16 == m / 16 && n % 16 == m % 16;
    }
  }

  /** An escaped character has a known length: 1, 2 or 6. */
  function EscapeLength(u: string): nat
  {
    if u == [] || u[0] != '\\' then 1
    else if |u| > 1 && u[1] == 'u' then 6
    else 2
  }

  lemma {:induction false} EscapeLengthOf(c: char, s: string)
    ensures EscapeLength(EscapeChar(c) + s) == |EscapeChar(c)|
  {
    var e := EscapeChar(c);
    EscapeCharShape(c);
    assert (e + s)[0] == e[0];
    if |e| > 1 {
      assert (e + s)[1] == e[1];
    }
  }

  lemma {:induction false} EscapeCharUnique(c: char, d: char, s: string, t: string)
    requires EscapeChar(c) + s == EscapeChar(d) + t
    ensures c == d && s == t
  {
    var e, f := EscapeChar(c), EscapeChar(d);
    var u := e + s;
    EscapeLengthOf(c, s);
    EscapeLengthOf(d, t);
    assert e == u[..|e|] == f;
    assert s == u[|e|..] == t;
    EscapeCharInjective(c, d);
  }

  lemma {:induction false} EscapeSplit(x: string, s: string)
    ensures x == [] ==> (Escape(x) + ['"'] + s)[0] == '"' && (Escape(x) + ['"'] + s)[1..] == s
    ensures x != [] ==> Escape(x) + ['"'] + s == EscapeChar(x[0]) + (Escape(x[1..]) + ['"'] + s)
    ensures x != [] ==> (Escape(x) + ['"'] + s)[0] != '"'
  {
    if x != [] {
      var e := EscapeChar(x[0]);
      var r := Escape(x[1..]) + ['"'] + s;
      assert Escape(x) == e + Escape(x[1..]);
      assert Escape(x) + ['"'] + s == e + r;
      EscapeCharShape(x[0]);
      assert (e + r)[0] == e[0];
    }
  }

  lemma {:induction false} EscapeUnique(x: string, y: string, s: string, t: string)
    requires Escape(x) + ['"'] + s == Escape(y) + ['"'] + t
    ensures x == y && s == t
  {
    EscapeSplit(x, s);
    EscapeSplit(y, t);
    if x != [] {
      EscapeCharUnique(x[0], y[0], Escape(x[1..]) + ['"'] + s, Escape(y[1..]) + ['"'] + t);
      EscapeUnique(x[1..], y[1..], s, t);
    }
  }

  /** How the serialisation of a compound value, followed by `s`, splits up. */
  lemma {:induction false} StringifyShape(v: Json, s: string)
    ensures v.JStr? ==> Stringify(v) + s == ['"'] + (Escape(v.s) + ['"'] + s)
    ensures v.JArr? ==> Stringify(v) + s == "[" + (ItemsText(v.items, true) + "]" + s)
    ensures v.JObj? ==> Stringify(v) + s == "{" + (MembersText(v.members, true) + "}" + s)
  {
  }

  lemma {:induction false} ItemsShape(xs: seq<Json>, first: bool, s: string)
    ensures var u := ItemsText(xs, first) + "]" + s;
      |u| > 0 && (u[0] == ']' <==> xs == []) && (xs == [] ==> u[1..] == s)
      && (!first ==> Stops(u))
    ensures xs != [] ==>
      ItemsText(xs, first) + "]" + s
      == Separator(first) + (Stringify(xs[0]) + (ItemsText(xs[1..], false) + "]" + s))
  {
    var u := ItemsText(xs, first) + "]" + s;
    if xs != [] {
      var r := ItemsText(xs[1..], false) + "]" + s;
      assert u == Separator(first) + (Stringify(xs[0]) + r);
      FirstChar(xs[0]);
      if first {
        assert u[0] == Stringify(xs[0])[0];
      } else {
        assert u[0] == ',';
      }
    }
  }

  lemma {:induction false} MembersTextHead(p: Props, first: bool)
    requires p != [] && !p[0].value.JUndefined?
    ensures MembersText(p, first)
      == Separator(first) + Quote(p[0].key) + ":" + Stringify(p[0].value) + MembersText(p[1..], false)
  {
  }

  lemma {:induction false} MembersSplit(p: Props, first: bool, s: string)
    requires p != [] && !p[0].value.JUndefined?
    ensures MembersText(p, first) + "}" + s
      == Separator(first) + ['"'] + (Escape(p[0].key) + ['"']
         + (":" + Stringify(p[0].value) + (MembersText(p[1..], false) + "}" + s)))
  {
    var sep, e, w := Separator(first), Escape(p[0].key), Stringify(p[0].value);
    var m := MembersText(p[1..], false);
    MembersTextHead(p, first);
    Regroup(sep, e, w, m, s);
  }

  lemma {:induction false} Regroup(sep: string, e: string, w: string, m: string, s: string)
    ensures sep + (['"'] + e + ['"']) + ":" + w + m + "}" + s
      == sep + ['"'] + (e + ['"'] + (":" + w + (m + "}" + s)))
  {
  }

  lemma {:induction false} MembersShape(p: Props, first: bool, s: string)
    requires MembersAreJson(p)
    ensures var u := MembersText(p, first) + "}" + s;
      |u| > 0 && (u[0] == '}' <==> p == []) && (p == [] ==> u[1..] == s)
      && (!first ==> Stops(u))
    ensures p != [] ==>
      MembersText(p, first) + "}" + s
      == Separator(first) + ['"'] + (Escape(p[0].key) + ['"']
         + (":" + Stringify(p[0].value) + (MembersText(p[1..], false) + "}" + s)))
  {
    if p != [] {
      assert p[0] in p;
      MembersSplit(p, first, s);
      var u := MembersText(p, first) + "}" + s;
      if first {
        assert u[0] == '"';
      } else {
        assert u[0] == ',';
      }
    }
  }

  lemma {:induction false} ValueUnique(a: Json, b: Json, s: string, t: string)
    requires IsJson(a) && IsJson(b)
    requires Stringify(a) + s == Stringify(b) + t
    requires Stops(s) && Stops(t)
    ensures a == b && s == t
    decreases a
  {
    var u := Stringify(a) + s;
    FirstChar(a);
    FirstChar(b);
    assert u[0] == Stringify(a)[0];
    assert u[0] == Stringify(b)[0];
    StringifyShape(a, s);
    StringifyShape(b, t);
    match a
    case JNull =>
      assert s == u[4..] == t;
    case JBool(x) =>
      assert b.JBool? && b.b == x;
      assert s == u[|Stringify(a)|..] == t;
    case JNum(m) =>
      NumUnique(m, b.n, s, t);
    case JStr(x) =>
      CancelPrefix(['"'], Escape(x) + ['"'] + s, Escape(b.s) + ['"'] + t);
      EscapeUnique(x, b.s, s, t);
    case JArr(xs) =>
      CancelPrefix("[", ItemsText(xs, true) + "]" + s, ItemsText(b.items, true) + "]" + t);
      ItemsUnique(xs, b.items, true, s, t);
    case JObj(p) =>
      CancelPrefix("{", MembersText(p, true) + "}" + s, MembersText(b.members, true) + "}" + t);
      MembersUnique(p, b.members, true, s, t);
  }

  lemma {:induction false} ItemsUnique(xs: seq<Json>, ys: seq<Json>, first: bool, s: string, t: string)
    requires ItemsAreJson(xs) && ItemsAreJson(ys)
    requires ItemsText(xs, first) + "]" + s == ItemsText(ys, first) + "]" + t
    ensures xs == ys && s == t
    decreases xs
  {
    ItemsShape(xs, first, s);
    ItemsShape(ys, first, t);
    if xs != [] {
      var restX := ItemsText(xs[1..], false) + "]" + s;
      var restY := ItemsText(ys[1..], false) + "]" + t;
      CancelPrefix(Separator(first), Stringify(xs[0]) + restX, Stringify(ys[0]) + restY);
      ItemsShape(xs[1..], false, s);
      ItemsShape(ys[1..], false, t);
      ValueUnique(xs[0], ys[0], restX, restY);
      ItemsUnique(xs[1..], ys[1..], false, s, t);
    }
  }

  lemma {:induction false} MembersUnique(p: Props, q: Props, first: bool, s: string, t: string)
    requires MembersAreJson(p) && MembersAreJson(q)
    requires MembersText(p, first) + "}" + s == MembersText(q, first) + "}" + t
    ensures p == q && s == t
    decreases p
  {
    MembersShape(p, first, s);
    MembersShape(q, first, t);
    if p != [] {
      assert p[0] in p && q[0] in q;
      var restP := MembersText(p[1..], false) + "}" + s;
      var restQ := MembersText(q[1..], false) + "}" + t;
      MembersShape(p[1..], false, s);
      MembersShape(q[1..], false, t);
      MemberUnique(p[0], q[0], first, restP, restQ);
      MembersUnique(p[1..], q[1..], false, s, t);
      assert p == [p[0]] + p[1..] && q == [q[0]] + q[1..];
    }
  }

  /** One serialised member, followed by text that stops a value, determines the member and the text. */
  lemma {:induction false} MemberUnique(a: Member, b: Member, first: bool, s: string, t: string)
    requires IsJson(a.value) && IsJson(b.value) && Stops(s) && Stops(t)
    requires Separator(first) + ['"'] + (Escape(a.key) + ['"'] + (":" + Stringify(a.value) + s))
          == Separator(first) + ['"'] + (Escape(b.key) + ['"'] + (":" + Stringify(b.value) + t))
    ensures a == b && s == t
  {
    var tailA := ":" + Stringify(a.value) + s;
    var tailB := ":" + Stringify(b.value) + t;
    CancelPrefix(Separator(first) + ['"'], Escape(a.key) + ['"'] + tailA, Escape(b.key) + ['"'] + tailB);
    EscapeUnique(a.key, b.key, tailA, tailB);
    assert tailA == ":" + (Stringify(a.value) + s);
    assert tailB == ":" + (Stringify(b.value) + t);
    CancelPrefix(":", Stringify(a.value) + s, Stringify(b.value) + t);
    ValueUnique(a.value, b.value, s, t);
  }

  /** On JSON values, equal serialisations mean equal values, and conversely. */
  lemma {:induction false} StringifyInjective(a: Json, b: Json)
    requires IsJson(a) && IsJson(b)
    ensures Stringify(a) == Stringify(b) <==> a == b
  {
    if Stringify(a) == Stringify(b) {
      assert Stringify(a) + [] == Stringify(b) + [];
      ValueUnique(a, b, [], []);
    }
  }

  /** A JSON round trip does not change the serialisation. */
  lemma {:induction false} StringifyClone(v: Json)
    ensures Stringify(Clone(v)) == Stringify(v)
    decreases v
  {
    match v
    case JArr(xs) => ItemsTextClone(xs, true);
    case JObj(p) => MembersTextClone(p, true);
    case _ =>
  }

  lemma {:induction false} ItemsTextClone(xs: seq<Json>, first: bool)
    ensures ItemsText(CloneItems(xs), first) == ItemsText(xs, first)
    decreases xs
  {
    if xs != [] {
      StringifyClone(xs[0]);
      ItemsTextClone(xs[1..], false);
      assert CloneItems(xs)[1..] == CloneItems(xs[1..]);
    }
  }

  lemma {:induction false} MembersTextClone(p: Props, first: bool)
    ensures MembersText(CloneMembers(p), first) == MembersText(p, first)
    decreases p
  {
    if p != [] {
      assert p[0] in p;
      if p[0].value.JUndefined? {
        MembersTextClone(p[1..], first);
      } else {
        StringifyClone(p[0].value);
        MembersTextClone(p[1..], false);
        var c := CloneMembers(p);
        assert c[0] == Member(p[0].key, Clone(p[0].value)) && c[1..] == CloneMembers(p[1..]);
        assert !Clone(p[0].value).JUndefined?;
      }
    }
  }
}
