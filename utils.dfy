/**
 * Shaping the store's answers for callers (lib/utils.js).
 *
 * `Formatted` turns a list of documents, a `{docs}` answer, a `{rows}` view
 * answer or a single document into stripped documents; `Simplified` turns
 * the rows of a reduced view into a bare value or an object keyed on the
 * rows' keys. A property read that JavaScript would answer with a
 * `TypeError` (reading a member of `null` or `undefined`, or calling a
 * method that is not there) is the result `Thrown`.
 *
 * The statistics that `enhance` computes in floating point are a parameter
 * `derive` of the model: it receives a row value's `sum`, `count` and
 * `sumsqr` and gives back `mean`, `variance` and `stddev`.
 */
module Utils {
  import opened Json
  import opened Strip

  datatype Result<T> = Ok(value: T) | Thrown

  /** `isArray(v)` */
  predicate IsArray(v: Json)
  {
    v.JArr?
  }

  lemma IsArrayExamples()
    ensures IsArray(JArr([])) && IsArray(JArr([JNum(1), JNum(2), JNum(3)]))
    ensures IsArray(JArr([JStr("1"), JStr("2"), JStr("3")])) && IsArray(JArr([JObj([]), JObj([]), JObj([])]))
    ensures IsArray(JArr([JArr([]), JArr([]), JArr([])])) && IsArray(JArr([JBool(false), JBool(false), JBool(false)]))
    ensures !IsArray(JObj([])) && !IsArray(JBool(true)) && !IsArray(JNum(1))
    ensures !IsArray(JUndefined) && !IsArray(JNull) && !IsArray(JStr("oh my"))
  {
  }

  /** Reading a member of these throws. */
  predicate Unreadable(v: Json)
  {
    v.JNull? || v.JUndefined?
  }

  /** `v.k` for a value that can be read: objects answer with their member, other values with `undefined`. */
  function Prop(v: Json, k: string): Json
  {
    if v.JObj? then Get(v.members, k) else JUndefined
  }

  // ---------------------------------------------------------------------
  // formatOutput

  /** What the loop over view rows does with one row. */
  datatype RowCase = Skip | Keep(doc: Json) | Throws

  /**
   * One row of `data.rows`: it is kept when it carries a `doc`, and, unless
   * design documents are wanted, when that document's `_id` does not start
   * with `_`. An `_id` that is not a string has no `match` to call.
   */
  function RowCaseOf(r: Json, leaveDesignDocs: bool): (c: RowCase)
    ensures c.Throws? <==> Unreadable(r) || (!leaveDesignDocs && Truthy(Prop(r, "doc")) && !Prop(Prop(r, "doc"), "_id").JStr?)
    ensures c.Keep? ==> c.doc == Prop(r, "doc") && Truthy(c.doc)
    ensures c.Keep? && !leaveDesignDocs ==> !IsDesignId(Prop(c.doc, "_id").s)
    ensures leaveDesignDocs && !Unreadable(r) ==> (c.Keep? <==> Truthy(Prop(r, "doc")))
  {
    if Unreadable(r) then Throws
    else
      var doc := Prop(r, "doc");
      if !Truthy(doc) then Skip
      else if leaveDesignDocs then Keep(doc)
      else match Prop(doc, "_id")
        case JStr(s) => if IsDesignId(s) then Skip else Keep(doc)
        case _ => Throws
  }

  /** `/^_/` matches. */
  predicate IsDesignId(s: string)
  {
    |s| > 0 && s[0] == '_'
  }

  /** The documents the rows loop collects, in order, or `Thrown`. */
  function KeptDocs(rows: seq<Json>, leaveDesignDocs: bool): Result<seq<Json>>
    decreases |rows|
  {
    if rows == [] then Ok([])
    else
      var n := |rows| - 1;
      match KeptDocs(rows[..n], leaveDesignDocs)
      case Thrown => Thrown
      case Ok(ds) =>
        match RowCaseOf(rows[n], leaveDesignDocs)
        case Throws => Thrown
        case Skip => Ok(ds)
        case Keep(doc) => Ok(ds + [doc])
  }

  /**
   * The rows loop throws exactly when some row throws; otherwise it collects
   * the `doc` of every kept row, and nothing else.
   */
  lemma {:induction false} KeptDocsSpec(rows: seq<Json>, leaveDesignDocs: bool)
    ensures var r := KeptDocs(rows, leaveDesignDocs);
      && (r.Thrown? <==> exists j :: 0 <= j < |rows| && RowCaseOf(rows[j], leaveDesignDocs).Throws?)
      && (r.Ok? ==> |r.value| <= |rows|)
      && (r.Ok? ==> forall j :: 0 <= j < |rows| && RowCaseOf(rows[j], leaveDesignDocs).Keep? ==>
           RowCaseOf(rows[j], leaveDesignDocs).doc in r.value)
      && (r.Ok? ==> forall d :: d in r.value ==>
           exists j :: 0 <= j < |rows| && RowCaseOf(rows[j], leaveDesignDocs) == Keep(d))
    decreases |rows|
  {
    if rows != [] {
      var n := |rows| - 1;
      var front := rows[..n];
      KeptDocsSpec(front, leaveDesignDocs);
      assert forall j :: 0 <= j < n ==> front[j] == rows[j];
    }
  }

  /** One row alone: it throws, is skipped, or gives exactly its `doc`. */
  lemma {:induction false} KeptDocsOne(row: Json, leaveDesignDocs: bool)
    ensures KeptDocs([row], leaveDesignDocs) == match RowCaseOf(row, leaveDesignDocs)
      case Throws => Thrown
      case Skip => Ok([])
      case Keep(doc) => Ok([doc])
  {
    var rows := [row];
    assert rows[..|rows| - 1] == [] && rows[|rows| - 1] == row;
    assert KeptDocs(rows[..|rows| - 1], leaveDesignDocs) == Ok([]);
    match RowCaseOf(row, leaveDesignDocs)
    case Keep(doc) => assert [] + [doc] == [doc];
    case _ =>
  }

  /**
   * The rows loop over `a + b` keeps what it keeps from `a` followed by what
   * it keeps from `b`, each in row order, and throws if either part throws.
   * With `KeptDocsOne` this pins the result down to the kept documents in
   * row order, one per kept row.
   */
  lemma {:induction false} KeptDocsAppend(a: seq<Json>, b: seq<Json>, leaveDesignDocs: bool)
    ensures KeptDocs(a + b, leaveDesignDocs)
         == if KeptDocs(a, leaveDesignDocs).Ok? && KeptDocs(b, leaveDesignDocs).Ok?
            then Ok(KeptDocs(a, leaveDesignDocs).value + KeptDocs(b, leaveDesignDocs).value)
            else Thrown
    decreases |b|
  {
    if b == [] {
      assert a + b == a;
      if KeptDocs(a, leaveDesignDocs).Ok? {
        assert KeptDocs(a, leaveDesignDocs).value + [] == KeptDocs(a, leaveDesignDocs).value;
      }
    } else {
      var n := |b| - 1;
      var ab := a + b;
      assert ab[..|ab| - 1] == a + b[..n];
      assert ab[|ab| - 1] == b[n];
      KeptDocsAppend(a, b[..n], leaveDesignDocs);
      var ka, kb := KeptDocs(a, leaveDesignDocs), KeptDocs(b[..n], leaveDesignDocs);
      if ka.Ok? && kb.Ok? {
        match RowCaseOf(b[n], leaveDesignDocs)
        case Throws =>
        case Skip =>
        case Keep(doc) =>
          assert (ka.value + kb.value) + [doc] == ka.value + (kb.value + [doc]);
      }
    }
  }

  /** `formatOutput(data, leaveDesignDocs)` */
  function Formatted(data: Json, leaveDesignDocs: bool): Result<Json>
  {
    if IsArray(data) then Ok(JArr(StrippedAll(data.items)))
    else if Unreadable(data) then Thrown
    else if IsArray(Prop(data, "docs")) then Ok(JArr(StrippedAll(Prop(data, "docs").items)))
    else if IsArray(Prop(data, "rows")) then
      match KeptDocs(Prop(data, "rows").items, leaveDesignDocs)
      case Thrown => Thrown
      case Ok(docs) => Ok(JArr(StrippedAll(docs)))
    else Ok(Stripped(data))
  }

  /** An array, or an object whose `docs` is one: each element stripped, in order. */
  lemma {:induction false} FormatList(data: Json, leaveDesignDocs: bool)
    requires IsArray(data) || (data.JObj? && IsArray(Get(data.members, "docs")))
    ensures var xs := if IsArray(data) then data.items else Get(data.members, "docs").items;
      var r := Formatted(data, leaveDesignDocs);
      && r.Ok? && r.value.JArr? && |r.value.items| == |xs|
      && forall i :: 0 <= i < |xs| ==> r.value.items[i] == Stripped(xs[i])
  {
  }

  /**
   * A `{rows}` answer gives the stripped documents of the rows that carry one,
   * design documents left out unless wanted; and when they are left out no
   * kept document had an `_id` starting with `_`.
   */
  lemma {:induction false} FormatRows(p: Props, leaveDesignDocs: bool)
    requires !IsArray(Get(p, "docs")) && IsArray(Get(p, "rows"))
    requires forall j :: 0 <= j < |Get(p, "rows").items| ==> !RowCaseOf(Get(p, "rows").items[j], leaveDesignDocs).Throws?
    ensures var r := Formatted(JObj(p), leaveDesignDocs);
      var kept := KeptDocs(Get(p, "rows").items, leaveDesignDocs);
      && kept.Ok? && r == Ok(JArr(StrippedAll(kept.value)))
      && (!leaveDesignDocs ==> forall d :: d in kept.value ==> Prop(d, "_id").JStr? && !IsDesignId(Prop(d, "_id").s))
  {
    var rows := Get(p, "rows").items;
    var kept := KeptDocs(rows, leaveDesignDocs);
    KeptDocsSpec(rows, leaveDesignDocs);
    if !leaveDesignDocs {
      forall d | d in kept.value
        ensures Prop(d, "_id").JStr? && !IsDesignId(Prop(d, "_id").s)
      {
        var j :| 0 <= j < |rows| && RowCaseOf(rows[j], leaveDesignDocs) == Keep(d);
      }
    }
  }

  /** Anything else is stripped as a single document; `null` and `undefined` have no `docs` to read. */
  lemma {:induction false} FormatSingle(data: Json, leaveDesignDocs: bool)
    requires !IsArray(data) && !IsArray(Prop(data, "docs")) && !IsArray(Prop(data, "rows"))
    ensures Formatted(data, leaveDesignDocs) == if Unreadable(data) then Thrown else Ok(Stripped(data))
  {
  }

  /** The library's example: an array of two documents comes back without revisions, other members intact. */
  lemma FormatExample()
    ensures var docs := [JObj([Member("_id", JStr("a")), Member("_rev", JStr("b")), Member("property", JStr("c"))]),
                         JObj([Member("_id", JStr("x")), Member("_rev", JStr("y")), Member("property", JStr("z"))])];
      Formatted(JArr(docs), false)
      == Ok(JArr([JObj([Member("_id", JStr("a")), Member("property", JStr("c"))]),
                  JObj([Member("_id", JStr("x")), Member("property", JStr("z"))])]))
  {
    var d0 := [Member("_id", JStr("a")), Member("_rev", JStr("b")), Member("property", JStr("c"))];
    var d1 := [Member("_id", JStr("x")), Member("_rev", JStr("y")), Member("property", JStr("z"))];
    StripRevOnly(Member("_id", JStr("a")), Member("_rev", JStr("b")), Member("property", JStr("c")));
    StripRevOnly(Member("_id", JStr("x")), Member("_rev", JStr("y")), Member("property", JStr("z")));
    var xs := [JObj(d0), JObj(d1)];
    var ys := StrippedAll(xs);
    assert |ys| == 2 && ys[0] == Stripped(xs[0]) && ys[1] == Stripped(xs[1]);
    assert ys == [ys[0], ys[1]];
  }

  lemma {:induction false} StripRevOnly(i: Member, r: Member, c: Member)
    requires i.key == "_id" && r.key == "_rev" && c.key == "property"
    ensures StrippedMembers([i, r, c]) == [i, c]
  {
    assert Get([i, r, c], "id") == JUndefined by {
      assert Get([c], "id") == JUndefined;
      assert Get([r, c], "id") == JUndefined;
    }
    assert Remove([i, r, c], "_rev") == [i, c] by {
      assert Remove([c], "_rev") == [c];
    }
    assert Remove([i, c], "rev") == [i, c] by {
      assert Remove([c], "rev") == [c];
    }
  }

  /** The loop over `data.rows` in `formatOutput`. */
  method KeepDocs(rows: seq<Json>, leaveDesignDocs: bool) returns (r: Result<seq<Json>>)
    ensures r == KeptDocs(rows, leaveDesignDocs)
  {
    var docs: seq<Json> := [];
    var i := 0;
    while i < |rows|
      invariant 0 <= i <= |rows|
      invariant KeptDocs(rows[..i], leaveDesignDocs) == Ok(docs)
    {
      var row := rows[i];
      assert rows[..i + 1][..i] == rows[..i];
      if Unreadable(row) {
        KeptDocsPrefix(rows, i + 1, leaveDesignDocs);
        return Thrown;
      }
      var doc := Prop(row, "doc");
      if Truthy(doc) {
        if leaveDesignDocs {
          docs := docs + [doc];
        } else {
          var id := Prop(doc, "_id");
          if !id.JStr? {
            KeptDocsPrefix(rows, i + 1, leaveDesignDocs);
            return Thrown;
          }
          if !IsDesignId(id.s) {
            docs := docs + [doc];
          }
        }
      }
      i := i + 1;
    }
    assert rows[..i] == rows;
    r := Ok(docs);
  }

  lemma {:induction false} KeptDocsPrefix(rows: seq<Json>, n: nat, leaveDesignDocs: bool)
    requires n <= |rows| && KeptDocs(rows[..n], leaveDesignDocs).Thrown?
    ensures KeptDocs(rows, leaveDesignDocs).Thrown?
  {
    KeptDocsSpec(rows[..n], leaveDesignDocs);
    KeptDocsSpec(rows, leaveDesignDocs);
    var j :| 0 <= j < n && RowCaseOf(rows[..n][j], leaveDesignDocs).Throws?;
    assert rows[..n][j] == rows[j];
  }

  /** `formatOutput(data, leaveDesignDocs)`, with its loop. */
  method FormatOutput(data: Json, leaveDesignDocs: bool) returns (r: Result<Json>)
    ensures r == Formatted(data, leaveDesignDocs)
  {
    if IsArray(data) {
      return Ok(JArr(StrippedAll(data.items)));
    }
    if Unreadable(data) {
      return Thrown;
    }
    var docs := Prop(data, "docs");
    if IsArray(docs) {
      return Ok(JArr(StrippedAll(docs.items)));
    }
    var rows := Prop(data, "rows");
    if IsArray(rows) {
      var kept := KeepDocs(rows.items, leaveDesignDocs);
      if kept.Thrown? {
        return Thrown;
      }
      return Ok(JArr(StrippedAll(kept.value)));
    }
    r := Ok(Stripped(data));
  }

  // ---------------------------------------------------------------------
  // enhance and objectify

  datatype Stats = Stats(mean: Json, variance: Json, stddev: Json)

  /** `enhance(doc)`: a non-array object gains `mean`, `variance` and `stddev`; anything else is returned as it is. */
  function Enhance(doc: Json, derive: (Json, Json, Json) -> Stats): Json
  {
    if doc.JObj? && Get(doc.members, "length").JUndefined? then
      var p := doc.members;
      var st := derive(Get(p, "sum"), Get(p, "count"), Get(p, "sumsqr"));
      JObj(Put(Put(Put(p, "mean", st.mean), "variance", st.variance), "stddev", st.stddev))
    else doc
  }

  /** Only objects that are not array-like are touched; they gain the three statistics and keep every other member. */
  lemma {:induction false} EnhanceShape(doc: Json, derive: (Json, Json, Json) -> Stats)
    ensures !doc.JObj? || !Get(doc.members, "length").JUndefined? ==> Enhance(doc, derive) == doc
    ensures doc.JObj? && Get(doc.members, "length").JUndefined? ==>
      var st := derive(Get(doc.members, "sum"), Get(doc.members, "count"), Get(doc.members, "sumsqr"));
      var r := Enhance(doc, derive);
      && r.JObj?
      && Get(r.members, "mean") == st.mean && Get(r.members, "variance") == st.variance
      && Get(r.members, "stddev") == st.stddev
      && (forall k :: k != "mean" && k != "variance" && k != "stddev" ==> Get(r.members, k) == Get(doc.members, k))
  {
    if doc.JObj? && Get(doc.members, "length").JUndefined? {
      var p := doc.members;
      var st := derive(Get(p, "sum"), Get(p, "count"), Get(p, "sumsqr"));
      PutThree(p, "mean", st.mean, "variance", st.variance, "stddev", st.stddev);
    }
  }

  lemma {:induction false} PutThree(p: Props, a: string, x: Json, b: string, y: Json, c: string, z: Json)
    requires a != b && b != c && a != c
    ensures var r := Put(Put(Put(p, a, x), b, y), c, z);
      && Get(r, a) == x && Get(r, b) == y && Get(r, c) == z
      && (forall k :: k != a && k != b && k != c ==> Get(r, k) == Get(p, k))
      && a in Keys(r) && b in Keys(r) && c in Keys(r)
  {
    var p1 := Put(p, a, x);
    var p2 := Put(p1, b, y);
    var r := Put(p2, c, z);
    PutKeys(p, a, x);
    PutKeys(p1, b, y);
    PutKeys(p2, c, z);
    assert Get(p2, a) == x;
    assert Get(r, a) == x && Get(r, b) == y;
    assert a in Keys(p1);
    assert a in Keys(p2) && b in Keys(p2);
  }

  /** Assigning a member the value it already has changes nothing. */
  lemma {:induction false} PutSame(p: Props, k: string)
    requires k in Keys(p)
    ensures Put(p, k, Get(p, k)) == p
  {
    if p[0].key != k {
      PutSame(p[1..], k);
    }
  }

  /** Enhancing twice is enhancing once: the statistics depend only on `sum`, `count` and `sumsqr`. */
  lemma {:induction false} EnhanceIdempotent(doc: Json, derive: (Json, Json, Json) -> Stats)
    ensures Enhance(Enhance(doc, derive), derive) == Enhance(doc, derive)
  {
    if doc.JObj? && Get(doc.members, "length").JUndefined? {
      var p := doc.members;
      var st := derive(Get(p, "sum"), Get(p, "count"), Get(p, "sumsqr"));
      var q := Put(Put(Put(p, "mean", st.mean), "variance", st.variance), "stddev", st.stddev);
      assert Enhance(doc, derive) == JObj(q);
      GetPastThree(p, "mean", st.mean, "variance", st.variance, "stddev", st.stddev, "length");
      GetPastThree(p, "mean", st.mean, "variance", st.variance, "stddev", st.stddev, "sum");
      GetPastThree(p, "mean", st.mean, "variance", st.variance, "stddev", st.stddev, "count");
      GetPastThree(p, "mean", st.mean, "variance", st.variance, "stddev", st.stddev, "sumsqr");
      PutThreeAgain(p, "mean", st.mean, "variance", st.variance, "stddev", st.stddev);
    }
  }

  lemma {:induction false} GetPastThree(p: Props, a: string, x: Json, b: string, y: Json, c: string, z: Json, k: string)
    requires k != a && k != b && k != c
    ensures Get(Put(Put(Put(p, a, x), b, y), c, z), k) == Get(p, k)
  {
  }

  lemma {:induction false} PutThreeAgain(p: Props, a: string, x: Json, b: string, y: Json, c: string, z: Json)
    requires a != b && b != c && a != c
    ensures var q := Put(Put(Put(p, a, x), b, y), c, z);
      Put(Put(Put(q, a, x), b, y), c, z) == q
  {
    var q := Put(Put(Put(p, a, x), b, y), c, z);
    PutThree(p, a, x, b, y, c, z);
    PutSame(q, a);
    PutSame(q, b);
    PutSame(q, c);
  }

  /** `d.value[i]`: the `i`-th element of an array, the member named `i` of an object, a string's `i`-th character. */
  function Elem(value: Json, i: nat): (r: Result<Json>)
    ensures r.Thrown? <==> Unreadable(value)
  {
    match value
    case JUndefined => Thrown
    case JNull => Thrown
    case JArr(xs) => Ok(if i < |xs| then xs[i] else JUndefined)
    case JObj(p) => Ok(Get(p, NatToString(i)))
    case JStr(s) => Ok(if i < |s| then JStr([s[i]]) else JUndefined)
    case _ => Ok(JUndefined)
  }

  /** `enhance` with its statistics fixed, as the element transform objectify applies. */
  function Enhancer(derive: (Json, Json, Json) -> Stats): Json -> Json
  {
    doc => Enhance(doc, derive)
  }

  /**
   * The record `val` that objectify builds from the first `n` field names:
   * `field[i]` holds the transformed `i`-th element of the row's value, a
   * later field of the same name winning.
   */
  function Fielded(value: Json, fields: seq<string>, n: nat, enhance: Json -> Json): (r: Result<Props>)
    requires n <= |fields|
    ensures r.Thrown? <==> n > 0 && Unreadable(value)
  {
    if n == 0 then Ok([])
    else
      match Fielded(value, fields, n - 1, enhance)
      case Thrown => Thrown
      case Ok(val) =>
        match Elem(value, n - 1)
        case Thrown => Thrown
        case Ok(e) => Ok(Put(val, fields[n - 1], enhance(e)))
  }

  /** The record's member names are the first `n` field names. */
  lemma {:induction false} FieldedKeys(value: Json, fields: seq<string>, n: nat, enhance: Json -> Json)
    requires n <= |fields| && !Unreadable(value)
    ensures forall k :: k in Keys(Fielded(value, fields, n, enhance).value) <==> k in fields[..n]
  {
    if n > 0 {
      FieldedKeys(value, fields, n - 1, enhance);
      PutKeys(Fielded(value, fields, n - 1, enhance).value, fields[n - 1], enhance(Elem(value, n - 1).value));
      assert fields[..n] == fields[..n - 1] + [fields[n - 1]];
    }
  }

  /** A field name that does not come again holds the transformed element at its position. */
  lemma {:induction false} FieldedValues(value: Json, fields: seq<string>, n: nat, enhance: Json -> Json, j: nat)
    requires j < n <= |fields| && !Unreadable(value)
    requires forall l :: j < l < n ==> fields[l] != fields[j]
    ensures Get(Fielded(value, fields, n, enhance).value, fields[j]) == enhance(Elem(value, j).value)
  {
    var val, k := Fielded(value, fields, n - 1, enhance).value, fields[n - 1];
    assert Fielded(value, fields, n, enhance) == Ok(Put(val, k, enhance(Elem(value, n - 1).value)));
    if j < n - 1 {
      FieldedValues(value, fields, n - 1, enhance, j);
      assert k != fields[j];
    }
  }

  /** `objectify(d, field)` on the members of a row. */
  function Objectified(row: Props, fields: seq<string>, derive: (Json, Json, Json) -> Stats): Result<Props>
  {
    if |fields| > 1 then
      match Fielded(Get(row, "value"), fields, |fields|, Enhancer(derive))
      case Thrown => Thrown
      case Ok(val) => Ok(Put(row, "value", JObj(val)))
    else Ok(Put(row, "value", Enhance(Get(row, "value"), derive)))
  }

  /**
   * With more than one field name the row's `value` becomes the record of
   * its enhanced elements under those names; otherwise it is enhanced as it
   * is. The row's other members are left alone, and only a `null` or
   * `undefined` value split by fields throws.
   */
  lemma {:induction false} ObjectifyShape(row: Props, fields: seq<string>, derive: (Json, Json, Json) -> Stats)
    ensures var r := Objectified(row, fields, derive);
      && (r.Thrown? <==> |fields| > 1 && Unreadable(Get(row, "value")))
      && (r.Ok? ==> forall k :: k != "value" ==> Get(r.value, k) == Get(row, k))
      && (r.Ok? && |fields| <= 1 ==> Get(r.value, "value") == Enhance(Get(row, "value"), derive))
      && (r.Ok? && |fields| > 1 ==>
           Get(r.value, "value").JObj?
           && (forall k :: k in Keys(Get(r.value, "value").members) <==> k in fields)
           && forall j :: 0 <= j < |fields| && (forall l :: j < l < |fields| ==> fields[l] != fields[j]) ==>
                Get(Get(r.value, "value").members, fields[j]) == Enhance(Elem(Get(row, "value"), j).value, derive))
  {
    var value := Get(row, "value");
    if |fields| > 1 && !Unreadable(value) {
      FieldedKeys(value, fields, |fields|, Enhancer(derive));
      assert fields[..|fields|] == fields;
      forall j | 0 <= j < |fields| && (forall l :: j < l < |fields| ==> fields[l] != fields[j])
        ensures Get(Fielded(value, fields, |fields|, Enhancer(derive)).value, fields[j]) == Enhance(Elem(value, j).value, derive)
      {
        FieldedValues(value, fields, |fields|, Enhancer(derive), j);
      }
    }
  }

  /** `objectify(d, field)`: replaces the row's `value` in place. */
  method Objectify(d: JsObject, fields: seq<string>, derive: (Json, Json, Json) -> Stats) returns (thrown: bool)
    modifies d
    ensures thrown <==> Objectified(old(d.members), fields, derive).Thrown?
    ensures !thrown ==> d.members == Objectified(old(d.members), fields, derive).value
    ensures thrown ==> d.members == old(d.members)
  {
    var value := Get(d.members, "value");
    if |fields| > 1 {
      var val: Props := [];
      var i := 0;
      while i < |fields|
        invariant 0 <= i <= |fields|
        invariant Fielded(value, fields, i, Enhancer(derive)) == Ok(val)
      {
        var e := Elem(value, i);
        if e.Thrown? {
          return true;
        }
        val := Put(val, fields[i], Enhance(e.value, derive));
        i := i + 1;
      }
      d.Set("value", JObj(val));
    } else {
      d.Set("value", Enhance(value, derive));
    }
    thrown := false;
  }

  // ---------------------------------------------------------------------
  // simplify

  /** `String(v)` as `Array.prototype.join` writes an element: `null` and `undefined` become empty. */
  function ElemText(v: Json): string
    decreases v
  {
    match v
    case JUndefined => ""
    case JNull => ""
    case JBool(b) => if b then "true" else "false"
    case JNum(n) => IntToString(n)
    case JStr(s) => s
    case JArr(xs) => Join(xs, ",")
    case JObj(_) => "[object Object]"
  }

  /** `xs.join(sep)` */
  function Join(xs: seq<Json>, sep: string): string
    decreases xs
  {
    if xs == [] then ""
    else if |xs| == 1 then ElemText(xs[0])
    else ElemText(xs[0]) + sep + Join(xs[1..], sep)
  }

  /** The member name a row's key gives: arrays joined with `/`, strings as they are, anything else through `toString()`. */
  function KeyText(key: Json): (r: Result<string>)
    ensures r.Thrown? <==> Unreadable(key)
    ensures key.JStr? ==> r == Ok(key.s)
    ensures key.JArr? ==> r == Ok(Join(key.items, "/"))
  {
    if IsArray(key) then Ok(Join(key.items, "/"))
    else if key.JStr? then Ok(key.s)
    else if Unreadable(key) then Thrown
    else Ok(ElemText(key))
  }

  /** Different keys can give the same member name; the later row then replaces the earlier one. */
  lemma KeyTextCollisions()
    ensures KeyText(JArr([JStr("a/b")])) == KeyText(JArr([JStr("a"), JStr("b")])) == Ok("a/b")
    ensures KeyText(JNum(1)) == KeyText(JStr("1")) == Ok("1")
  {
    assert [JStr("a"), JStr("b")][1..] == [JStr("b")];
    assert Join([JStr("a"), JStr("b")], "/") == "a" + "/" + "b" == "a/b";
    assert NatToString(1) == "1";
  }

  /** One row of the map path: its member name and its objectified value. Only objects have a key to read. */
  function RowEntry(d: Json, fields: seq<string>, derive: (Json, Json, Json) -> Stats): (r: Result<(string, Json)>)
    ensures r.Ok? ==> d.JObj? && KeyText(Get(d.members, "key")) == Ok(r.value.0)
  {
    if !d.JObj? then Thrown
    else
      match KeyText(Get(d.members, "key"))
      case Thrown => Thrown
      case Ok(k) =>
        match Objectified(d.members, fields, derive)
        case Thrown => Thrown
        case Ok(m) => Ok((k, Get(m, "value")))
  }

  /** The entry function of the map path, for given field names and statistics. */
  function EntryOf(fields: seq<string>, derive: (Json, Json, Json) -> Stats): Json -> Result<(string, Json)>
  {
    d => RowEntry(d, fields, derive)
  }

  /**
   * `retval` after the first `n` rows: each row's entry put under its member
   * name, the last row of a given name winning. It is stated for any entry
   * function; `simplify` uses `EntryOf(fields, derive)`.
   */
  function MapRows(rows: seq<Json>, n: nat, entry: Json -> Result<(string, Json)>): Result<Props>
    requires n <= |rows|
  {
    if n == 0 then Ok([])
    else
      match MapRows(rows, n - 1, entry)
      case Thrown => Thrown
      case Ok(acc) =>
        match entry(rows[n - 1])
        case Thrown => Thrown
        case Ok(e) => Ok(Put(acc, e.0, e.1))
  }

  /** The rows loop throws exactly when one of its rows does. */
  lemma {:induction false} MapRowsThrows(rows: seq<Json>, n: nat, entry: Json -> Result<(string, Json)>)
    requires n <= |rows|
    ensures MapRows(rows, n, entry).Thrown? <==> exists j :: 0 <= j < n && entry(rows[j]).Thrown?
  {
    if n > 0 {
      MapRowsThrows(rows, n - 1, entry);
      if MapRows(rows, n - 1, entry).Thrown? {
        var j :| 0 <= j < n - 1 && entry(rows[j]).Thrown?;
        assert 0 <= j < n && entry(rows[j]).Thrown?;
      } else if entry(rows[n - 1]).Thrown? {
        assert 0 <= n - 1 < n && entry(rows[n - 1]).Thrown?;
      } else {
        forall j | 0 <= j < n
          ensures !entry(rows[j]).Thrown?
        {
          if j < n - 1 {
            assert !(0 <= j < n - 1 && entry(rows[j]).Thrown?);
          }
        }
      }
    }
  }

  /** The member names are those of the rows. */
  lemma {:induction false} MapRowsKeys(rows: seq<Json>, n: nat, entry: Json -> Result<(string, Json)>)
    requires n <= |rows| && forall i :: 0 <= i < n ==> entry(rows[i]).Ok?
    ensures MapRows(rows, n, entry).Ok?
    ensures forall k :: k in Keys(MapRows(rows, n, entry).value) <==> k in Names(rows, n, entry)
  {
    if n > 0 {
      MapRowsKeys(rows, n - 1, entry);
      var e := entry(rows[n - 1]).value;
      PutKeys(MapRows(rows, n - 1, entry).value, e.0, e.1);
    }
  }

  /** The member names of the first `n` rows, in row order. */
  function Names(rows: seq<Json>, n: nat, entry: Json -> Result<(string, Json)>): seq<string>
    requires n <= |rows| && forall i :: 0 <= i < n ==> entry(rows[i]).Ok?
  {
    if n == 0 then [] else Names(rows, n - 1, entry) + [entry(rows[n - 1]).value.0]
  }

  /** Each member holds the value of the last row with its name. */
  lemma {:induction false} MapRowsValues(rows: seq<Json>, n: nat, entry: Json -> Result<(string, Json)>, j: nat)
    requires j < n <= |rows| && forall i :: 0 <= i < n ==> entry(rows[i]).Ok?
    requires LastOf(rows, n, entry, j)
    ensures MapRows(rows, n, entry).Ok?
    ensures Get(MapRows(rows, n, entry).value, entry(rows[j]).value.0) == entry(rows[j]).value.1
  {
    MapRowsKeys(rows, n, entry);
    if j < n - 1 {
      assert LastOf(rows, n - 1, entry, j);
      MapRowsValues(rows, n - 1, entry, j);
    }
  }

  /** Row `j` is the last of the first `n` rows with its member name. */
  ghost predicate LastOf(rows: seq<Json>, n: nat, entry: Json -> Result<(string, Json)>, j: nat)
    requires j < n <= |rows| && forall i :: 0 <= i < n ==> entry(rows[i]).Ok?
  {
    forall l :: j < l < n ==> entry(rows[l]).value.0 != entry(rows[j]).value.0
  }

  /** `simplify(data, field)` */
  function Simplified(data: Json, fields: seq<string>, derive: (Json, Json, Json) -> Stats): Result<Json>
  {
    if IsArray(data) && |data.items| == 1 && Unreadable(data.items[0]) then Thrown
    else if IsArray(data) && |data.items| == 1 && Prop(data.items[0], "key") == JNull then
      match Objectified(data.items[0].members, fields, derive)
      case Thrown => Thrown
      case Ok(m) => Ok(Get(m, "value"))
    else if IsArray(data) && |data.items| >= 1 then
      match MapRows(data.items, |data.items|, EntryOf(fields, derive))
      case Thrown => Thrown
      case Ok(retval) => Ok(JObj(retval))
    else Ok(data)
  }

  /** An empty array and anything that is not an array come back unchanged. */
  lemma {:induction false} SimplifyUnchanged(data: Json, fields: seq<string>, derive: (Json, Json, Json) -> Stats)
    requires !IsArray(data) || data.items == []
    ensures Simplified(data, fields, derive) == Ok(data)
  {
  }

  /** A single row whose key is `null` gives that row's value, objectified. */
  lemma {:induction false} SimplifySingleNull(row: Props, fields: seq<string>, derive: (Json, Json, Json) -> Stats)
    requires Get(row, "key") == JNull
    ensures var r := Simplified(JArr([JObj(row)]), fields, derive);
      && (r.Thrown? <==> Objectified(row, fields, derive).Thrown?)
      && (r.Ok? ==> r.value == Get(Objectified(row, fields, derive).value, "value"))
  {
    assert [JObj(row)][0] == JObj(row);
  }

  /**
   * Any other non-empty array gives an object with one member per distinct
   * key name, holding the objectified value of the last row with that name.
   */
  lemma {:induction false} SimplifyMap(rows: seq<Json>, fields: seq<string>, derive: (Json, Json, Json) -> Stats)
    requires |rows| >= 1 && !(|rows| == 1 && (Unreadable(rows[0]) || Prop(rows[0], "key") == JNull))
    requires forall i :: 0 <= i < |rows| ==> EntryOf(fields, derive)(rows[i]).Ok?
    ensures var entry := EntryOf(fields, derive);
      var r := Simplified(JArr(rows), fields, derive);
      && r.Ok? && r.value.JObj?
      && (forall k :: k in Keys(r.value.members) <==> k in Names(rows, |rows|, entry))
      && forall j :: 0 <= j < |rows| && LastOf(rows, |rows|, entry, j) ==>
           Get(r.value.members, entry(rows[j]).value.0) == entry(rows[j]).value.1
  {
    var entry := EntryOf(fields, derive);
    MapRowsKeys(rows, |rows|, entry);
    forall j | 0 <= j < |rows| && LastOf(rows, |rows|, entry, j)
      ensures Get(MapRows(rows, |rows|, entry).value, entry(rows[j]).value.0) == entry(rows[j]).value.1
    {
      MapRowsValues(rows, |rows|, entry, j);
    }
  }

  /** The map path throws exactly when some row is not an object, has no usable key, or cannot be objectified. */
  lemma {:induction false} SimplifyMapThrows(rows: seq<Json>, fields: seq<string>, derive: (Json, Json, Json) -> Stats)
    requires |rows| >= 1 && !(|rows| == 1 && (Unreadable(rows[0]) || Prop(rows[0], "key") == JNull))
    ensures Simplified(JArr(rows), fields, derive).Thrown? <==>
      exists j :: 0 <= j < |rows| && RowEntry(rows[j], fields, derive).Thrown?
  {
    MapRowsThrows(rows, |rows|, EntryOf(fields, derive));
  }

  /** `simplify(data, field)`, with its loop over the rows. */
  method Simplify(data: Json, fields: seq<string>, derive: (Json, Json, Json) -> Stats) returns (r: Result<Json>)
    ensures r == Simplified(data, fields, derive)
  {
    if IsArray(data) && |data.items| == 1 && Unreadable(data.items[0]) {
      return Thrown;
    }
    if IsArray(data) && |data.items| == 1 && Prop(data.items[0], "key") == JNull {
      var row := new JsObject(data.items[0].members);
      var thrown := Objectify(row, fields, derive);
      if thrown {
        return Thrown;
      }
      return Ok(Get(row.members, "value"));
    }
    if IsArray(data) && |data.items| >= 1 {
      var retval := SimplifyRows(data.items, fields, derive);
      if retval.Thrown? {
        return Thrown;
      }
      return Ok(JObj(retval.value));
    }
    r := Ok(data);
  }

  /** The `forEach` over the rows of `simplify`, filling `retval`. */
  method SimplifyRows(rows: seq<Json>, fields: seq<string>, derive: (Json, Json, Json) -> Stats) returns (r: Result<Props>)
    ensures r == MapRows(rows, |rows|, EntryOf(fields, derive))
  {
    ghost var entry := EntryOf(fields, derive);
    var retval: Props := [];
    var i := 0;
    while i < |rows|
      invariant 0 <= i <= |rows|
      invariant MapRows(rows, i, entry) == Ok(retval)
    {
      var e := RowStep(rows[i], fields, derive);
      assert e == entry(rows[i]);
      if e.Thrown? {
        MapRowsPrefix(rows, i + 1, entry);
        return Thrown;
      }
      retval := Put(retval, e.value.0, e.value.1);
      i := i + 1;
    }
    r := Ok(retval);
  }

  /** One row of the `forEach`: its member name, and its value after `objectify` has replaced it in place. */
  method RowStep(d: Json, fields: seq<string>, derive: (Json, Json, Json) -> Stats) returns (r: Result<(string, Json)>)
    ensures r == RowEntry(d, fields, derive)
  {
    if !d.JObj? {
      return Thrown;
    }
    var k := KeyText(Get(d.members, "key"));
    if k.Thrown? {
      return Thrown;
    }
    var row := new JsObject(d.members);
    var thrown := Objectify(row, fields, derive);
    if thrown {
      return Thrown;
    }
    r := Ok((k.value, Get(row.members, "value")));
  }

  lemma {:induction false} MapRowsPrefix(rows: seq<Json>, n: nat, entry: Json -> Result<(string, Json)>)
    requires n <= |rows| && MapRows(rows, n, entry).Thrown?
    ensures MapRows(rows, |rows|, entry).Thrown?
  {
    MapRowsThrows(rows, n, entry);
    MapRowsThrows(rows, |rows|, entry);
  }
}
