/**
 * The conflict-retrying single-document writer (lib/attempt.js): `del`,
 * `update` and `insert` against a store that checks revision tokens.
 *
 * The store is given as the script of replies it will send, one per
 * request, in order. Each attempt of an operation is a pure function of the
 * replies it consumes (`RunAttempt`), and `Perform` wraps it in the
 * library's three-attempt retry. The methods do the same thing step by
 * step, on mutable objects, and are proved equal to those functions.
 */
module Attempt {
  import opened Json
  import opened JsonText

  /** The store's answer to a request: no response at all, or a status and a JSON object. */
  datatype Reply = TransportError | Response(status: int, body: Props)

  /** A request the library sends. */
  datatype Request =
    | GetDoc(url: string)
    | DeleteDoc(url: string, rev: Json)
    | PostDoc(url: string, body: Props)
    | PutDoc(url: string, body: Props)

  /** What one attempt decides to do once its fetch has been answered. */
  datatype Action = NoWrite | Post(doc: Props) | Delete(rev: Json) | Fail(status: int)

  /** What one attempt reports to the retry loop. */
  datatype AttemptResult = Succeeded | Failed(status: int)

  /** How the promise returned by an operation settles: `{ok: true}`, or `{ok: false, statusCode}`. */
  datatype Outcome = Resolved | Rejected(statusCode: int)

  /** The three operations, with the database URL, the document id and the caller's document. */
  datatype Op =
    | DelOp(db: string, id: string)
    | UpdateOp(db: string, id: string, doc: Props, merge: bool)
    | InsertOp(db: string, id: string, doc: Props)

  /** Attempts per operation. */
  const Times: nat := 3

  function DocUrl(db: string, id: string): string
  {
    db + "/" + id
  }

  /** The status an attempt works with: a missing response, or a status of 0, counts as 500. */
  function StatusCode(r: Reply): int
  {
    if r.Response? && r.status != 0 then r.status else 500
  }

  /** The reply the store gives next; once the script is used up the store does not answer. */
  function Next(rs: seq<Reply>): Reply
  {
    if rs == [] then TransportError else rs[0]
  }

  function Rest(rs: seq<Reply>): seq<Reply>
  {
    if rs == [] then [] else rs[1..]
  }

  /** A write (delete, post or put) succeeds when it got a response whose status is below 400. */
  function WriteResult(w: Reply): AttemptResult
  {
    if w.Response? && StatusCode(w) < 400 then Succeeded else Failed(StatusCode(w))
  }

  /** `del`: a delete needs the revision token of a successful fetch. */
  function DeleteDecision(fetched: Reply): (a: Action)
    ensures a.Fail? || a.Delete?
  {
    if fetched.TransportError? || StatusCode(fetched) >= 400 then Fail(StatusCode(fetched))
    else Delete(Get(fetched.body, "_rev"))
  }

  /** `for (var i in t) data[i] = t[i]`: the caller's members written over the stored ones, in order. */
  function Overlay(data: Props, t: Props): Props
  {
    if t == [] then data
    else Put(Overlay(data, t[..|t| - 1]), t[|t| - 1].key, t[|t| - 1].value)
  }

  /** The document an update compares and writes: the stored one overlaid, or the caller's own. */
  function Merged(data: Props, t: Props, merge: bool): Props
  {
    if merge then Overlay(data, t) else t
  }

  /** A document without its `_rev` and `_id`. */
  function Bare(p: Props): Props
  {
    Remove(Remove(p, "_rev"), "_id")
  }

  /**
   * `update`: `t` is this attempt's clone of the caller's document. After a
   * successful fetch the update is skipped when the two documents, without
   * `_id` and `_rev`, serialise identically; otherwise the stored revision
   * and the id are attached. After a failed fetch the caller's document is
   * written as it is, with the id.
   */
  function UpdateDecision(id: string, t: Props, merge: bool, fetched: Reply): (a: Action)
    ensures a.NoWrite? || a.Post?
  {
    if fetched.Response? && StatusCode(fetched) < 300 then
      var data := fetched.body;
      var a1 := Bare(Merged(data, t, merge));
      var a2 := Bare(CloneMembers(data));
      if Stringify(JObj(a1)) == Stringify(JObj(a2)) then NoWrite
      else Post(Put(Put(a1, "_rev", Get(data, "_rev")), "_id", JStr(id)))
    else Post(Put(t, "_id", JStr(id)))
  }

  /** One attempt: what it reports, the requests it sends and the replies left after it. */
  datatype Step = Step(result: AttemptResult, sent: seq<Request>, rest: seq<Reply>)

  function RunAttempt(op: Op, rs: seq<Reply>): Step
  {
    match op
    case DelOp(db, id) =>
      var a := DeleteDecision(Next(rs));
      if a.Delete? then
        Step(WriteResult(Next(Rest(rs))), [GetDoc(DocUrl(db, id)), DeleteDoc(DocUrl(db, id), a.rev)], Rest(Rest(rs)))
      else
        Step(Failed(a.status), [GetDoc(DocUrl(db, id))], Rest(rs))
    case UpdateOp(db, id, doc, merge) =>
      var a := UpdateDecision(id, CloneMembers(doc), merge, Next(rs));
      if a.NoWrite? then
        Step(Succeeded, [GetDoc(DocUrl(db, id))], Rest(rs))
      else
        Step(WriteResult(Next(Rest(rs))), [GetDoc(DocUrl(db, id)), PostDoc(db, a.doc)], Rest(Rest(rs)))
    case InsertOp(db, id, doc) =>
      Step(WriteResult(Next(rs)), [PutDoc(DocUrl(db, id), CloneMembers(doc))], Rest(rs))
  }

  function Pow2(n: nat): nat
  {
    if n == 0 then 1 else 2 * Pow2(n - 1)
  }

  /** The pause, in milliseconds, after the `retryCount`-th failed attempt. */
  function Interval(retryCount: nat): nat
  {
    50 * Pow2(retryCount)
  }

  /** A whole operation: how it settles, every request, the replies left, attempts made, pauses taken. */
  datatype Run = Run(outcome: Outcome, sent: seq<Request>, rest: seq<Reply>, attempts: nat, delays: seq<nat>)

  /** The task `async.retry` runs for an operation: one attempt on the replies still to come. */
  function Task(op: Op): seq<Reply> -> Step
  {
    rs => RunAttempt(op, rs)
  }

  /** Attempts `attempt`, `attempt + 1`, ... up to `Times` of `task`, stopping at the first success. */
  function RetryFrom(task: seq<Reply> -> Step, rs: seq<Reply>, attempt: nat): Run
    requires 1 <= attempt <= Times
    decreases Times - attempt
  {
    var s := task(rs);
    if s.result.Succeeded? then Run(Resolved, s.sent, s.rest, attempt, [])
    else if attempt == Times then Run(Rejected(s.result.status), s.sent, s.rest, attempt, [])
    else
      var r := RetryFrom(task, s.rest, attempt + 1);
      Run(r.outcome, s.sent + r.sent, r.rest, r.attempts, [Interval(attempt)] + r.delays)
  }

  function Perform(op: Op, rs: seq<Reply>): Run
  {
    RetryFrom(Task(op), rs, 1)
  }

  /** Earlier attempts' requests and pauses in front of a run. */
  function After(sent: seq<Request>, delays: seq<nat>, r: Run): Run
  {
    Run(r.outcome, sent + r.sent, r.rest, r.attempts, delays + r.delays)
  }

  // ---------------------------------------------------------------------
  // Properties of one attempt

  /** Without a response the status is 500; a write succeeds exactly on a response below 400. */
  lemma {:induction false} WriteOutcome(w: Reply)
    ensures StatusCode(TransportError) == 500
    ensures WriteResult(w).Succeeded? <==> w.Response? && w.status != 0 && w.status < 400
    ensures WriteResult(w).Failed? ==> WriteResult(w).status == StatusCode(w) && StatusCode(w) != 0
  {
  }

  /** `del`: a failed fetch fails the attempt with its status and sends no delete. */
  lemma {:induction false} DeleteAfterFailedFetch(db: string, id: string, rs: seq<Reply>)
    requires Next(rs).TransportError? || StatusCode(Next(rs)) >= 400
    ensures RunAttempt(DelOp(db, id), rs)
         == Step(Failed(StatusCode(Next(rs))), [GetDoc(DocUrl(db, id))], Rest(rs))
  {
  }

  /** `del`: after a successful fetch the delete carries the revision just fetched. */
  lemma {:induction false} DeleteUsesFetchedRev(db: string, id: string, rs: seq<Reply>)
    requires Next(rs).Response? && StatusCode(Next(rs)) < 400
    ensures RunAttempt(DelOp(db, id), rs).sent
         == [GetDoc(DocUrl(db, id)), DeleteDoc(DocUrl(db, id), Get(Next(rs).body, "_rev"))]
    ensures RunAttempt(DelOp(db, id), rs).result == WriteResult(Next(Rest(rs)))
  {
  }

  /** A failed fetch makes `update` write the caller's document with the id, whatever the reply said. */
  lemma {:induction false} UpdateAfterFailedFetch(id: string, t: Props, merge: bool, fetched: Reply)
    requires !(fetched.Response? && StatusCode(fetched) < 300)
    ensures UpdateDecision(id, t, merge, fetched) == Post(Put(t, "_id", JStr(id)))
    ensures UpdateDecision(id, t, merge, fetched) == UpdateDecision(id, t, merge, TransportError)
    ensures Get(UpdateDecision(id, t, merge, fetched).doc, "_rev") == Get(t, "_rev")
  {
  }

  lemma {:induction false} RemoveKeepsJson(p: Props, k: string)
    requires MembersAreJson(p)
    ensures MembersAreJson(Remove(p, k))
  {
    if p != [] {
      assert p[0] in p;
      RemoveKeepsJson(p[1..], k);
    }
  }

  lemma {:induction false} PutKeepsJson(p: Props, k: string, v: Json)
    requires MembersAreJson(p) && IsJson(v)
    ensures MembersAreJson(Put(p, k, v))
  {
    if p != [] {
      assert p[0] in p;
      PutKeepsJson(p[1..], k, v);
    }
  }

  lemma {:induction false} MembersAreJsonAt(p: Props, i: nat)
    requires MembersAreJson(p) && i < |p|
    ensures IsJson(p[i].value)
  {
    assert p[0] in p;
    if i > 0 {
      MembersAreJsonAt(p[1..], i - 1);
    }
  }

  lemma {:induction false} OverlayKeepsJson(data: Props, t: Props)
    requires MembersAreJson(data) && MembersAreJson(t)
    ensures MembersAreJson(Overlay(data, t))
  {
    if t != [] {
      MembersAreJsonBelow(t, |t| - 1);
      OverlayKeepsJson(data, t[..|t| - 1]);
      MembersAreJsonAt(t, |t| - 1);
      PutKeepsJson(Overlay(data, t[..|t| - 1]), t[|t| - 1].key, t[|t| - 1].value);
    }
  }

  lemma {:induction false} MembersAreJsonBelow(p: Props, n: nat)
    requires MembersAreJson(p) && n <= |p|
    ensures MembersAreJson(p[..n])
  {
    if n > 0 {
      assert p[0] in p;
      MembersAreJsonBelow(p[1..], n - 1);
      assert p[..n][1..] == p[1..][..n - 1];
    }
  }

  /**
   * The update is skipped exactly when the two documents agree apart from
   * `_id` and `_rev`, member order included: comparing serialisations is
   * comparing values here.
   */
  lemma {:induction false} NoWriteIffSame(id: string, t: Props, merge: bool, sc: int, data: Props)
    requires sc != 0 && sc < 300
    requires MembersAreJson(t) && MembersAreJson(data)
    ensures UpdateDecision(id, t, merge, Response(sc, data)).NoWrite?
        <==> Bare(Merged(data, t, merge)) == Bare(data)
  {
    var m := Merged(data, t, merge);
    if merge {
      OverlayKeepsJson(data, t);
    }
    RemoveKeepsJson(m, "_rev");
    RemoveKeepsJson(Remove(m, "_rev"), "_id");
    CloneMembersOfJson(data);
    RemoveKeepsJson(data, "_rev");
    RemoveKeepsJson(Remove(data, "_rev"), "_id");
    StringifyInjective(JObj(Bare(m)), JObj(Bare(data)));
  }

  /** After a successful fetch, a write carries the revision fetched in the same attempt, and the id. */
  lemma {:induction false} UpdateUsesFetchedRev(id: string, t: Props, merge: bool, sc: int, data: Props)
    requires sc != 0 && sc < 300
    requires UpdateDecision(id, t, merge, Response(sc, data)).Post?
    ensures Get(UpdateDecision(id, t, merge, Response(sc, data)).doc, "_rev") == Get(data, "_rev")
    ensures Get(UpdateDecision(id, t, merge, Response(sc, data)).doc, "_id") == JStr(id)
    ensures Keys(UpdateDecision(id, t, merge, Response(sc, data)).doc)
         == Keys(Bare(Merged(data, t, merge))) + ["_rev", "_id"]
  {
    var a1 := Bare(Merged(data, t, merge));
    PutKeys(a1, "_rev", Get(data, "_rev"));
    PutKeys(Put(a1, "_rev", Get(data, "_rev")), "_id", JStr(id));
  }

  /** When the documents differ, the update posts the compared document with the fetched revision and the id. */
  lemma {:induction false} UpdateWritesWhenChanged(id: string, t: Props, merge: bool, sc: int, data: Props)
    requires sc != 0 && sc < 300
    requires MembersAreJson(t) && MembersAreJson(data)
    requires Bare(Merged(data, t, merge)) != Bare(data)
    ensures UpdateDecision(id, t, merge, Response(sc, data))
         == Post(Put(Put(Bare(Merged(data, t, merge)), "_rev", Get(data, "_rev")), "_id", JStr(id)))
  {
    NoWriteIffSame(id, t, merge, sc, data);
  }

  /** The library's example of a skipped update: the stored document already holds `{a: 1, b: 2}`. */
  lemma UpdateSkippedExample(db: string)
    ensures var doc := [Member("a", JNum(1)), Member("b", JNum(2)), Member("_id", JStr("myddoc"))];
      var data := [Member("_id", JStr("myddoc")), Member("_rev", JStr("1-123")),
                   Member("a", JNum(1)), Member("b", JNum(2))];
      RunAttempt(UpdateOp(db, "myddoc", doc, false), [Response(200, data)])
      == Step(Succeeded, [GetDoc(DocUrl(db, "myddoc"))], [])
  {
    var doc := [Member("a", JNum(1)), Member("b", JNum(2)), Member("_id", JStr("myddoc"))];
    var data := [Member("_id", JStr("myddoc")), Member("_rev", JStr("1-123")),
                 Member("a", JNum(1)), Member("b", JNum(2))];
    assert MembersAreJson(doc) && MembersAreJson(data);
    CloneMembersOfJson(doc);
    NoWriteIffSame("myddoc", doc, false, 200, data);
    assert Bare(doc) == [Member("a", JNum(1)), Member("b", JNum(2))] == Bare(data);
  }

  /**
   * The library's example of a merge, for any values: `{c: z}` merged into the
   * stored `{_id, _rev, a: x, b: y}` posts `{a: x, b: y, c: z, _rev, _id}`.
   */
  lemma MergeExample(id: string, rev: string, x: int, y: int, z: int)
    ensures UpdateDecision(id, [Member("c", JNum(z)), Member("_id", JStr(id))], true,
                           Response(200, [Member("_id", JStr(id)), Member("_rev", JStr(rev)),
                                          Member("a", JNum(x)), Member("b", JNum(y))]))
         == Post([Member("a", JNum(x)), Member("b", JNum(y)), Member("c", JNum(z)),
                  Member("_rev", JStr(rev)), Member("_id", JStr(id))])
  {
    var c, i := Member("c", JNum(z)), Member("_id", JStr(id));
    var r, a, b := Member("_rev", JStr(rev)), Member("a", JNum(x)), Member("b", JNum(y));
    var t, data := [c, i], [i, r, a, b];
    assert IsJson(c.value) && IsJson(i.value) && IsJson(r.value) && IsJson(a.value) && IsJson(b.value);
    assert MembersAreJson(t) by {
      assert [i][1..] == [] && MembersAreJson([i]);
      assert t[1..] == [i];
    }
    assert MembersAreJson(data) by {
      assert [b][1..] == [] && MembersAreJson([b]);
      assert [a, b][1..] == [b] && MembersAreJson([a, b]);
      assert [r, a, b][1..] == [a, b] && MembersAreJson([r, a, b]);
      assert data[1..] == [r, a, b];
    }
    MergeExampleOverlay(c, i, r, a, b);
    MergeExampleBare(c, i, r, a, b);
    assert Bare(Merged(data, t, true)) != Bare(data) by {
      assert |[a, b, c]| != |[a, b]|;
    }
    UpdateWritesWhenChanged(id, t, true, 200, data);
    MergeExampleAttach(c, i, r, a, b);
  }

  lemma MergeExampleOverlay(c: Member, i: Member, r: Member, a: Member, b: Member)
    requires c.key == "c" && i.key == "_id" && r.key == "_rev" && a.key == "a" && b.key == "b"
    ensures Overlay([i, r, a, b], [c, i]) == [i, r, a, b, c]
  {
    var t, data := [c, i], [i, r, a, b];
    assert t[..1] == [c] && [c][..0] == [];
    assert Put(data, "c", c.value) == [i, r, a, b, c] by {
      assert Put([b], "c", c.value) == [b, c];
      assert Put([a, b], "c", c.value) == [a, b, c];
      assert Put([r, a, b], "c", c.value) == [r, a, b, c];
    }
    assert Overlay(data, t[..1]) == [i, r, a, b, c];
    assert Put([i, r, a, b, c], "_id", i.value) == [i, r, a, b, c];
  }

  lemma MergeExampleBare(c: Member, i: Member, r: Member, a: Member, b: Member)
    requires c.key == "c" && i.key == "_id" && r.key == "_rev" && a.key == "a" && b.key == "b"
    ensures Bare([i, r, a, b, c]) == [a, b, c]
    ensures Bare([i, r, a, b]) == [a, b]
  {
    MergeExampleBareMerged(c, i, r, a, b);
    MergeExampleBareStored(i, r, a, b);
  }

  lemma MergeExampleBareMerged(c: Member, i: Member, r: Member, a: Member, b: Member)
    requires c.key == "c" && i.key == "_id" && r.key == "_rev" && a.key == "a" && b.key == "b"
    ensures Bare([i, r, a, b, c]) == [a, b, c]
  {
    assert Remove([i, r, a, b, c], "_rev") == [i, a, b, c] by {
      assert Remove([c], "_rev") == [c];
      assert Remove([b, c], "_rev") == [b, c];
      assert Remove([a, b, c], "_rev") == [a, b, c];
    }
    assert Remove([i, a, b, c], "_id") == [a, b, c] by {
      assert Remove([c], "_id") == [c];
      assert Remove([b, c], "_id") == [b, c];
      assert Remove([a, b, c], "_id") == [a, b, c];
    }
  }

  lemma MergeExampleBareStored(i: Member, r: Member, a: Member, b: Member)
    requires i.key == "_id" && r.key == "_rev" && a.key == "a" && b.key == "b"
    ensures Bare([i, r, a, b]) == [a, b]
  {
    assert Remove([i, r, a, b], "_rev") == [i, a, b] by {
      assert Remove([a, b], "_rev") == [a, b];
    }
    assert Remove([i, a, b], "_id") == [a, b] by {
      assert Remove([a, b], "_id") == [a, b];
    }
  }

  lemma MergeExampleAttach(c: Member, i: Member, r: Member, a: Member, b: Member)
    requires c.key == "c" && i.key == "_id" && r.key == "_rev" && a.key == "a" && b.key == "b"
    ensures Put(Put([a, b, c], "_rev", r.value), "_id", i.value) == [a, b, c, r, i]
  {
    assert Put([a, b, c], "_rev", r.value) == [a, b, c, r] by {
      assert Put([c], "_rev", r.value) == [c, r];
      assert Put([b, c], "_rev", r.value) == [b, c, r];
    }
    assert Put([a, b, c, r], "_id", i.value) == [a, b, c, r, i] by {
      assert Put([r], "_id", i.value) == [r, i];
      assert Put([c, r], "_id", i.value) == [c, r, i];
      assert Put([b, c, r], "_id", i.value) == [b, c, r, i];
    }
  }

  /** Reading a member of an overlay: the caller's value if the caller has the key, else the stored one. */
  lemma {:induction false} OverlayGet(data: Props, t: Props, k: string)
    requires DistinctKeys(t)
    ensures Get(Overlay(data, t), k) == if k in Keys(t) then Get(t, k) else Get(data, k)
  {
    if t != [] {
      var n := |t| - 1;
      var init := t[..n];
      assert DistinctKeys(init);
      OverlayGet(data, init, k);
      KeysOfPrefix(t, n);
      if k == t[n].key {
        GetOfDistinct(t, n);
      } else {
        GetBeforeLast(t, k);
      }
    }
  }

  /** The keys of `t` are those of its front part plus its last key. */
  lemma {:induction false} KeysOfPrefix(t: Props, n: nat)
    requires n < |t| && n == |t| - 1
    ensures Keys(t) == Keys(t[..n]) + [t[n].key]
  {
    if n > 0 {
      KeysOfPrefix(t[1..], n - 1);
      assert t[1..][..n - 1] == t[..n][1..];
    } else {
      assert t[..n] == [];
    }
  }

  /** In an object without repeated keys, a member's key reads as its own value. */
  lemma {:induction false} GetOfDistinct(t: Props, i: nat)
    requires DistinctKeys(t) && i < |t|
    ensures Get(t, t[i].key) == t[i].value
  {
    if i > 0 {
      assert t[0].key != t[i].key;
      assert DistinctKeys(t[1..]) by {
        forall a, b | 0 <= a < b < |t[1..]| ensures t[1..][a].key != t[1..][b].key {
          assert t[1..][a] == t[a + 1] && t[1..][b] == t[b + 1];
        }
      }
      GetOfDistinct(t[1..], i - 1);
    }
  }

  lemma {:induction false} GetBeforeLast(t: Props, k: string)
    requires t != [] && k != t[|t| - 1].key
    ensures Get(t, k) == Get(t[..|t| - 1], k)
  {
    if |t| > 1 {
      GetBeforeLast(t[1..], k);
      assert t[1..][..|t| - 2] == t[..|t| - 1][1..];
    } else {
      assert t[..|t| - 1] == [];
    }
  }

  /** Stored keys keep their places in an overlay; the caller's new keys come after them. */
  lemma {:induction false} OverlayKeys(data: Props, t: Props)
    ensures |Keys(data)| <= |Keys(Overlay(data, t))|
    ensures Keys(Overlay(data, t))[..|Keys(data)|] == Keys(data)
    ensures forall k :: k in Keys(Overlay(data, t)) ==> k in Keys(data) || k in Keys(t)
  {
    if t != [] {
      var n := |t| - 1;
      OverlayKeys(data, t[..n]);
      KeysOfPrefix(t, n);
      PutKeys(Overlay(data, t[..n]), t[n].key, t[n].value);
    }
  }

  /**
   * A merging update after a successful fetch writes the stored document
   * overlaid with the caller's members, without the caller's `_id`/`_rev`,
   * with the stored revision and the id attached.
   */
  lemma {:induction false} MergeBody(id: string, t: Props, sc: int, data: Props, k: string)
    requires sc != 0 && sc < 300 && DistinctKeys(t)
    requires UpdateDecision(id, t, true, Response(sc, data)).Post?
    ensures var body := UpdateDecision(id, t, true, Response(sc, data)).doc;
      && Get(body, "_rev") == Get(data, "_rev")
      && Get(body, "_id") == JStr(id)
      && (k != "_rev" && k != "_id" ==> Get(body, k) == if k in Keys(t) then Get(t, k) else Get(data, k))
  {
    var merged := Overlay(data, t);
    var a1 := Remove(Remove(merged, "_rev"), "_id");
    var a2 := Put(a1, "_rev", Get(data, "_rev"));
    assert UpdateDecision(id, t, true, Response(sc, data)).doc == Put(a2, "_id", JStr(id));
    if k != "_rev" && k != "_id" {
      OverlayGet(data, t, k);
      assert Get(a1, k) == Get(merged, k);
    }
  }

  // ---------------------------------------------------------------------
  // Properties of the retry

  lemma {:induction false} RetryFromShape(task: seq<Reply> -> Step, rs: seq<Reply>, attempt: nat)
    requires 1 <= attempt <= Times
    ensures var r := RetryFrom(task, rs, attempt);
      && attempt <= r.attempts <= Times
      && |r.delays| == r.attempts - attempt
      && (forall i :: 0 <= i < |r.delays| ==> r.delays[i] == Interval(attempt + i))
      && (r.outcome.Rejected? ==> r.attempts == Times)
    decreases Times - attempt
  {
    var s := task(rs);
    if !s.result.Succeeded? && attempt < Times {
      RetryFromShape(task, s.rest, attempt + 1);
    }
  }

  /** Every attempt of an operation sends one or two requests. */
  lemma {:induction false} AttemptSends(op: Op, rs: seq<Reply>)
    ensures 1 <= |RunAttempt(op, rs).sent| <= 2
  {
  }

  /**
   * The retry, unrolled: the operation is rejected exactly when all three
   * attempts fail, with the status of the third; otherwise it resolves at
   * the first attempt that succeeds. Each attempt runs on the replies the
   * previous ones left, and the pauses are 100 ms and then 200 ms.
   */
  lemma {:induction false} RetryUnrolled(task: seq<Reply> -> Step, rs: seq<Reply>)
    ensures var s1 := task(rs);
      var s2 := task(s1.rest);
      var s3 := task(s2.rest);
      RetryFrom(task, rs, 1) ==
        if s1.result.Succeeded? then Run(Resolved, s1.sent, s1.rest, 1, [])
        else if s2.result.Succeeded? then Run(Resolved, s1.sent + s2.sent, s2.rest, 2, [100])
        else if s3.result.Succeeded? then Run(Resolved, s1.sent + s2.sent + s3.sent, s3.rest, 3, [100, 200])
        else Run(Rejected(s3.result.status), s1.sent + s2.sent + s3.sent, s3.rest, 3, [100, 200])
  {
    var s1 := task(rs);
    var s2 := task(s1.rest);
    var s3 := task(s2.rest);
    assert Interval(1) == 100 && Interval(2) == 200;
    var r3 := RetryFrom(task, s2.rest, 3);
    assert r3 == if s3.result.Succeeded? then Run(Resolved, s3.sent, s3.rest, 3, [])
      else Run(Rejected(s3.result.status), s3.sent, s3.rest, 3, []);
    var r2 := RetryFrom(task, s1.rest, 2);
    assert r2 == if s2.result.Succeeded? then Run(Resolved, s2.sent, s2.rest, 2, [])
      else Run(r3.outcome, s2.sent + r3.sent, r3.rest, r3.attempts, [200] + r3.delays);
    assert s1.sent + (s2.sent + s3.sent) == s1.sent + s2.sent + s3.sent;
  }

  /** At most three attempts, so at most six requests, and never a fourth attempt. */
  lemma {:induction false} AtMostThreeAttempts(op: Op, rs: seq<Reply>)
    ensures var r := Perform(op, rs);
      && 1 <= r.attempts <= 3
      && |r.sent| <= 2 * r.attempts
      && r.delays == [100, 200][..r.attempts - 1]
      && (r.outcome.Rejected? ==> r.attempts == 3)
  {
    var task := Task(op);
    RetryFromShape(task, rs, 1);
    RetryUnrolled(task, rs);
    var s1 := task(rs);
    var s2 := task(s1.rest);
    var s3 := task(s2.rest);
    AttemptSends(op, rs);
    AttemptSends(op, s1.rest);
    AttemptSends(op, s2.rest);
  }

  /** Deleting a document that stays missing: three fetches, no delete, rejected with 404. */
  lemma {:induction false} DeleteMissing(db: string, id: string, rs: seq<Reply>)
    requires |rs| >= 3
    requires forall i :: 0 <= i < 3 ==> rs[i].Response? && rs[i].status == 404
    ensures Perform(DelOp(db, id), rs).outcome == Rejected(404)
    ensures Perform(DelOp(db, id), rs).sent == [GetDoc(DocUrl(db, id)), GetDoc(DocUrl(db, id)), GetDoc(DocUrl(db, id))]
  {
    var op := DelOp(db, id);
    RetryUnrolled(Task(op), rs);
    DeleteAfterFailedFetch(db, id, rs);
    assert Rest(rs) == rs[1..] && Next(rs[1..]) == rs[1];
    DeleteAfterFailedFetch(db, id, rs[1..]);
    assert Rest(rs[1..]) == rs[2..] && Next(rs[2..]) == rs[2];
    DeleteAfterFailedFetch(db, id, rs[2..]);
  }

  /** After a conflict the second delete carries the revision fetched by the second attempt. */
  lemma {:induction false} DeleteAfterConflict(db: string, id: string, d1: Props, d2: Props, c: Props, w: Props)
    ensures var rs := [Response(200, d1), Response(409, c), Response(200, d2), Response(200, w)];
      var url := DocUrl(db, id);
      && Perform(DelOp(db, id), rs).outcome == Resolved
      && Perform(DelOp(db, id), rs).sent
         == [GetDoc(url), DeleteDoc(url, Get(d1, "_rev")), GetDoc(url), DeleteDoc(url, Get(d2, "_rev"))]
  {
    var rs := [Response(200, d1), Response(409, c), Response(200, d2), Response(200, w)];
    RetryUnrolled(Task(DelOp(db, id)), rs);
    assert Rest(Rest(rs)) == rs[2..];
    DeleteUsesFetchedRev(db, id, rs);
    DeleteUsesFetchedRev(db, id, rs[2..]);
    assert Rest(Rest(rs[2..])) == [];
  }

  /** `insert` puts a clone of the caller's document, and retries on 429 until the third attempt. */
  lemma {:induction false} InsertRetriesOnTooMany(db: string, id: string, doc: Props, b: Props)
    ensures var rs := [Response(429, b), Response(429, b), Response(200, b)];
      var put := PutDoc(DocUrl(db, id), CloneMembers(doc));
      Perform(InsertOp(db, id, doc), rs) == Run(Resolved, [put, put, put], [], 3, [100, 200])
  {
    var rs := [Response(429, b), Response(429, b), Response(200, b)];
    RetryUnrolled(Task(InsertOp(db, id, doc)), rs);
    assert Rest(rs) == rs[1..] && Rest(rs[1..]) == rs[2..] && Rest(rs[2..]) == [];
  }

  // ---------------------------------------------------------------------
  // The store and the operations, step by step

  /** The store as this library sees it: the replies it has still to give, and every request so far. */
  class Store {
    var replies: seq<Reply>
    var log: seq<Request>

    constructor (script: seq<Reply>)
      ensures replies == script && log == []
    {
      replies := script;
      log := [];
    }

    /** Sends one request and takes the next reply of the script. */
    method Send(req: Request) returns (reply: Reply)
      modifies this
      ensures reply == Next(old(replies)) && replies == Rest(old(replies))
      ensures log == old(log) + [req]
    {
      reply := Next(replies);
      replies := Rest(replies);
      log := log + [req];
    }
  }

  /** `fetchAndDelete`: one attempt of `del`. */
  method FetchAndDelete(store: Store, db: string, id: string) returns (res: AttemptResult)
    modifies store
    ensures var s := RunAttempt(DelOp(db, id), old(store.replies));
      res == s.result && store.log == old(store.log) + s.sent && store.replies == s.rest
  {
    var url := DocUrl(db, id);
    var fetched := store.Send(GetDoc(url));
    var sc := StatusCode(fetched);
    if fetched.TransportError? || sc >= 400 {
      return Failed(sc);
    }
    var deleted := store.Send(DeleteDoc(url, Get(fetched.body, "_rev")));
    sc := StatusCode(deleted);
    if deleted.TransportError? || sc >= 400 {
      return Failed(sc);
    }
    return Succeeded;
  }

  /** The merge loop of `update`: each of the caller's members is assigned onto the stored document. */
  method OverlayInto(data: JsObject, caller: Props)
    modifies data
    ensures data.members == Overlay(old(data.members), caller)
  {
    var i := 0;
    while i < |caller|
      invariant 0 <= i <= |caller|
      invariant data.members == Overlay(old(data.members), caller[..i])
    {
      data.Set(caller[i].key, caller[i].value);
      assert caller[..i + 1][..i] == caller[..i];
      i := i + 1;
    }
    assert caller[..i] == caller;
  }

  /**
   * What `update` does between the fetch and the post: `t` is the
   * attempt's clone of the caller's document, changed in place, and `body`
   * is the object posted, if any.
   */
  method DecideUpdate(id: string, t: JsObject, merge: bool, fetched: Reply) returns (a: Action)
    modifies t
    ensures a == UpdateDecision(id, old(t.members), merge, fetched)
  {
    ghost var caller := t.members;
    var body := t;
    if fetched.Response? && StatusCode(fetched) < 300 {
      var data := new JsObject(fetched.body);
      var rev := Get(data.members, "_rev");
      var a1: JsObject, a2: JsObject;
      if merge {
        a2 := new JsObject(CloneMembers(data.members));
        OverlayInto(data, t.members);
        a1 := data;
        body := data;
      } else {
        a1 := t;
        a2 := new JsObject(CloneMembers(data.members));
      }
      assert a1.members == Merged(fetched.body, caller, merge);
      a1.Delete("_rev");
      a2.Delete("_rev");
      a1.Delete("_id");
      a2.Delete("_id");
      assert a1.members == Bare(Merged(fetched.body, caller, merge));
      assert a2.members == Bare(CloneMembers(fetched.body));
      if Stringify(JObj(a1.members)) == Stringify(JObj(a2.members)) {
        return NoWrite;
      }
      body.Set("_rev", rev);
    }
    body.Set("_id", JStr(id));
    a := Post(body.members);
  }

  /** `fetchAndUpdate`: one attempt of `update`, on a fresh clone of the caller's document. */
  method FetchAndUpdate(store: Store, db: string, id: string, doc: Props, merge: bool) returns (res: AttemptResult)
    modifies store
    ensures var s := RunAttempt(UpdateOp(db, id, doc, merge), old(store.replies));
      res == s.result && store.log == old(store.log) + s.sent && store.replies == s.rest
  {
    var t := new JsObject(CloneMembers(doc));
    var fetched := store.Send(GetDoc(DocUrl(db, id)));
    var a := DecideUpdate(id, t, merge, fetched);
    if a.NoWrite? {
      return Succeeded;
    }
    var written := store.Send(PostDoc(db, a.doc));
    var sc := StatusCode(written);
    if written.Response? && sc < 400 {
      res := Succeeded;
    } else {
      res := Failed(sc);
    }
  }

  /** `doInsert`: one attempt of `insert`. */
  method DoInsert(store: Store, db: string, id: string, doc: Props) returns (res: AttemptResult)
    modifies store
    ensures var s := RunAttempt(InsertOp(db, id, doc), old(store.replies));
      res == s.result && store.log == old(store.log) + s.sent && store.replies == s.rest
  {
    var t := CloneMembers(doc);
    var written := store.Send(PutDoc(DocUrl(db, id), t));
    var sc := StatusCode(written);
    if written.Response? && sc < 400 {
      res := Succeeded;
    } else {
      res := Failed(sc);
    }
  }

  method AttemptOnce(store: Store, op: Op) returns (res: AttemptResult)
    modifies store
    ensures var s := Task(op)(old(store.replies));
      res == s.result && store.log == old(store.log) + s.sent && store.replies == s.rest
  {
    match op
    case DelOp(db, id) => res := FetchAndDelete(store, db, id);
    case UpdateOp(db, id, doc, merge) => res := FetchAndUpdate(store, db, id, doc, merge);
    case InsertOp(db, id, doc) => res := DoInsert(store, db, id, doc);
  }

  /**
   * `async.retry({times: 3, interval: 50 * 2^retryCount}, task, ...)`. The
   * pauses are recorded, not waited for.
   */
  method Retry(store: Store, op: Op) returns (outcome: Outcome, ghost delays: seq<nat>)
    modifies store
    ensures var r := Perform(op, old(store.replies));
      && outcome == r.outcome && delays == r.delays
      && store.log == old(store.log) + r.sent && store.replies == r.rest
  {
    var attempt := 1;
    delays := [];
    ghost var sent: seq<Request> := [];
    ghost var task := Task(op);
    ghost var whole := Perform(op, store.replies);
    RetryStarts(task, store.replies, whole);
    while true
      invariant 1 <= attempt <= Times
      invariant store.log == old(store.log) + sent
      invariant whole == After(sent, delays, RetryFrom(task, store.replies, attempt))
      decreases Times - attempt
    {
      ghost var before := store.replies;
      var res := AttemptOnce(store, op);
      if res.Succeeded? || attempt == Times {
        RetryEnds(task, before, attempt, whole, sent, delays);
        Associative(old(store.log), sent, task(before).sent);
        if res.Succeeded? {
          return Resolved, delays;
        }
        return Rejected(res.status), delays;
      }
      RetryAdvances(task, before, attempt, whole, sent, delays);
      Associative(old(store.log), sent, task(before).sent);
      sent := sent + task(before).sent;
      delays := delays + [Interval(attempt)];
      attempt := attempt + 1;
    }
  }

  lemma {:induction false} RetryStarts(task: seq<Reply> -> Step, rs: seq<Reply>, whole: Run)
    requires whole == RetryFrom(task, rs, 1)
    ensures whole == After([], [], RetryFrom(task, rs, 1))
  {
    assert [] + whole.sent == whole.sent;
    assert [] + whole.delays == whole.delays;
  }

  lemma {:induction false} RetryAdvances(task: seq<Reply> -> Step, rs: seq<Reply>, attempt: nat,
                                         whole: Run, sent: seq<Request>, delays: seq<nat>)
    requires 1 <= attempt < Times && task(rs).result.Failed?
    requires whole == After(sent, delays, RetryFrom(task, rs, attempt))
    ensures whole == After(sent + task(rs).sent, delays + [Interval(attempt)], RetryFrom(task, task(rs).rest, attempt + 1))
  {
    var s := task(rs);
    var r := RetryFrom(task, s.rest, attempt + 1);
    assert sent + (s.sent + r.sent) == (sent + s.sent) + r.sent;
    assert delays + ([Interval(attempt)] + r.delays) == (delays + [Interval(attempt)]) + r.delays;
  }

  lemma {:induction false} RetryEnds(task: seq<Reply> -> Step, rs: seq<Reply>, attempt: nat,
                                     whole: Run, sent: seq<Request>, delays: seq<nat>)
    requires 1 <= attempt <= Times && (task(rs).result.Succeeded? || attempt == Times)
    requires whole == After(sent, delays, RetryFrom(task, rs, attempt))
    ensures whole.outcome == if task(rs).result.Succeeded? then Resolved else Rejected(task(rs).result.status)
    ensures whole.sent == sent + task(rs).sent && whole.rest == task(rs).rest && whole.delays == delays
  {
    assert delays + [] == delays;
  }

  lemma {:induction false} Associative<T>(a: seq<T>, b: seq<T>, c: seq<T>)
    ensures a + (b + c) == (a + b) + c
  {
  }

  /** `del(db, id)`. */
  method Del(store: Store, db: string, id: string) returns (outcome: Outcome)
    modifies store
    ensures var r := Perform(DelOp(db, id), old(store.replies));
      outcome == r.outcome && store.log == old(store.log) + r.sent && store.replies == r.rest
  {
    ghost var delays;
    outcome, delays := Retry(store, DelOp(db, id));
  }

  /** `update(db, id, thedoc, merge)`: sets `thedoc._id` first, then retries. */
  method Update(store: Store, db: string, id: string, thedoc: JsObject, merge: bool) returns (outcome: Outcome)
    modifies store, thedoc
    ensures thedoc.members == Put(old(thedoc.members), "_id", JStr(id))
    ensures var r := Perform(UpdateOp(db, id, thedoc.members, merge), old(store.replies));
      outcome == r.outcome && store.log == old(store.log) + r.sent && store.replies == r.rest
  {
    thedoc.Set("_id", JStr(id));
    ghost var delays;
    outcome, delays := Retry(store, UpdateOp(db, id, thedoc.members, merge));
  }

  /** `insert(db, id, thedoc)`. */
  method Insert(store: Store, db: string, id: string, thedoc: JsObject) returns (outcome: Outcome)
    modifies store
    ensures var r := Perform(InsertOp(db, id, thedoc.members), old(store.replies));
      outcome == r.outcome && store.log == old(store.log) + r.sent && store.replies == r.rest
  {
    ghost var delays;
    outcome, delays := Retry(store, InsertOp(db, id, thedoc.members));
  }
}
