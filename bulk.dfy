/**
 * Bulk import (lib/bulk.js): the caller's array of documents is cut, in
 * place, into consecutive batches of at most 500; every batch goes to the
 * store's bulk endpoint, and the replies are folded into a count of
 * documents written and documents that failed.
 *
 * The library hands the batches to a queue that runs five at a time. The
 * counters only ever grow by per-batch amounts, so the model drains the
 * queue one batch after the other and proves separately that the totals do
 * not depend on the order in which the batches complete.
 */
module Bulk {
  import opened Json

  const BufferSize: nat := 500

  datatype Option<T> = None | Some(value: T)

  /** What the bulk endpoint answers for one batch: an error, or one entry per document. */
  datatype BulkReply = BulkError | BulkOk(entries: seq<Json>)

  /** The pair of counters `written` / `totalfailed` (or `ok` / `failed` for one batch). */
  datatype Count = Count(success: nat, failed: nat)

  /**
   * How an import ends. It never rejects: either the queue drains and the
   * promise resolves with `{ok: true, success, failed}`, or reading `d.id`
   * of a `null` or `undefined` reply entry throws inside the callback, and
   * then the promise never settles.
   */
  datatype ImportOutcome = Settled(success: nat, failed: nat) | Threw

  /** The do/while of `importArray`: the batches queued for `docs`, in order. */
  function Batches(docs: seq<Json>): (r: seq<seq<Json>>)
    ensures |r| >= 1
    ensures forall i :: 0 <= i < |r| ==> |r[i]| <= BufferSize
    ensures forall i :: 0 <= i < |r| - 1 ==> |r[i]| == BufferSize
    ensures |docs| > 0 ==> forall i :: 0 <= i < |r| ==> |r[i]| > 0
    decreases |docs|
  {
    if |docs| <= BufferSize then [docs]
    else [docs[..BufferSize]] + Batches(docs[BufferSize..])
  }

  /** All batches laid end to end. */
  function Flatten(bs: seq<seq<Json>>): seq<Json>
  {
    if bs == [] then [] else bs[0] + Flatten(bs[1..])
  }

  /** The batches, laid end to end, are the input in order. */
  lemma {:induction false} BatchesCover(docs: seq<Json>)
    ensures Flatten(Batches(docs)) == docs
    decreases |docs|
  {
    if |docs| > BufferSize {
      var r := Batches(docs);
      BatchesCover(docs[BufferSize..]);
      assert r[1..] == Batches(docs[BufferSize..]);
      assert docs[..BufferSize] + docs[BufferSize..] == docs;
    } else {
      assert Batches(docs)[1..] == [];
    }
  }

  /** There is one batch for no documents, and `ceil(n / 500)` for `n > 0` documents. */
  lemma {:induction false} BatchCount(docs: seq<Json>)
    ensures |Batches(docs)| == if |docs| == 0 then 1 else (|docs| + BufferSize - 1) / BufferSize
    decreases |docs|
  {
    if |docs| > BufferSize {
      BatchCount(docs[BufferSize..]);
    }
  }

  /** No documents still make one, empty, batch. */
  lemma EmptyInputOneBatch()
    ensures Batches([]) == [[]]
  {
  }

  /** 750 documents go as 500 and then 250. */
  lemma {:induction false} ManyDocsBatches(docs: seq<Json>)
    requires |docs| == 750
    ensures Batches(docs) == [docs[..500], docs[500..]]
  {
    assert Batches(docs[500..]) == [docs[500..]];
  }

  /** Reading `d.id` / `d.rev` throws for these two and no other value. */
  predicate Unreadable(d: Json)
  {
    d.JNull? || d.JUndefined?
  }

  /** `(d.id && d.rev) ? true : false` for a reply entry that can be read. */
  predicate EntryOk(d: Json)
  {
    d.JObj? && Truthy(Get(d.members, "id")) && Truthy(Get(d.members, "rev"))
  }

  /** The counters of one batch's entries, or `None` when one of them cannot be read. */
  function EntriesCount(es: seq<Json>): Option<Count>
    decreases |es|
  {
    if es == [] then Some(Count(0, 0))
    else
      var e := es[|es| - 1];
      var before := EntriesCount(es[..|es| - 1]);
      if before.None? || Unreadable(e) then None
      else if EntryOk(e) then Some(Count(before.value.success + 1, before.value.failed))
      else Some(Count(before.value.success, before.value.failed + 1))
  }

  /**
   * A reply can be counted exactly when none of its entries is `null` or
   * `undefined`; then every entry is counted once, as written or as failed.
   */
  lemma {:induction false} EntriesCountSpec(es: seq<Json>)
    ensures var r := EntriesCount(es);
      && (r.Some? <==> forall i :: 0 <= i < |es| ==> !Unreadable(es[i]))
      && (r.Some? ==> r.value.success + r.value.failed == |es|)
      && (r.Some? ==> (r.value.success == |es| <==> forall i :: 0 <= i < |es| ==> EntryOk(es[i])))
      && (r.Some? ==> (r.value.success == 0 <==> forall i :: 0 <= i < |es| ==> !EntryOk(es[i])))
    decreases |es|
  {
    if es != [] {
      var front := es[..|es| - 1];
      EntriesCountSpec(front);
      assert forall i :: 0 <= i < |es| - 1 ==> front[i] == es[i];
    }
  }

  /** The positions of the entries that count as written. */
  ghost function OkAt(es: seq<Json>): set<nat>
  {
    set i: nat | i < |es| && EntryOk(es[i])
  }

  /** The positions of the entries that count as failed. */
  ghost function FailedAt(es: seq<Json>): set<nat>
  {
    set i: nat | i < |es| && !EntryOk(es[i])
  }

  /** The last entry joins exactly one of the two position sets. */
  lemma PositionsSnoc(es: seq<Json>)
    requires es != []
    ensures var n := |es| - 1;
      && (EntryOk(es[n]) ==> OkAt(es) == OkAt(es[..n]) + {n} && FailedAt(es) == FailedAt(es[..n]))
      && (!EntryOk(es[n]) ==> OkAt(es) == OkAt(es[..n]) && FailedAt(es) == FailedAt(es[..n]) + {n})
      && n !in OkAt(es[..n]) && n !in FailedAt(es[..n])
  {
    var n := |es| - 1;
    var front := es[..n];
    assert forall i :: 0 <= i < n ==> front[i] == es[i];
  }

  /**
   * A counted reply has as many successes as entries with a truthy `id` and
   * `rev`, and as many failures as the other entries.
   */
  lemma {:induction false} EntriesCountIsOkCount(es: seq<Json>)
    ensures var r := EntriesCount(es);
      r.Some? ==> r.value.success == |OkAt(es)| && r.value.failed == |FailedAt(es)|
    decreases |es|
  {
    if es == [] {
      assert OkAt(es) == {} && FailedAt(es) == {};
    } else {
      var front := es[..|es| - 1];
      EntriesCountIsOkCount(front);
      PositionsSnoc(es);
    }
  }

  /** What one batch adds to the counters: a failed request counts each of its documents as failed. */
  function BatchTally(batch: seq<Json>, reply: BulkReply): Option<Count>
  {
    match reply
    case BulkError => Some(Count(0, |batch|))
    case BulkOk(es) => EntriesCount(es)
  }

  /** The next reply; a store with no reply left answers with an error. */
  function Next(rs: seq<BulkReply>): BulkReply
  {
    if rs == [] then BulkError else rs[0]
  }

  function Rest(rs: seq<BulkReply>): seq<BulkReply>
  {
    if rs == [] then [] else rs[1..]
  }

  /** The queue drained: its outcome, the number of batches posted and the replies left. */
  datatype Drained = Drained(outcome: ImportOutcome, posted: nat, rest: seq<BulkReply>)

  /** `c` counted and `n` batches posted before `d`. */
  function AddTo(c: Count, n: nat, d: Drained): Drained
  {
    match d.outcome
    case Threw => Drained(Threw, n + d.posted, d.rest)
    case Settled(s, f) => Drained(Settled(c.success + s, c.failed + f), n + d.posted, d.rest)
  }

  /** Draining `queue` one batch at a time against the store's replies `rs`. */
  function Drain(queue: seq<seq<Json>>, rs: seq<BulkReply>): (r: Drained)
    ensures r.outcome.Settled? ==> r.posted == |queue|
    ensures queue != [] ==> 1 <= r.posted <= |queue|
    decreases |queue|
  {
    if queue == [] then Drained(Settled(0, 0), 0, rs)
    else
      match BatchTally(queue[0], Next(rs))
      case None => Drained(Threw, 1, Rest(rs))
      case Some(c) => AddTo(c, 1, Drain(queue[1..], Rest(rs)))
  }

  /** `importArray(docs)` against a store that answers `rs`. */
  function Import(docs: seq<Json>, rs: seq<BulkReply>): Drained
  {
    Drain(Batches(docs), rs)
  }

  /** The counters of one completed batch added to the totals; `None` stays `None`. */
  function Plus(a: Option<Count>, b: Option<Count>): Option<Count>
  {
    if a.None? || b.None? then None
    else Some(Count(a.value.success + b.value.success, a.value.failed + b.value.failed))
  }

  /** The totals over batches paired with their replies, in whatever order they completed. */
  function Total(done: seq<(seq<Json>, BulkReply)>): Option<Count>
  {
    if done == [] then Some(Count(0, 0))
    else Plus(BatchTally(done[0].0, done[0].1), Total(done[1..]))
  }

  /** Each queued batch with the reply it receives. */
  function Pairs(queue: seq<seq<Json>>, rs: seq<BulkReply>): seq<(seq<Json>, BulkReply)>
    decreases |queue|
  {
    if queue == [] then [] else [(queue[0], Next(rs))] + Pairs(queue[1..], Rest(rs))
  }

  function OutcomeOf(t: Option<Count>): ImportOutcome
  {
    if t.None? then Threw else Settled(t.value.success, t.value.failed)
  }

  /** The drain's outcome is the total over every batch and its reply. */
  lemma {:induction false} DrainIsTotal(queue: seq<seq<Json>>, rs: seq<BulkReply>)
    ensures Drain(queue, rs).outcome == OutcomeOf(Total(Pairs(queue, rs)))
    decreases |queue|
  {
    if queue != [] {
      var p := Pairs(queue, rs);
      assert p[0] == (queue[0], Next(rs)) && p[1..] == Pairs(queue[1..], Rest(rs));
      DrainIsTotal(queue[1..], Rest(rs));
    }
  }

  lemma {:induction false} TotalAppend(a: seq<(seq<Json>, BulkReply)>, b: seq<(seq<Json>, BulkReply)>)
    ensures Total(a + b) == Plus(Total(a), Total(b))
    decreases |a|
  {
    if a != [] {
      assert (a + b)[0] == a[0] && (a + b)[1..] == a[1..] + b;
      TotalAppend(a[1..], b);
      PlusAssociative(BatchTally(a[0].0, a[0].1), Total(a[1..]), Total(b));
    } else {
      assert a + b == b;
    }
  }

  lemma {:induction false} PlusAssociative(x: Option<Count>, y: Option<Count>, z: Option<Count>)
    ensures Plus(x, Plus(y, z)) == Plus(Plus(x, y), z)
  {
  }

  /**
   * The totals do not depend on the order in which batches complete: any
   * rearrangement of the same batches and replies gives the same totals.
   */
  lemma {:induction false} TotalOrderFree(p: seq<(seq<Json>, BulkReply)>, q: seq<(seq<Json>, BulkReply)>)
    requires multiset(p) == multiset(q)
    ensures Total(p) == Total(q)
    decreases |p|
  {
    if p == [] {
      assert |q| == |multiset(q)| == 0;
    } else {
      assert p[0] in multiset(q);
      var j :| 0 <= j < |q| && q[j] == p[0];
      var q' := q[..j] + q[j + 1..];
      MultisetWithout(p, q, j);
      TotalOrderFree(p[1..], q');
      TotalWithout(q, j);
    }
  }

  lemma {:induction false} MultisetWithout<T>(p: seq<T>, q: seq<T>, j: nat)
    requires multiset(p) == multiset(q) && p != [] && j < |q| && q[j] == p[0]
    ensures multiset(p[1..]) == multiset(q[..j] + q[j + 1..])
  {
    assert p == [p[0]] + p[1..];
    assert q == q[..j] + [q[j]] + q[j + 1..];
    assert multiset(p[1..]) == multiset(p) - multiset{p[0]};
    assert multiset(q[..j] + q[j + 1..]) == multiset(q) - multiset{p[0]};
  }

  /** Taking one completed batch out of the totals. */
  lemma {:induction false} TotalWithout(q: seq<(seq<Json>, BulkReply)>, j: nat)
    requires j < |q|
    ensures Total(q) == Plus(BatchTally(q[j].0, q[j].1), Total(q[..j] + q[j + 1..]))
  {
    var x := BatchTally(q[j].0, q[j].1);
    assert q == q[..j] + ([q[j]] + q[j + 1..]);
    TotalAppend(q[..j], [q[j]] + q[j + 1..]);
    assert ([q[j]] + q[j + 1..])[0] == q[j] && ([q[j]] + q[j + 1..])[1..] == q[j + 1..];
    TotalAppend(q[..j], q[j + 1..]);
    PlusSwap(Total(q[..j]), x, Total(q[j + 1..]));
  }

  lemma {:induction false} PlusSwap(a: Option<Count>, x: Option<Count>, b: Option<Count>)
    ensures Plus(a, Plus(x, b)) == Plus(x, Plus(a, b))
  {
  }

  /** A store that answers every document of every batch settles, with every document counted. */
  lemma {:induction false} DrainCountsAll(queue: seq<seq<Json>>, rs: seq<BulkReply>)
    requires forall i :: 0 <= i < |queue| ==>
      (i < |rs| && rs[i].BulkOk?) ==> |rs[i].entries| == |queue[i]| && forall k :: 0 <= k < |rs[i].entries| ==> !Unreadable(rs[i].entries[k])
    ensures Drain(queue, rs).outcome.Settled?
    ensures Drain(queue, rs).outcome.success + Drain(queue, rs).outcome.failed == |Flatten(queue)|
    decreases |queue|
  {
    if queue != [] {
      forall i | 0 <= i < |queue[1..]| && i < |Rest(rs)| && Rest(rs)[i].BulkOk?
        ensures |Rest(rs)[i].entries| == |queue[1..][i]|
        ensures forall k :: 0 <= k < |Rest(rs)[i].entries| ==> !Unreadable(Rest(rs)[i].entries[k])
      {
        assert Rest(rs)[i] == rs[i + 1];
      }
      DrainCountsAll(queue[1..], Rest(rs));
      if rs != [] && rs[0].BulkOk? {
        assert Next(rs) == rs[0];
        EntriesCountSpec(rs[0].entries);
      }
    }
  }

  /** The library's example: one document written and one refused. */
  lemma MixedReplyExample(d1: Json, d2: Json)
    ensures var entry1 := JObj([Member("ok", JBool(true)), Member("id", JStr("mydoc1")), Member("rev", JStr("1-123"))]);
      var entry2 := JObj([Member("ok", JBool(false)), Member("id", JStr("mydoc2")), Member("err", JStr("conflict"))]);
      Import([d1, d2], [BulkOk([entry1, entry2])]) == Drained(Settled(1, 1), 1, [])
  {
    var entry1 := JObj([Member("ok", JBool(true)), Member("id", JStr("mydoc1")), Member("rev", JStr("1-123"))]);
    var entry2 := JObj([Member("ok", JBool(false)), Member("id", JStr("mydoc2")), Member("err", JStr("conflict"))]);
    assert EntryOk(entry1);
    assert !EntryOk(entry2);
    assert [entry1][..0] == [];
    assert EntriesCount([entry1]) == Some(Count(1, 0));
    assert [entry1, entry2][..1] == [entry1];
    assert EntriesCount([entry1, entry2]) == Some(Count(1, 1));
    ImportOneBatch(d1, d2, [BulkOk([entry1, entry2])]);
  }

  /** The library's example: a failed bulk request counts both documents as failed. */
  lemma FailedRequestExample(d1: Json, d2: Json)
    ensures Import([d1, d2], [BulkError]) == Drained(Settled(0, 2), 1, [])
  {
    ImportOneBatch(d1, d2, [BulkError]);
  }

  lemma {:induction false} ImportOneBatch(d1: Json, d2: Json, rs: seq<BulkReply>)
    requires |rs| == 1 && BatchTally([d1, d2], rs[0]).Some?
    ensures Import([d1, d2], rs) == AddTo(BatchTally([d1, d2], rs[0]).value, 1, Drained(Settled(0, 0), 0, []))
  {
    var q := Batches([d1, d2]);
    assert q == [[d1, d2]];
    assert q[0] == [d1, d2] && q[1..] == [];
    assert Rest(rs) == [] && Next(rs) == rs[0];
    assert Drain(q[1..], Rest(rs)) == Drained(Settled(0, 0), 0, []);
  }

  /** The library's example: 750 documents, every one accepted, in two batches. */
  lemma {:induction false} ManyDocsExample(docs: seq<Json>, first: seq<Json>, second: seq<Json>)
    requires |docs| == 750 && |first| == 500 && |second| == 250
    requires forall i :: 0 <= i < |first| ==> EntryOk(first[i])
    requires forall i :: 0 <= i < |second| ==> EntryOk(second[i])
    ensures Import(docs, [BulkOk(first), BulkOk(second)]) == Drained(Settled(750, 0), 2, [])
  {
    ManyDocsBatches(docs);
    AllAccepted(first);
    AllAccepted(second);
    DrainTwo(docs[..500], docs[500..], BulkOk(first), BulkOk(second));
  }

  lemma {:induction false} AllAccepted(es: seq<Json>)
    requires forall i :: 0 <= i < |es| ==> EntryOk(es[i])
    ensures EntriesCount(es) == Some(Count(|es|, 0))
  {
    EntriesCountSpec(es);
  }

  lemma {:induction false} DrainTwo(b1: seq<Json>, b2: seq<Json>, r1: BulkReply, r2: BulkReply)
    requires BatchTally(b1, r1).Some? && BatchTally(b2, r2).Some?
    ensures var c1, c2 := BatchTally(b1, r1).value, BatchTally(b2, r2).value;
      Drain([b1, b2], [r1, r2]) == Drained(Settled(c1.success + c2.success, c1.failed + c2.failed), 2, [])
  {
    var queue, rs := [b1, b2], [r1, r2];
    assert queue[0] == b1 && queue[1..] == [b2] && queue[1..][1..] == [];
    assert Next(rs) == r1 && Rest(rs) == [r2];
    assert Next(Rest(rs)) == r2 && Rest(Rest(rs)) == [];
    assert Drain(queue[1..][1..], Rest(Rest(rs))) == Drained(Settled(0, 0), 0, []);
  }

  // ---------------------------------------------------------------------
  // The same, step by step

  /** A mutable JavaScript array. */
  class JsArray {
    var elems: seq<Json>

    constructor (xs: seq<Json>)
      ensures elems == xs
    {
      elems := xs;
    }

    /** `this.splice(0, count)`: removes and returns the first `count` elements (all of them if fewer). */
    method SpliceFront(count: nat) returns (removed: seq<Json>)
      modifies this
      ensures var n := if count <= |old(elems)| then count else |old(elems)|;
        removed == old(elems)[..n] && elems == old(elems)[n..]
    {
      var n := if count <= |elems| then count else |elems|;
      removed := elems[..n];
      elems := elems[n..];
    }
  }

  /** The bulk endpoint: the replies it has still to give, and every batch it has received. */
  class BulkStore {
    var replies: seq<BulkReply>
    var received: seq<seq<Json>>

    constructor (script: seq<BulkReply>)
      ensures replies == script && received == []
    {
      replies := script;
      received := [];
    }

    /** `db.bulk({docs: batch}, callback)` */
    method Bulk(batch: seq<Json>) returns (reply: BulkReply)
      modifies this
      ensures reply == Next(old(replies)) && replies == Rest(old(replies))
      ensures received == old(received) + [batch]
    {
      reply := Next(replies);
      replies := Rest(replies);
      received := received + [batch];
    }
  }

  /**
   * The loop of the queue's worker over one bulk reply: counts the entries
   * that carry both `id` and `rev`, and the others; `threw` when an entry is
   * `null` or `undefined`.
   */
  method CountEntries(data: seq<Json>) returns (ok: nat, failed: nat, threw: bool)
    ensures threw <==> EntriesCount(data).None?
    ensures !threw ==> EntriesCount(data) == Some(Count(ok, failed))
  {
    ok, failed := 0, 0;
    var i := 0;
    while i < |data|
      invariant 0 <= i <= |data|
      invariant EntriesCount(data[..i]) == Some(Count(ok, failed))
    {
      var d := data[i];
      assert data[..i + 1][..i] == data[..i];
      if Unreadable(d) {
        EntriesCountPrefix(data, i + 1);
        return ok, failed, true;
      }
      if EntryOk(d) {
        ok := ok + 1;
      } else {
        failed := failed + 1;
      }
      i := i + 1;
    }
    assert data[..i] == data;
    threw := false;
  }

  /** Once a prefix cannot be counted, neither can the whole. */
  lemma {:induction false} EntriesCountPrefix(es: seq<Json>, n: nat)
    requires n <= |es| && EntriesCount(es[..n]).None?
    ensures EntriesCount(es).None?
  {
    EntriesCountSpec(es[..n]);
    EntriesCountSpec(es);
    var i :| 0 <= i < n && Unreadable(es[..n][i]);
    assert es[i] == es[..n][i];
  }

  /** The do/while of `importArray`: consume `docs` into batches of at most 500. */
  method QueueBatches(docs: JsArray) returns (queue: seq<seq<Json>>)
    modifies docs
    ensures queue == Batches(old(docs.elems))
    ensures docs.elems == []
  {
    queue := [];
    var more := true;
    while more
      invariant more ==> queue + Batches(docs.elems) == Batches(old(docs.elems))
      invariant !more ==> queue == Batches(old(docs.elems)) && docs.elems == []
      decreases |docs.elems| + (if more then 1 else 0)
    {
      var e := docs.elems;
      var size := if |e| <= BufferSize then |e| else BufferSize;
      var toSend := docs.SpliceFront(size);
      if |e| <= BufferSize {
        assert toSend == e && docs.elems == [];
        assert Batches(e) == [e];
      } else {
        Associative(queue, [toSend], Batches(docs.elems));
      }
      queue := queue + [toSend];
      more := |docs.elems| > 0;
    }
  }

  /**
   * The queue's worker for one batch: posts it and counts the reply. `None`
   * means that reading one of the reply's entries threw.
   */
  method Worker(store: BulkStore, batch: seq<Json>) returns (tally: Option<Count>)
    modifies store
    ensures tally == BatchTally(batch, Next(old(store.replies)))
    ensures store.replies == Rest(old(store.replies))
    ensures store.received == old(store.received) + [batch]
  {
    var reply := store.Bulk(batch);
    match reply {
      case BulkError =>
        tally := Some(Count(0, |batch|));
      case BulkOk(data) =>
        var ok, failed, threw := CountEntries(data);
        tally := if threw then None else Some(Count(ok, failed));
    }
  }

  /**
   * `importArray(cloudant, dbname, docs)`: queues the batches, empties
   * `docs`, and drains the queue into the totals.
   */
  method ImportArray(store: BulkStore, docs: JsArray) returns (outcome: ImportOutcome)
    modifies store, docs
    ensures docs.elems == []
    ensures var d := Import(old(docs.elems), old(store.replies));
      && outcome == d.outcome && store.replies == d.rest
      && store.received == old(store.received) + Batches(old(docs.elems))[..d.posted]
  {
    var queue := QueueBatches(docs);
    outcome := DrainQueue(store, queue);
  }

  /** The queue's worker loop: posts the batches in order until one throws. */
  method DrainQueue(store: BulkStore, queue: seq<seq<Json>>) returns (outcome: ImportOutcome)
    modifies store
    ensures var d := Drain(queue, old(store.replies));
      && outcome == d.outcome && store.replies == d.rest
      && store.received == old(store.received) + queue[..d.posted]
  {
    ghost var whole := Drain(queue, store.replies);
    var written: nat, totalfailed: nat := 0, 0;
    var i := 0;
    var threw := false;
    assert queue[0..] == queue;
    while i < |queue| && !threw
      invariant 0 <= i <= |queue|
      invariant store.received == old(store.received) + queue[..i]
      invariant whole == Resume(queue, i, threw, Count(written, totalfailed), store.replies)
      decreases |queue| - i
    {
      ghost var rs := store.replies;
      var tally := Worker(store, queue[i]);
      ResumeStep(queue, i, Count(written, totalfailed), rs);
      assert queue[..i + 1] == queue[..i] + [queue[i]];
      match tally {
        case None =>
          threw := true;
        case Some(t) =>
          written := written + t.success;
          totalfailed := totalfailed + t.failed;
      }
      i := i + 1;
    }
    if !threw {
      assert queue[i..] == [];
      assert queue[..i] == queue;
    }
    outcome := if threw then Threw else Settled(written, totalfailed);
  }

  /**
   * Where the import stands after `i` batches: thrown with `rs` left, or
   * with `c` counted and the batches from `i` on still to drain.
   */
  ghost function Resume(queue: seq<seq<Json>>, i: nat, threw: bool, c: Count, rs: seq<BulkReply>): Drained
    requires i <= |queue|
  {
    if threw then Drained(Threw, i, rs) else AddTo(c, i, Drain(queue[i..], rs))
  }

  /** Posting batch `i` moves the import on by one batch. */
  lemma {:induction false} ResumeStep(queue: seq<seq<Json>>, i: nat, c: Count, rs: seq<BulkReply>)
    requires i < |queue|
    ensures Resume(queue, i, false, c, rs) == match BatchTally(queue[i], Next(rs))
      case None => Resume(queue, i + 1, true, c, Rest(rs))
      case Some(t) => Resume(queue, i + 1, false, Count(c.success + t.success, c.failed + t.failed), Rest(rs))
  {
    DrainStep(queue, i, rs);
    match BatchTally(queue[i], Next(rs))
    case None =>
    case Some(t) =>
      DrainAdvances(c, i, t, Drain(queue[i + 1..], Rest(rs)));
  }

  /** Draining from batch `i` on: batch `i` is posted first, then the rest. */
  lemma {:induction false} DrainStep(queue: seq<seq<Json>>, i: nat, rs: seq<BulkReply>)
    requires i < |queue|
    ensures Drain(queue[i..], rs) == match BatchTally(queue[i], Next(rs))
      case None => Drained(Threw, 1, Rest(rs))
      case Some(c) => AddTo(c, 1, Drain(queue[i + 1..], Rest(rs)))
  {
    assert queue[i..][0] == queue[i] && queue[i..][1..] == queue[i + 1..];
  }

  lemma {:induction false} DrainAdvances(c: Count, i: nat, b: Count, d: Drained)
    ensures AddTo(c, i, AddTo(b, 1, d)) == AddTo(Count(c.success + b.success, c.failed + b.failed), i + 1, d)
  {
  }

  lemma {:induction false} Associative<T>(a: seq<T>, b: seq<T>, c: seq<T>)
    ensures a + (b + c) == (a + b) + c
  {
  }
}
