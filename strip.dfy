/**
 * Turning stored documents into the shape handed back to callers
 * (lib/strip.js): the store's `id` becomes `_id`, and revision tokens
 * (`_rev`, `rev`) are dropped.
 *
 * `StrippedMembers` and `Stripped` say what stripping does to a value;
 * `SingleDoc` and `ArrayOfDocs` do it in place, as the library does.
 */
module Strip {
  import opened Json

  /** The members of an object after `singleDoc` has run on it. */
  function StrippedMembers(p: Props): Props
  {
    var q := if Truthy(Get(p, "id")) then Remove(Put(p, "_id", Get(p, "id")), "id") else p;
    Remove(Remove(q, "_rev"), "rev")
  }

  /** Stripping drops both revision tokens, moves a truthy `id` to `_id`, and keeps every other member. */
  lemma StrippedMembersSpec(p: Props)
    ensures var r := StrippedMembers(p);
      && "_rev" !in Keys(r) && "rev" !in Keys(r)
      && Get(r, "_rev") == JUndefined && Get(r, "rev") == JUndefined
      && (Truthy(Get(p, "id")) ==> Get(r, "_id") == Get(p, "id") && "id" !in Keys(r))
      && (!Truthy(Get(p, "id")) ==> Get(r, "_id") == Get(p, "_id") && Get(r, "id") == Get(p, "id"))
      && forall k :: k != "id" && k != "_id" && k != "_rev" && k != "rev" ==> Get(r, k) == Get(p, k)
  {
  }

  /** `singleDoc` on any value: only objects are touched. */
  function Stripped(v: Json): (r: Json)
    ensures v.JObj? ==> r == JObj(StrippedMembers(v.members))
    ensures !v.JObj? ==> r == v
  {
    if v.JObj? then JObj(StrippedMembers(v.members)) else v
  }

  /** `arrayOfDocs` on values: the strip of each element, in order. */
  function StrippedAll(xs: seq<Json>): (r: seq<Json>)
    ensures |r| == |xs|
    ensures forall i :: 0 <= i < |xs| ==> r[i] == Stripped(xs[i])
  {
    if xs == [] then [] else [Stripped(xs[0])] + StrippedAll(xs[1..])
  }

  /** Stripping twice is stripping once. */
  lemma {:induction false} StrippedMembersIdempotent(p: Props)
    ensures StrippedMembers(StrippedMembers(p)) == StrippedMembers(p)
  {
    var r := StrippedMembers(p);
    StrippedMembersSpec(p);
    assert !Truthy(Get(r, "id"));
    assert Remove(r, "_rev") == r;
    assert Remove(r, "rev") == r;
  }

  lemma {:induction false} StrippedIdempotent(v: Json)
    ensures Stripped(Stripped(v)) == Stripped(v)
  {
    if v.JObj? {
      StrippedMembersIdempotent(v.members);
    }
  }

  // The four steps of `singleDoc` on the library's own example document.

  lemma ExampleCopyId()
    ensures Put([Member("id", JStr("a")), Member("rev", JStr("b")), Member("property", JStr("c"))], "_id", JStr("a"))
         == [Member("id", JStr("a")), Member("rev", JStr("b")), Member("property", JStr("c")), Member("_id", JStr("a"))]
  {
  }

  lemma ExampleDropId()
    ensures Remove([Member("id", JStr("a")), Member("rev", JStr("b")), Member("property", JStr("c")), Member("_id", JStr("a"))], "id")
         == [Member("rev", JStr("b")), Member("property", JStr("c")), Member("_id", JStr("a"))]
  {
  }

  lemma ExampleNoUnderscoreRev()
    ensures Remove([Member("rev", JStr("b")), Member("property", JStr("c")), Member("_id", JStr("a"))], "_rev")
         == [Member("rev", JStr("b")), Member("property", JStr("c")), Member("_id", JStr("a"))]
  {
  }

  lemma ExampleDropRev()
    ensures Remove([Member("rev", JStr("b")), Member("property", JStr("c")), Member("_id", JStr("a"))], "rev")
         == [Member("property", JStr("c")), Member("_id", JStr("a"))]
  {
  }

  /** The document of the library's own example keeps `_id` and its other members. */
  lemma StripExample()
    ensures StrippedMembers([Member("id", JStr("a")), Member("rev", JStr("b")), Member("property", JStr("c"))])
         == [Member("property", JStr("c")), Member("_id", JStr("a"))]
  {
    ExampleCopyId();
    ExampleDropId();
    ExampleNoUnderscoreRev();
    ExampleDropRev();
  }

  /** `singleDoc(doc)` for an object: the document is changed in place and returned. */
  method SingleDoc(doc: JsObject) returns (r: JsObject)
    modifies doc
    ensures r == doc
    ensures doc.members == StrippedMembers(old(doc.members))
  {
    var id := Get(doc.members, "id");
    if Truthy(id) {
      doc.Set("_id", id);
      doc.Delete("id");
    }
    doc.Delete("_rev");
    doc.Delete("rev");
    r := doc;
  }

  /**
   * `arrayOfDocs(docs)`: strips every element in place and returns the same
   * objects in the same order. An object that occurs twice is stripped
   * twice, which changes nothing more because stripping is idempotent.
   */
  method ArrayOfDocs(docs: seq<JsObject>) returns (r: seq<JsObject>)
    modifies docs
    ensures r == docs
    ensures forall i :: 0 <= i < |docs| ==> docs[i].members == StrippedMembers(old(docs[i].members))
  {
    ghost var orig := seq(|docs|, j requires 0 <= j < |docs| reads docs => docs[j].members);
    ghost var done: set<JsObject> := {};
    var i := 0;
    while i < |docs|
      invariant 0 <= i <= |docs|
      invariant forall j :: 0 <= j < i ==> docs[j] in done
      invariant StrippedSoFar(docs, orig, done)
    {
      done := StripNext(docs, i, orig, done);
      i := i + 1;
    }
    r := docs;
  }

  /** Each element of `docs` is stripped if it is in `done` and as it was in `orig` otherwise. */
  ghost predicate StrippedSoFar(docs: seq<JsObject>, orig: seq<Props>, done: set<JsObject>)
    reads docs
  {
    && |orig| == |docs|
    && forall j :: 0 <= j < |docs| ==>
         docs[j].members == if docs[j] in done then StrippedMembers(orig[j]) else orig[j]
  }

  /** One turn of the loop in `arrayOfDocs`: `singleDoc(docs[i])`. */
  method StripNext(docs: seq<JsObject>, i: nat, ghost orig: seq<Props>, ghost done: set<JsObject>)
    returns (ghost done': set<JsObject>)
    requires i < |docs|
    requires forall j :: 0 <= j < i ==> docs[j] in done
    requires StrippedSoFar(docs, orig, done)
    modifies docs[i]
    ensures forall j :: 0 <= j <= i ==> docs[j] in done'
    ensures StrippedSoFar(docs, orig, done')
  {
    var d := docs[i];
    if d in done {
      StrippedMembersIdempotent(orig[i]);
    }
    label Before:
    var same := SingleDoc(d);
    forall j | 0 <= j < |docs| && docs[j] != d
      ensures docs[j].members == old@Before(docs[j].members)
    {
    }
    done' := done + {d};
  }
}
