/** A Mongo collection as a sequence of documents in natural order, and the equality
    filters and field updates the repository applies to it. */
module Documents {
  import opened Wrappers

  /** A stored document: the `_id` the store assigned and its named fields. */
  datatype Doc = Doc(id: nat, fields: map<string, string>)

  /** An equality filter: a document matches when it has every listed field with the listed value. */
  type Filter = map<string, string>

  /** A plain update document (`{ refreshToken: t }`): the listed fields are set, the others kept. */
  type Patch = map<string, string>

  predicate Matches(d: Doc, f: Filter) {
    forall k :: k in f ==> k in d.fields && d.fields[k] == f[k]
  }

  /** The matching documents, in collection order (`find`, `countDocuments`). */
  function Select(docs: seq<Doc>, f: Filter): (r: seq<Doc>)
    ensures |r| <= |docs|
    ensures forall d :: d in r <==> d in docs && Matches(d, f)
  {
    if docs == [] then []
    else if Matches(docs[0], f) then [docs[0]] + Select(docs[1..], f)
    else Select(docs[1..], f)
  }

  /** The documents that do not match, in collection order: what `deleteMany` leaves. */
  function Reject(docs: seq<Doc>, f: Filter): (r: seq<Doc>)
    ensures |r| <= |docs|
    ensures forall d :: d in r <==> d in docs && !Matches(d, f)
  {
    if docs == [] then []
    else if Matches(docs[0], f) then Reject(docs[1..], f)
    else [docs[0]] + Reject(docs[1..], f)
  }

  /** The position of the first matching document (`findOne`, `updateOne`). */
  function FirstMatch(docs: seq<Doc>, f: Filter): (r: Option<nat>)
    ensures r.Some? ==> r.value < |docs| && Matches(docs[r.value], f)
    ensures r.Some? ==> forall j :: 0 <= j < r.value ==> !Matches(docs[j], f)
    ensures r.None? ==> forall d :: d in docs ==> !Matches(d, f)
  {
    if docs == [] then None
    else if Matches(docs[0], f) then Some(0)
    else match FirstMatch(docs[1..], f)
      case None => None
      case Some(i) => Some(i + 1)
  }

  /** The first document with the given `_id` (`findOne({ _id })`). */
  function FindById(docs: seq<Doc>, id: nat): (r: Option<Doc>)
    ensures r.Some? ==> r.value in docs && r.value.id == id
    ensures r.None? ==> forall d :: d in docs ==> d.id != id
  {
    if docs == [] then None
    else if docs[0].id == id then Some(docs[0])
    else FindById(docs[1..], id)
  }

  /** A document with the update's fields written over its own; the `_id` is kept. */
  function Patched(d: Doc, u: Patch): (r: Doc)
    ensures r.id == d.id && r.fields.Keys == d.fields.Keys + u.Keys
    ensures forall k :: k in u ==> r.fields[k] == u[k]
    ensures forall k :: k in d.fields && k !in u ==> r.fields[k] == d.fields[k]
  {
    Doc(d.id, d.fields + u)
  }

  /** `updateOne`: the first matching document is updated, every other one is kept. */
  function PatchFirst(docs: seq<Doc>, f: Filter, u: Patch): (r: seq<Doc>)
    ensures |r| == |docs|
    ensures FirstMatch(docs, f).None? ==> r == docs
    ensures FirstMatch(docs, f).Some? ==>
      var i := FirstMatch(docs, f).value;
      r[i] == Patched(docs[i], u) && forall j :: 0 <= j < |docs| && j != i ==> r[j] == docs[j]
  {
    match FirstMatch(docs, f)
    case None => docs
    case Some(i) => docs[i := Patched(docs[i], u)]
  }

  /** `updateMany`: every matching document is updated, every other one is kept. */
  function PatchAll(docs: seq<Doc>, f: Filter, u: Patch): (r: seq<Doc>)
    ensures |r| == |docs|
    ensures forall i :: 0 <= i < |docs| && Matches(docs[i], f) ==> r[i] == Patched(docs[i], u)
    ensures forall i :: 0 <= i < |docs| && !Matches(docs[i], f) ==> r[i] == docs[i]
  {
    seq(|docs|, i requires 0 <= i < |docs| => if Matches(docs[i], f) then Patched(docs[i], u) else docs[i])
  }

  /** The empty filter `{}`, the default of `find`, matches every document. */
  lemma {:induction false} SelectEmptyFilter(docs: seq<Doc>)
    ensures Select(docs, map[]) == docs
  {
    if docs != [] {
      SelectEmptyFilter(docs[1..]);
      assert docs == [docs[0]] + docs[1..];
    }
  }

  /** Selecting from a concatenation selects from each part, in order. */
  lemma {:induction false} SelectAppend(a: seq<Doc>, b: seq<Doc>, f: Filter)
    ensures Select(a + b, f) == Select(a, f) + Select(b, f)
  {
    if a == [] {
      assert a + b == b;
    } else {
      assert (a + b)[1..] == a[1..] + b;
      SelectAppend(a[1..], b, f);
    }
  }

  /** Removing from a concatenation removes from each part, in order. */
  lemma {:induction false} RejectAppend(a: seq<Doc>, b: seq<Doc>, f: Filter)
    ensures Reject(a + b, f) == Reject(a, f) + Reject(b, f)
  {
    if a == [] {
      assert a + b == b;
    } else {
      assert (a + b)[1..] == a[1..] + b;
      RejectAppend(a[1..], b, f);
    }
  }

  /** Every document is either selected or kept by a delete, never both and never lost:
      the two parts together are the collection, duplicates included. */
  lemma {:induction false} SelectRejectPartition(docs: seq<Doc>, f: Filter)
    ensures multiset(Select(docs, f)) + multiset(Reject(docs, f)) == multiset(docs)
    ensures |Select(docs, f)| + |Reject(docs, f)| == |docs|
  {
    if docs != [] {
      SelectRejectPartition(docs[1..], f);
      assert docs == [docs[0]] + docs[1..];
    }
  }

  /** `findOne` returns the first element of what `find` returns; both are empty together. */
  lemma {:induction false} FirstMatchHeadsSelect(docs: seq<Doc>, f: Filter)
    ensures FirstMatch(docs, f).None? <==> Select(docs, f) == []
    ensures FirstMatch(docs, f).Some? ==> Select(docs, f)[0] == docs[FirstMatch(docs, f).value]
  {
    if docs != [] && !Matches(docs[0], f) {
      FirstMatchHeadsSelect(docs[1..], f);
    }
  }

  /** An update that writes none of the filtered fields keeps a matching document matching. */
  lemma PatchedStillMatches(d: Doc, f: Filter, u: Patch)
    requires Matches(d, f)
    requires f.Keys !! u.Keys
    ensures Matches(Patched(d, u), f)
  {
  }

  /** After `updateOne` with such an update, the first match is still the same position. */
  lemma {:induction false} PatchFirstKeepsFirstMatch(docs: seq<Doc>, f: Filter, u: Patch)
    requires f.Keys !! u.Keys
    ensures FirstMatch(PatchFirst(docs, f, u), f) == FirstMatch(docs, f)
  {
    var r := PatchFirst(docs, f, u);
    match FirstMatch(docs, f)
    case None =>
    case Some(i) =>
      PatchedStillMatches(docs[i], f, u);
      FirstMatchUnique(r, f, i);
  }

  /** A position that matches and has no match before it is the first match. */
  lemma {:induction false} FirstMatchUnique(docs: seq<Doc>, f: Filter, i: nat)
    requires i < |docs| && Matches(docs[i], f)
    requires forall j :: 0 <= j < i ==> !Matches(docs[j], f)
    ensures FirstMatch(docs, f) == Some(i)
  {
    if i > 0 {
      FirstMatchUnique(docs[1..], f, i - 1);
    }
  }

  /** Removing the matches of one filter leaves the matches of a filter that no document
      satisfies together with it exactly as they were, in order. */
  lemma {:induction false} SelectRejectOther(docs: seq<Doc>, f: Filter, g: Filter)
    requires forall d :: Matches(d, f) ==> !Matches(d, g)
    ensures Select(Reject(docs, g), f) == Select(docs, f)
  {
    if docs != [] {
      SelectRejectOther(docs[1..], f, g);
    }
  }

  /** After `updateOne` with an update that writes none of `g`'s fields, every position that
      matched `g` still does. */
  lemma PatchFirstKeepsMatch(docs: seq<Doc>, f: Filter, g: Filter, u: Patch, i: nat)
    requires i < |docs| && Matches(docs[i], g)
    requires g.Keys !! u.Keys
    ensures Matches(PatchFirst(docs, f, u)[i], g)
  {
    if FirstMatch(docs, f) == Some(i) {
      PatchedStillMatches(docs[i], g, u);
    }
  }

  /** A filter no document matches selects nothing. */
  lemma SelectNone(docs: seq<Doc>, f: Filter)
    requires forall d :: d in docs ==> !Matches(d, f)
    ensures Select(docs, f) == []
  {
  }

  /** A filter whose matches all match another selects no more documents than it. */
  lemma {:induction false} SelectNarrower(docs: seq<Doc>, f: Filter, g: Filter)
    requires forall d :: d in docs && Matches(d, f) ==> Matches(d, g)
    ensures |Select(docs, f)| <= |Select(docs, g)|
  {
    if docs != [] {
      SelectNarrower(docs[1..], f, g);
    }
  }
}
