/** The generic Mongo repository: queries with an optional projection, and the
    existence-checked writes the refresh-session store is built on. */
module Repositories {
  import opened Wrappers
  import opened Documents

  /** The query options that shape results: columns to project and columns to skip.
      Either list may be absent. */
  datatype QueryOptions = QueryOptions(projectColumns: Option<seq<string>>, skipColumns: Option<seq<string>>)

  /** A Mongo projection document: column name to 1 (projected) or 0 (skipped). */
  type Projection = map<string, int>

  /** `options.xColumns?.map(...)` is undefined when the list is absent, and spreading
      undefined adds nothing, so an absent list acts as an empty one. */
  function Columns(c: Option<seq<string>>): seq<string> {
    if c.Some? then c.value else []
  }

  /** `expandProjection` as written: `{ ...include, ...exclude }` spreads two ARRAYS of
      one-key objects, which copies them by position. Key i holds the i-th skipped column
      when there is one, otherwise the i-th projected column; no key is a column name. */
  function ExpandProjectionAsWritten(options: Option<QueryOptions>): (r: map<nat, (string, int)>)
    ensures options.None? ==> r == map[]
    ensures options.Some? ==>
      var projected := Columns(options.value.projectColumns);
      var skipped := Columns(options.value.skipColumns);
      && (forall i: nat :: i in r <==> i < |projected| || i < |skipped|)
      && (forall i :: 0 <= i < |skipped| ==> r[i] == (skipped[i], 0))
      && (forall i :: |skipped| <= i < |projected| ==> r[i] == (projected[i], 1))
  {
    if options.None? then map[]
    else
      var projected := Columns(options.value.projectColumns);
      var skipped := Columns(options.value.skipColumns);
      var byPosition := (map i: nat | i < |projected| :: (projected[i], 1)) + (map i: nat | i < |skipped| :: (skipped[i], 0));
      assert forall i: nat :: i in byPosition <==> i < |projected| || i < |skipped|;
      byPosition
  }

  /** `expandProjection` as evidently intended: each projected column maps to 1 and each
      skipped column to 0, skipped winning as the later spread does. */
  function ExpandProjection(options: Option<QueryOptions>): (r: Projection)
    ensures options.None? ==> r == map[]
    ensures options.Some? ==>
      var projected := Columns(options.value.projectColumns);
      var skipped := Columns(options.value.skipColumns);
      && (forall c :: c in r <==> c in projected || c in skipped)
      && (forall c :: c in skipped ==> r[c] == 0)
      && (forall c :: c in projected && c !in skipped ==> r[c] == 1)
  {
    if options.None? then map[]
    else
      var projected := Columns(options.value.projectColumns);
      var skipped := Columns(options.value.skipColumns);
      (map c | c in projected :: 1) + (map c | c in skipped :: 0)
  }

  predicate Includes(p: Projection) {
    exists c :: c in p && p[c] == 1
  }

  predicate Excludes(p: Projection) {
    exists c :: c in p && p[c] == 0
  }

  /** Mongo refuses a projection that both includes and excludes columns. */
  predicate Mixed(p: Projection) {
    Includes(p) && Excludes(p)
  }

  /** The fields of a document a projection returns; `_id` is always returned. An including
      projection keeps only its 1-columns, otherwise the 0-columns are dropped. */
  function Project(d: Doc, p: Projection): (r: Doc)
    ensures r.id == d.id
    ensures Includes(p) ==> forall k :: k in r.fields <==> k in d.fields && k in p && p[k] == 1
    ensures !Includes(p) ==> forall k :: k in r.fields <==> k in d.fields && !(k in p && p[k] == 0)
    ensures forall k :: k in r.fields ==> k in d.fields && r.fields[k] == d.fields[k]
  {
    if Includes(p) then Doc(d.id, map k | k in d.fields && k in p && p[k] == 1 :: d.fields[k])
    else Doc(d.id, map k | k in d.fields && !(k in p && p[k] == 0) :: d.fields[k])
  }

  /** Without options a query returns whole documents. */
  lemma ProjectNothing(d: Doc)
    ensures Project(d, map[]) == d
  {
    assert Project(d, map[]).fields == d.fields;
  }

  /** The error a driver raises for a mixed projection, surfacing as status 500. */
  const MixedProjectionError := InternalError("Cannot do exclusion on field in inclusion projection")

  /** A collection of documents with the repository's queries and writes. */
  class Repository {
    const modelName: string
    var docs: seq<Doc>
    var nextId: nat

    /** Every stored `_id` was handed out before, so a new one is fresh. */
    ghost predicate Valid()
      reads this
    {
      forall d :: d in docs ==> d.id < nextId
    }

    constructor (modelName: string)
      ensures Valid() && this.modelName == modelName
      ensures docs == [] && nextId == 0
    {
      this.modelName := modelName;
      docs := [];
      nextId := 0;
    }

    /** The NotFound that `delete` and `update` throw. */
    function NotFoundError(): HttpError {
      NotFound("Document of type " + modelName + " not found")
    }

    /** The NotFound that `findOneOrFail` throws. */
    function FilterNotFoundError(): HttpError {
      NotFound("Document of type " + modelName + " with filter criteria not found")
    }

    /** `exists`: at least one document matches (`countDocuments(filter) > 0`). */
    function Exists(f: Filter): (r: bool)
      reads this
      ensures r <==> exists d :: d in docs && Matches(d, f)
    {
      assert |Select(docs, f)| > 0 ==> Select(docs, f)[0] in Select(docs, f);
      |Select(docs, f)| > 0
    }

    /** `find`: the matching documents in collection order, each cut down by the projection. */
    function Find(f: Filter, options: Option<QueryOptions>): (r: Result<seq<Doc>>)
      reads this
      ensures r.Err? <==> Mixed(ExpandProjection(options))
      ensures r.Err? ==> r.error == MixedProjectionError
      ensures options.None? ==> r == Ok(Select(docs, f))
      ensures options.None? ==> r.Ok? && forall d :: d in r.value <==> d in docs && Matches(d, f)
      ensures r.Ok? ==> (|r.value| == |Select(docs, f)| &&
        forall i :: 0 <= i < |r.value| ==> r.value[i] == Project(Select(docs, f)[i], ExpandProjection(options)))
    {
      var p := ExpandProjection(options);
      if Mixed(p) then Err(MixedProjectionError)
      else
        var found := Select(docs, f);
        var projected := seq(|found|, i requires 0 <= i < |found| => Project(found[i], p));
        assert options.None? ==> projected == found by {
          if options.None? {
            forall i | 0 <= i < |found| ensures projected[i] == found[i] {
              ProjectNothing(found[i]);
            }
          }
        }
        Ok(projected)
    }

    /** `findOne`: the first matching document, cut down by the projection, or null. */
    function FindOne(f: Filter, options: Option<QueryOptions>): (r: Result<Option<Doc>>)
      reads this
      ensures r.Err? <==> Mixed(ExpandProjection(options))
      ensures r.Ok? ==> (r.value.None? <==> !Exists(f))
      ensures r.Ok? && r.value.Some? ==>
        exists i :: 0 <= i < |docs| && Matches(docs[i], f) && r.value.value == Project(docs[i], ExpandProjection(options)) &&
          forall j :: 0 <= j < i ==> !Matches(docs[j], f)
      ensures options.None? && Exists(f) ==> r.Ok? && r.value.Some? && r.value.value in docs && Matches(r.value.value, f)
    {
      var p := ExpandProjection(options);
      if Mixed(p) then Err(MixedProjectionError)
      else match FirstMatch(docs, f)
        case None => Ok(None)
        case Some(i) => ProjectNothing(docs[i]); Ok(Some(Project(docs[i], p)))
    }

    /** `findOneOrFail`: the first matching document (no projection), or NotFound. */
    function FindOneOrFail(f: Filter): (r: Result<Doc>)
      reads this
      ensures r.Err? <==> !Exists(f)
      ensures r.Err? ==> r.error == FilterNotFoundError()
      ensures r.Ok? ==> r.value in docs && Matches(r.value, f)
      ensures r.Ok? ==> exists i :: 0 <= i < |docs| && docs[i] == r.value && forall j :: 0 <= j < i ==> !Matches(docs[j], f)
    {
      match FirstMatch(docs, f)
      case None => Err(FilterNotFoundError())
      case Some(i) => Ok(docs[i])
    }

    /** `delete`: NotFound when nothing matches, otherwise `deleteMany` removes every match
        and keeps every other document; the result is the deleted count. */
    method Delete(f: Filter) returns (r: Result<nat>)
      requires Valid()
      modifies this
      ensures Valid() && nextId == old(nextId)
      ensures !old(Exists(f)) ==> r == Err(NotFoundError()) && docs == old(docs)
      ensures old(Exists(f)) ==> r == Ok(|Select(old(docs), f)|) && docs == Reject(old(docs), f)
    {
      var found := Exists(f);
      if !found {
        return Err(NotFoundError());
      }
      r := Ok(|Select(docs, f)|);
      docs := Reject(docs, f);
    }

    /** `update`: NotFound when nothing matches, otherwise `updateOne` writes the update into
        the first match only; the result is the matched count. */
    method Update(f: Filter, u: Patch) returns (r: Result<nat>)
      requires Valid()
      modifies this
      ensures Valid() && nextId == old(nextId)
      ensures !old(Exists(f)) ==> r == Err(NotFoundError()) && docs == old(docs)
      ensures old(Exists(f)) ==> r == Ok(1) && docs == PatchFirst(old(docs), f, u)
    {
      var found := Exists(f);
      if !found {
        return Err(NotFoundError());
      }
      docs := PatchFirst(docs, f, u);
      r := Ok(1);
    }

    /** `updateMany`: every match is updated, and no match is not an error; the result is
        the matched count. */
    method UpdateMany(f: Filter, u: Patch) returns (matched: nat)
      requires Valid()
      modifies this
      ensures Valid() && nextId == old(nextId)
      ensures matched == |Select(old(docs), f)|
      ensures docs == PatchAll(old(docs), f, u)
    {
      matched := |Select(docs, f)|;
      docs := PatchAll(docs, f, u);
    }

    /** `create`: the document is stored under a fresh `_id` and read back by that `_id`. */
    method Create(document: map<string, string>) returns (r: Option<Doc>)
      requires Valid()
      modifies this
      ensures Valid() && nextId == old(nextId) + 1
      ensures docs == old(docs) + [Doc(old(nextId), document)]
      ensures r == Some(Doc(old(nextId), document))
    {
      var created := Doc(nextId, document);
      docs := docs + [created];
      nextId := nextId + 1;
      r := FindById(docs, created.id);
      assert r.Some? by {
        assert created in docs;
      }
    }

    /** `findOneOrCreate`: an existing match is returned and nothing is stored; only when
        nothing matches is the document created. */
    method FindOneOrCreate(f: Filter, document: map<string, string>) returns (r: Option<Doc>)
      requires Valid()
      modifies this
      ensures Valid()
      ensures old(Exists(f)) ==>
        && docs == old(docs) && nextId == old(nextId)
        && FirstMatch(old(docs), f).Some? && r == Some(old(docs)[FirstMatch(old(docs), f).value])
      ensures !old(Exists(f)) ==>
        docs == old(docs) + [Doc(old(nextId), document)] && nextId == old(nextId) + 1 && r == Some(Doc(old(nextId), document))
    {
      var found := FindOne(f, None);
      if found.value.Some? {
        ghost var i :| 0 <= i < |docs| && Matches(docs[i], f) && found.value.value == Project(docs[i], ExpandProjection(None)) &&
          forall j :: 0 <= j < i ==> !Matches(docs[j], f);
        FirstMatchUnique(docs, f, i);
        ProjectNothing(docs[i]);
        return found.value;
      }
      r := Create(document);
    }

    /** `updateAndGet`: `update`, then `findOneOrFail` with the same filter. */
    method UpdateAndGet(f: Filter, u: Patch) returns (r: Result<Doc>)
      requires Valid()
      modifies this
      ensures Valid() && nextId == old(nextId)
      ensures !old(Exists(f)) ==> r == Err(NotFoundError()) && docs == old(docs)
      ensures old(Exists(f)) ==> docs == PatchFirst(old(docs), f, u) && r == FindOneOrFail(f)
      ensures old(Exists(f)) && f.Keys !! u.Keys ==>
        r == Ok(Patched(old(docs)[FirstMatch(old(docs), f).value], u))
    {
      var updated := Update(f, u);
      if updated.Err? {
        return Err(updated.error);
      }
      r := FindOneOrFail(f);
      if f.Keys !! u.Keys {
        PatchFirstKeepsFirstMatch(old(docs), f, u);
      }
    }
  }
}
