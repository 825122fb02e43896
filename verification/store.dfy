/**
  The document store, reduced to what the updater relies on: documents
  addressed by collection and id, written by `set(fields, merge=True)`.

  A merge write creates the document when it is missing. Otherwise every
  field it names is replaced, except that a sub-map merged onto a sub-map is
  merged key by key (the store's documented behaviour for nested maps), and
  every field it does not name is left alone.
 */
module Store {
  import opened Values

  /** A document field: text, a number or `None`, a sub-map, or the server-timestamp sentinel. */
  datatype Field = Text(s: string) | Number(v: Value) | Nested(m: map<string, Value>) | ServerTimestamp

  type Doc = map<string, Field>

  datatype DocPath = DocPath(collection: string, id: string)

  type Db = map<DocPath, Doc>

  /** Every leaf written by `upd` is found in `f`. */
  predicate Covers(f: Field, upd: Field) {
    if upd.Nested? then
      f.Nested? && forall j :: j in upd.m ==> j in f.m && f.m[j] == upd.m[j]
    else
      f == upd
  }

  /** Every field of `upd` is found, leaf by leaf, in `d`. */
  predicate DocCovers(d: Doc, upd: Doc) {
    forall k :: k in upd ==> k in d && Covers(d[k], upd[k])
  }

  /** Every leaf of `prior` that `upd` does not write is still in `d`, unchanged. */
  predicate Keeps(d: Doc, prior: Doc, upd: Doc) {
    && (forall k :: k in prior && k !in upd ==> k in d && d[k] == prior[k])
    && (forall k :: k in prior && k in upd && prior[k].Nested? && upd[k].Nested? ==>
          k in d && d[k].Nested? &&
          forall j :: j in prior[k].m && j !in upd[k].m ==> j in d[k].m && d[k].m[j] == prior[k].m[j])
  }

  /** One field of a merge write: a sub-map onto a sub-map merges key by key, anything else is replaced. */
  function MergeField(prior: Field, upd: Field): Field {
    if prior.Nested? && upd.Nested? then Nested(prior.m + upd.m) else upd
  }

  /** The document after `set(upd, merge=True)` onto `prior`. */
  function Merge(prior: Doc, upd: Doc): (d: Doc)
    ensures d.Keys == prior.Keys + upd.Keys
    ensures DocCovers(d, upd)
    ensures Keeps(d, prior, upd)
    ensures forall k :: k in prior && k in upd && prior[k].Nested? && upd[k].Nested? ==>
              d[k].Nested? && d[k].m.Keys == prior[k].m.Keys + upd[k].m.Keys
    ensures forall k :: k in upd && upd[k].Nested? && !(k in prior && prior[k].Nested?) ==> d[k] == upd[k]
  {
    map k | k in prior.Keys + upd.Keys ::
      if k in upd then (if k in prior then MergeField(prior[k], upd[k]) else upd[k]) else prior[k]
  }

  /** Applying a merge write to the whole store. */
  function Apply(db: Db, path: DocPath, upd: Doc): (r: Db)
    ensures r.Keys == db.Keys + {path}
    ensures forall q :: q in db && q != path ==> r[q] == db[q]
    ensures DocCovers(r[path], upd)
    ensures path in db ==> r[path].Keys == db[path].Keys + upd.Keys && Keeps(r[path], db[path], upd)
    ensures path in db ==> r[path] == Merge(db[path], upd)
    ensures path !in db ==> r[path] == upd
  {
    var prior := if path in db then db[path] else map[];
    assert path !in db ==> Merge(prior, upd) == upd;
    db[path := Merge(prior, upd)]
  }

  /** Repeating a merge write changes nothing. */
  lemma MergeIdempotent(prior: Doc, upd: Doc)
    ensures Merge(Merge(prior, upd), upd) == Merge(prior, upd)
  {
    var once := Merge(prior, upd);
    var twice := Merge(once, upd);
    forall k | k in twice.Keys ensures twice[k] == once[k] {
      if k in upd && upd[k].Nested? && k in prior && prior[k].Nested? {
        assert once[k].m + upd[k].m == prior[k].m + upd[k].m + upd[k].m;
        assert prior[k].m + upd[k].m + upd[k].m == prior[k].m + upd[k].m;
      }
    }
  }

  /**
    When no stored sub-map holds a key the written sub-map lacks, the deep
    merge is the plain key-wise override.
   */
  lemma MergeIsOverride(prior: Doc, upd: Doc)
    requires forall k :: k in prior && k in upd && prior[k].Nested? && upd[k].Nested? ==>
               prior[k].m.Keys <= upd[k].m.Keys
    ensures Merge(prior, upd) == prior + upd
  {
    var d := Merge(prior, upd);
    forall k | k in d.Keys ensures d[k] == (prior + upd)[k] {
      if k in upd && upd[k].Nested? && k in prior && prior[k].Nested? {
        assert prior[k].m + upd[k].m == upd[k].m;
      }
    }
  }
}
