/** The object store and its atomic single-key steps (internal/vault/memory.go, internal/vault/store.go). */
module ObjectStore {
  import opened Wrappers
  import opened Kinds
  import opened Metadata

  type Bytes = string

  datatype Object = Object(data: Bytes, meta: Stored, etag: nat)

  /** minted is the number of the last ETag minted. */
  datatype Store = Store(objects: map<string, Object>, minted: nat)

  datatype Status = Fine | NotFound | Exists | Changed

  /** Put, conditional on a free key when ifNoneMatch is set. */
  function PutStep(s: Store, key: string, data: Bytes, meta: Stored, ifNoneMatch: bool): (Store, Status) {
    if key in s.objects && ifNoneMatch then (s, Exists)
    else (Store(s.objects[key := Object(data, meta, s.minted + 1)], s.minted + 1), Fine)
  }

  /** CopyReplaceIfMatch; no etag means the rewrite is unconditional. */
  function RewriteStep(s: Store, key: string, etag: Option<nat>, meta: Stored): (Store, Status) {
    if key !in s.objects then (s, NotFound)
    else if etag.Some? && s.objects[key].etag != etag.value then (s, Changed)
    else (Store(s.objects[key := s.objects[key].(meta := meta, etag := s.minted + 1)], s.minted + 1), Fine)
  }

  function DeleteStep(s: Store, key: string): Store {
    s.(objects := s.objects - {key})
  }

  /** No object carries an ETag that was not minted yet. */
  ghost predicate Minted(s: Store) {
    forall k | k in s.objects :: s.objects[k].etag <= s.minted
  }

  /** A successful write gives its key an ETag no object ever had, and touches no other key. */
  lemma WritesAreFresh(s: Store, key: string, data: Bytes, meta: Stored, cond: bool, etag: Option<nat>)
    requires Minted(s)
    ensures var (t, st) := PutStep(s, key, data, meta, cond);
            && Minted(t) && s.minted <= t.minted
            && (st == Fine ==> t.objects[key].etag > s.minted && t.objects - {key} == s.objects - {key})
            && (st != Fine ==> t == s)
    ensures var (t, st) := RewriteStep(s, key, etag, meta);
            && Minted(t) && s.minted <= t.minted
            && (st == Fine ==> key in s.objects && t.objects[key].etag > s.minted
                               && t.objects[key].data == s.objects[key].data
                               && t.objects - {key} == s.objects - {key})
            && (st != Fine ==> t == s)
  {
    var (t, st) := PutStep(s, key, data, meta, cond);
    if st == Fine { assert t.objects - {key} == s.objects - {key}; }
    var (u, su) := RewriteStep(s, key, etag, meta);
    if su == Fine { assert u.objects - {key} == s.objects - {key}; }
  }

  /** The in-memory store. */
  class MemStore {
    var objects: map<string, Object>
    var minted: nat

    ghost function State(): Store
      reads this
    {
      Store(objects, minted)
    }

    constructor ()
      ensures State() == Store(map[], 0)
    {
      objects, minted := map[], 0;
    }

    method NextETag() returns (etag: nat)
      modifies this`minted
      ensures etag == minted == old(minted) + 1
    {
      minted := minted + 1;
      etag := minted;
    }

    method Head(key: string) returns (o: Option<Object>)
      ensures o == if key in objects then Some(objects[key]) else None
    {
      o := if key in objects then Some(objects[key]) else None;
    }

    method Put(key: string, data: Bytes, meta: Stored, ifNoneMatch: bool) returns (st: Status)
      modifies this
      ensures (State(), st) == PutStep(old(State()), key, data, meta, ifNoneMatch)
    {
      if key in objects && ifNoneMatch {
        return Exists;
      }
      var etag := NextETag();
      objects := objects[key := Object(data, meta, etag)];
      st := Fine;
    }

    method CopyReplaceIfMatch(key: string, etag: Option<nat>, meta: Stored) returns (st: Status)
      modifies this
      ensures (State(), st) == RewriteStep(old(State()), key, etag, meta)
    {
      if key !in objects {
        return NotFound;
      }
      if etag.Some? && objects[key].etag != etag.value {
        return Changed;
      }
      var next := NextETag();
      objects := objects[key := objects[key].(meta := meta, etag := next)];
      st := Fine;
    }

    method Delete(key: string)
      modifies this
      ensures State() == DeleteStep(old(State()), key)
    {
      objects := objects - {key};
    }
  }
}
