/** An optional value: `None` stands for JavaScript's `undefined`. */
module Optional {

  datatype Option<+T> = None | Some(value: T) {

    /** The value, or `default` when there is none. */
    function GetOr(default: T): T {
      match this
      case Some(v) => v
      case None => default
    }
  }
}

/**
 The server's leg bookkeeping: two process-wide dictionaries keyed by the
 uuid of a PSTN call leg. `confOf` maps a leg to the conference digits its
 caller entered; `wsOf` maps a leg to the uuid of the WebSocket leg that
 streams its audio.
 */
module LegRegistry {
  import opened Optional

  type Uuid = string

  datatype Registry = Registry(confOf: map<Uuid, string>, wsOf: map<Uuid, Uuid>)

  /** Both dictionaries as the process starts. */
  const Empty := Registry(map[], map[])

  /** A property read on a plain object: a missing key reads as `undefined`. */
  function Lookup<V>(m: map<Uuid, V>, k: Uuid): Option<V> {
    if k in m then Some(m[k]) else None
  }

  /** `addUuidToConfNumber`: binds (or rebinds) leg `u` to conference `c`. */
  function AddConfNumber(r: Registry, u: Uuid, c: string): (r': Registry)
    ensures Lookup(r'.confOf, u) == Some(c)
    ensures forall k :: k != u ==> Lookup(r'.confOf, k) == Lookup(r.confOf, k)
    ensures r'.wsOf == r.wsOf
  {
    r.(confOf := r.confOf[u := c])
  }

  /** `removeUuidToConfNumber`: forgets leg `u`; a no-op when it is not bound. */
  function RemoveConfNumber(r: Registry, u: Uuid): (r': Registry)
    ensures Lookup(r'.confOf, u) == None
    ensures forall k :: k != u ==> Lookup(r'.confOf, k) == Lookup(r.confOf, k)
    ensures r'.wsOf == r.wsOf
    ensures u !in r.confOf ==> r' == r
  {
    r.(confOf := r.confOf - {u})
  }

  /** `addUuidToWsUuid`: pairs leg `u` with WebSocket leg `w`, replacing any earlier pairing. */
  function AddWsUuid(r: Registry, u: Uuid, w: Uuid): (r': Registry)
    ensures Lookup(r'.wsOf, u) == Some(w)
    ensures forall k :: k != u ==> Lookup(r'.wsOf, k) == Lookup(r.wsOf, k)
    ensures r'.confOf == r.confOf
    ensures r'.wsOf.Values <= r.wsOf.Values + {w}
  {
    r.(wsOf := r.wsOf[u := w])
  }

  /** `removeUuidToWsUuid`: forgets the pairing of leg `u`; a no-op when there is none. */
  function RemoveWsUuid(r: Registry, u: Uuid): (r': Registry)
    ensures Lookup(r'.wsOf, u) == None
    ensures forall k :: k != u ==> Lookup(r'.wsOf, k) == Lookup(r.wsOf, k)
    ensures r'.confOf == r.confOf
    ensures u !in r.wsOf ==> r' == r
    ensures r'.wsOf.Values <= r.wsOf.Values
  {
    r.(wsOf := r.wsOf - {u})
  }

  /** Removing a binding twice is the same as removing it once. */
  lemma RemoveTwiceIsRemoveOnce(r: Registry, u: Uuid)
    ensures RemoveConfNumber(RemoveConfNumber(r, u), u) == RemoveConfNumber(r, u)
    ensures RemoveWsUuid(RemoveWsUuid(r, u), u) == RemoveWsUuid(r, u)
  {
  }

  /** Removing a binding undoes adding it: the other dictionary and every
      other key are as before, and the leg is unbound. */
  lemma RemoveUndoesAdd(r: Registry, u: Uuid, c: string, w: Uuid)
    ensures RemoveConfNumber(AddConfNumber(r, u, c), u) == RemoveConfNumber(r, u)
    ensures RemoveWsUuid(AddWsUuid(r, u, w), u) == RemoveWsUuid(r, u)
  {
  }
}
