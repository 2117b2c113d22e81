/**
 * The sharded cache of decoded session ids. No sequence of registrations, decodes and
 * invalidations, with whatever evictions they cause, changes what decoding an id returns.
 */
module DecodeCache {
  import opened Options
  import opened SessionIds
  import opened Lru
  import R = Recency

  const DECODE_CACHE_SIZE := 8192
  const NUM_DECODE_CACHES := 32

  // ---- One shard ----

  /** Every cached value is what decoding its id without the cache returns. */
  ghost predicate Transparent<D>(c: Cookie<D>, view: seq<R.Entry<D>>) {
    forall e, id, t :: e in view && e.key == CacheKey(id, t) ==> DecodeUncached(c, id, t) == Some(e.value)
  }

  lemma LookupTransparent<D>(c: Cookie<D>, view: seq<R.Entry<D>>, id: string, t: SessionType)
    requires Transparent(c, view)
    ensures var hit := R.Lookup(view, CacheKey(id, t)); hit.Some? ==> hit == DecodeUncached(c, id, t)
  {
    var i := R.Find(view, CacheKey(id, t));
    if i < |view| { assert view[i] in view; }
  }

  lemma SetTransparent<D>(c: Cookie<D>, view: seq<R.Entry<D>>, size: int, id: string, t: SessionType, d: D)
    requires Transparent(c, view) && DecodeUncached(c, id, t) == Some(d)
    ensures Transparent(c, R.Set(view, size, CacheKey(id, t), d))
  {
    var view' := R.Set(view, size, CacheKey(id, t), d);
    forall e, id', t' | e in view' && e.key == CacheKey(id', t')
      ensures DecodeUncached(c, id', t') == Some(e.value)
    {
      CacheKeyInjective(id, t, id', t');
      assert e in view || e == R.Entry(CacheKey(id, t), d);
    }
  }

  lemma KeptTransparent<D>(c: Cookie<D>, view: seq<R.Entry<D>>, key: string)
    requires Transparent(c, view)
    ensures Transparent(c, R.Get(view, key)) && Transparent(c, R.Without(view, key))
  {
    assert forall e :: e in R.Get(view, key) ==> e in view;
    assert forall e :: e in R.Without(view, key) ==> e in view;
  }

  // ---- All shards ----

  type Shards<D> = seq<seq<R.Entry<D>>>

  function SetDecoded<D>(sh: Shards<D>, size: int, id: string, t: SessionType, d: D): Shards<D>
    requires |sh| > 0
  {
    if id == "" then sh
    else
      var key := CacheKey(id, t);
      var i := Shard(key, |sh|);
      sh[i := R.Set(sh[i], size, key, d)]
  }

  function Invalidate<D>(sh: Shards<D>, id: string, t: SessionType): Shards<D>
    requires |sh| > 0
  {
    if id == "" then sh
    else
      var key := CacheKey(id, t);
      var i := Shard(key, |sh|);
      sh[i := R.Without(sh[i], key)]
  }

  /** Decoding through the cache: the result and the shards afterwards. */
  function Decode<D>(c: Cookie<D>, sh: Shards<D>, size: int, id: string, t: SessionType): (Option<D>, Shards<D>)
    requires |sh| > 0
  {
    if id == "" then (None, sh)
    else
      var key := CacheKey(id, t);
      var i := Shard(key, |sh|);
      match R.Lookup(sh[i], key)
      case Some(d) => (Some(d), sh[i := R.Get(sh[i], key)])
      case None =>
        var decoded := DecodeUncached(c, id, t);
        (decoded, if decoded.Some? then sh[i := R.Set(sh[i], size, key, decoded.value)] else sh)
  }

  /** Registering a session enters both of its ids, unless one of them cannot be made. */
  function Register<D>(c: Cookie<D>, sh: Shards<D>, size: int, d: D): Shards<D>
    requires |sh| > 0
  {
    match (EncodeSessionId(c, d, PrivateSession), EncodeSessionId(c, d, PublicSession))
    case (Some(private), Some(public)) =>
      SetDecoded(SetDecoded(sh, size, private, PrivateSession, d), size, public, PublicSession, d)
    case _ => sh
  }

  datatype Op<+D> =
    | OpRegister(data: D)
    | OpDecode(id: string, t: SessionType)
    | OpInvalidate(id: string, t: SessionType)

  function Step<D>(c: Cookie<D>, sh: Shards<D>, size: int, op: Op<D>): (r: Shards<D>)
    requires |sh| > 0
    ensures |r| == |sh|
  {
    match op
    case OpRegister(d) => Register(c, sh, size, d)
    case OpDecode(id, t) => Decode(c, sh, size, id, t).1
    case OpInvalidate(id, t) => Invalidate(sh, id, t)
  }

  function Run<D>(c: Cookie<D>, sh: Shards<D>, size: int, ops: seq<Op<D>>): (r: Shards<D>)
    requires |sh| > 0
    ensures |r| == |sh|
  {
    if ops == [] then sh
    else
      Step(c, Run(c, sh, size, ops[..|ops| - 1]), size, ops[|ops| - 1])
  }

  ghost predicate AllTransparent<D>(c: Cookie<D>, sh: Shards<D>) {
    forall i :: 0 <= i < |sh| ==> Transparent(c, sh[i])
  }

  lemma SetDecodedTransparent<D>(c: Cookie<D>, sh: Shards<D>, size: int, id: string, t: SessionType, d: D)
    requires |sh| > 0 && AllTransparent(c, sh) && (id != "" ==> DecodeUncached(c, id, t) == Some(d))
    ensures AllTransparent(c, SetDecoded(sh, size, id, t, d))
  {
    if id != "" {
      SetTransparent(c, sh[Shard(CacheKey(id, t), |sh|)], size, id, t, d);
    }
  }

  lemma RegisterTransparent<D(!new)>(c: Cookie<D>, sh: Shards<D>, size: int, d: D)
    requires |sh| > 0 && AllTransparent(c, sh) && Lawful(c)
    ensures AllTransparent(c, Register(c, sh, size, d))
  {
    EncodedIdDecodes(c, d, PrivateSession);
    EncodedIdDecodes(c, d, PublicSession);
    var private, public := EncodeSessionId(c, d, PrivateSession), EncodeSessionId(c, d, PublicSession);
    if private.Some? && public.Some? {
      SetDecodedTransparent(c, sh, size, private.value, PrivateSession, d);
      SetDecodedTransparent(c, SetDecoded(sh, size, private.value, PrivateSession, d), size,
                            public.value, PublicSession, d);
    }
  }

  lemma DecodeTransparent<D>(c: Cookie<D>, sh: Shards<D>, size: int, id: string, t: SessionType)
    requires |sh| > 0 && AllTransparent(c, sh)
    ensures Decode(c, sh, size, id, t).0 == DecodeUncached(c, id, t)
    ensures AllTransparent(c, Decode(c, sh, size, id, t).1)
  {
    if id != "" {
      var key := CacheKey(id, t);
      var view := sh[Shard(key, |sh|)];
      LookupTransparent(c, view, id, t);
      if R.Lookup(view, key).Some? {
        KeptTransparent(c, view, key);
      } else if DecodeUncached(c, id, t).Some? {
        SetTransparent(c, view, size, id, t, DecodeUncached(c, id, t).value);
      }
    }
  }

  lemma StepTransparent<D(!new)>(c: Cookie<D>, sh: Shards<D>, size: int, op: Op<D>)
    requires |sh| > 0 && AllTransparent(c, sh) && Lawful(c)
    ensures AllTransparent(c, Step(c, sh, size, op))
  {
    match op
    case OpRegister(d) => RegisterTransparent(c, sh, size, d);
    case OpDecode(id, t) => DecodeTransparent(c, sh, size, id, t);
    case OpInvalidate(id, t) =>
      if id != "" {
        KeptTransparent(c, sh[Shard(CacheKey(id, t), |sh|)], CacheKey(id, t));
      }
  }

  lemma {:induction false} RunTransparent<D(!new)>(c: Cookie<D>, sh: Shards<D>, size: int, ops: seq<Op<D>>)
    requires |sh| > 0 && AllTransparent(c, sh) && Lawful(c)
    ensures AllTransparent(c, Run(c, sh, size, ops))
  {
    if ops != [] {
      RunTransparent(c, sh, size, ops[..|ops| - 1]);
      StepTransparent(c, Run(c, sh, size, ops[..|ops| - 1]), size, ops[|ops| - 1]);
    }
  }

  /** What the caches hold for an id. */
  function Cached<D>(sh: Shards<D>, id: string, t: SessionType): Option<D>
    requires |sh| > 0
  {
    R.Lookup(sh[Shard(CacheKey(id, t), |sh|)], CacheKey(id, t))
  }

  /** No shard has two entries for a key. */
  ghost predicate AllDistinct<D>(sh: Shards<D>) {
    forall i :: 0 <= i < |sh| ==> R.OneEach(sh[i])
  }

  lemma SetDecodedDistinct<D>(sh: Shards<D>, size: int, id: string, t: SessionType, d: D)
    requires |sh| > 0 && AllDistinct(sh)
    ensures AllDistinct(SetDecoded(sh, size, id, t, d))
  {
    R.ApplyKeepsOneEach(sh[Shard(CacheKey(id, t), |sh|)], size, R.OpSet(CacheKey(id, t), d));
  }

  lemma StepDistinct<D>(c: Cookie<D>, sh: Shards<D>, size: int, op: Op<D>)
    requires |sh| > 0 && AllDistinct(sh)
    ensures AllDistinct(Step(c, sh, size, op))
  {
    match op
    case OpRegister(d) =>
      var private, public := EncodeSessionId(c, d, PrivateSession), EncodeSessionId(c, d, PublicSession);
      if private.Some? && public.Some? {
        SetDecodedDistinct(sh, size, private.value, PrivateSession, d);
        SetDecodedDistinct(SetDecoded(sh, size, private.value, PrivateSession, d), size,
                           public.value, PublicSession, d);
      }
    case OpDecode(id, t) =>
      var view, d := sh[Shard(CacheKey(id, t), |sh|)], DecodeUncached(c, id, t);
      R.ApplyKeepsOneEach(view, size, R.OpGet(CacheKey(id, t)));
      if d.Some? {
        SetDecodedDistinct(sh, size, id, t, d.value);
      }
    case OpInvalidate(id, t) => R.WithoutKeepsOneEach(sh[Shard(CacheKey(id, t), |sh|)], CacheKey(id, t));
  }

  lemma {:induction false} RunDistinct<D>(c: Cookie<D>, sh: Shards<D>, size: int, ops: seq<Op<D>>)
    requires |sh| > 0 && AllDistinct(sh)
    ensures AllDistinct(Run(c, sh, size, ops))
  {
    if ops != [] {
      RunDistinct(c, sh, size, ops[..|ops| - 1]);
      StepDistinct(c, Run(c, sh, size, ops[..|ops| - 1]), size, ops[|ops| - 1]);
    }
  }

  lemma InvalidateOne<D>(sh: Shards<D>, id: string, t: SessionType, id': string, t': SessionType)
    requires |sh| > 0 && id != "" && AllDistinct(sh)
    ensures Cached(Invalidate(sh, id, t), id', t') == if id == id' && t == t' then None else Cached(sh, id', t')
  {
    CacheKeyInjective(id, t, id', t');
    var view, key := sh[Shard(CacheKey(id, t), |sh|)], CacheKey(id, t);
    if id == id' && t == t' {
      R.WithoutForgets(view, key);
    } else {
      R.LookupWithout(view, key, CacheKey(id', t'));
    }
  }

  /**
   * After any history that starts with empty caches, an invalidated id is forgotten, and no other id
   * of either type is.
   */
  lemma InvalidateForgets<D>(c: Cookie<D>, count: nat, size: int, ops: seq<Op<D>>, id: string, t: SessionType,
                             id': string, t': SessionType)
    requires count > 0 && id != ""
    ensures var sh := Run(c, seq(count, _ => []), size, ops);
      Cached(Invalidate(sh, id, t), id', t') == if id == id' && t == t' then None else Cached(sh, id', t')
  {
    RunDistinct(c, seq(count, _ => []), size, ops);
    InvalidateOne(Run(c, seq(count, _ => []), size, ops), id, t, id', t');
  }

  /** A stored id is found again at once, and whatever else is still found has not changed. */
  lemma SetDecodedIsFound<D>(sh: Shards<D>, size: int, id: string, t: SessionType, d: D, id': string, t': SessionType)
    requires |sh| > 0 && id != ""
    ensures var sh' := SetDecoded(sh, size, id, t, d);
      && Cached(sh', id, t) == Some(d)
      && (id != id' || t != t' ==> Cached(sh', id', t') in {None, Cached(sh, id', t')})
  {
    CacheKeyInjective(id, t, id', t');
    var view := sh[Shard(CacheKey(id, t), |sh|)];
    R.SetGives(view, size, CacheKey(id, t), d);
    if id != id' || t != t' {
      R.ApplyKeepsOthers(view, size, R.OpSet(CacheKey(id, t), d), CacheKey(id', t'));
    }
  }

  /** What was decoded is cached, whether it was before or not; nothing else is changed, though it may be evicted. */
  lemma DecodeIsCached<D>(c: Cookie<D>, sh: Shards<D>, size: int, id: string, t: SessionType,
                          id': string, t': SessionType)
    requires |sh| > 0
    ensures var (d, sh') := Decode(c, sh, size, id, t);
      && |sh'| == |sh|
      && (d.Some? ==> Cached(sh', id, t) == d)
      && (d.None? ==> sh' == sh)
      && (id != id' || t != t' ==> Cached(sh', id', t') in {None, Cached(sh, id', t')})
  {
    if id != "" {
      CacheKeyInjective(id, t, id', t');
      var key, key' := CacheKey(id, t), CacheKey(id', t');
      var view := sh[Shard(key, |sh|)];
      R.GetKeeps(view, key);
      if R.Lookup(view, key).None? && DecodeUncached(c, id, t).Some? {
        R.SetGives(view, size, key, DecodeUncached(c, id, t).value);
      }
      if key != key' {
        R.ApplyKeepsOthers(view, size, R.OpGet(key), key');
        if DecodeUncached(c, id, t).Some? {
          R.ApplyKeepsOthers(view, size, R.OpSet(key, DecodeUncached(c, id, t).value), key');
        }
      }
    }
  }

  /** A new session's two ids are cached at once, unless one of them could not be made. */
  lemma RegisterIsCached<D>(c: Cookie<D>, sh: Shards<D>, size: int, d: D)
    requires |sh| > 0 && size != 1
    ensures var private, public := EncodeSessionId(c, d, PrivateSession), EncodeSessionId(c, d, PublicSession);
      var sh' := Register(c, sh, size, d);
      && |sh'| == |sh|
      && (private.None? || public.None? ==> sh' == sh)
      && (private.Some? && public.Some? ==>
            && (private.value != "" ==> Cached(sh', private.value, PrivateSession) == Some(d))
            && (public.value != "" ==> Cached(sh', public.value, PublicSession) == Some(d)))
  {
    var private, public := EncodeSessionId(c, d, PrivateSession), EncodeSessionId(c, d, PublicSession);
    if private.Some? && public.Some? {
      var k, k2 := CacheKey(private.value, PrivateSession), CacheKey(public.value, PublicSession);
      CacheKeyInjective(private.value, PrivateSession, public.value, PublicSession);
      var view, i, j := sh[Shard(k, |sh|)], Shard(k, |sh|), Shard(k2, |sh|);
      R.SetGives(view, size, k, d);
      var sh1 := SetDecoded(sh, size, private.value, PrivateSession, d);
      R.SetGives(sh1[j], size, k2, d);
      R.SetTwice(view, size, k, d, k2, d);
    }
  }

  /** After any history that starts with empty caches, decoding through the cache is decoding without it. */
  lemma CacheIsInvisible<D(!new)>(c: Cookie<D>, count: nat, size: int, ops: seq<Op<D>>, id: string, t: SessionType)
    requires count > 0 && Lawful(c)
    ensures var sh := Run(c, seq(count, _ => []), size, ops);
      Decode(c, sh, size, id, t).0 == DecodeUncached(c, id, t)
  {
    var empty: Shards<D> := seq(count, _ => []);
    RunTransparent(c, empty, size, ops);
    DecodeTransparent(c, Run(c, empty, size, ops), size, id, t);
  }

  // ---- The caches of the hub ----

  method NewCaches<D>() returns (list: seq<LruCache<D>>, ghost owned: set<object>)
    ensures |list| == NUM_DECODE_CACHES && fresh(owned)
    ensures forall c :: c in list ==> c in owned && c.Repr <= owned && c.Valid()
    ensures forall c :: c in list ==> c.size == DECODE_CACHE_SIZE && c.View() == []
    ensures forall i, j :: 0 <= i < j < |list| ==> list[i].Repr !! list[j].Repr
  {
    list, owned := [], {};
    while |list| < NUM_DECODE_CACHES
      invariant |list| <= NUM_DECODE_CACHES && fresh(owned)
      invariant forall c :: c in list ==> c in owned && c.Repr <= owned && c.Valid()
      invariant forall c :: c in list ==> c.size == DECODE_CACHE_SIZE && c.View() == []
      invariant forall i, j :: 0 <= i < j < |list| ==> list[i].Repr !! list[j].Repr
    {
      var c := new LruCache<D>(DECODE_CACHE_SIZE);
      list, owned := list + [c], owned + c.Repr;
    }
  }

  class DecodeCaches<D> {
    const cookie: Cookie<D>
    const caches: seq<LruCache<D>>

    ghost var Repr: set<object>

    ghost predicate Owns(c: LruCache<D>)
      reads this, c, c.Repr
    {
      c.Repr <= Repr && this !in c.Repr && c.Valid() && c.size == DECODE_CACHE_SIZE
    }

    /** The caches are valid and share no object. */
    ghost predicate Valid()
      reads this, Repr
      ensures Valid() ==> this in Repr
    {
      && this in Repr
      && |caches| > 0
      && (forall c :: c in caches ==> c in Repr && c.Repr <= Repr && Owns(c))
      && (forall i, j :: 0 <= i < j < |caches| ==> caches[i].Repr !! caches[j].Repr)
    }

    /** The caches hold exactly the entries of these shards, in this order. */
    ghost predicate Shows(sh: Shards<D>)
      requires Valid()
      reads Repr
    {
      |sh| == |caches| && forall i :: 0 <= i < |caches| ==>
        assert caches[i] in caches; caches[i].View() == sh[i]
    }

    constructor (cookie: Cookie<D>)
      ensures Valid() && fresh(Repr) && this.cookie == cookie
      ensures Shows(seq(32, _ => [])) && forall i :: 0 <= i < |caches| ==> caches[i].size == 8192
    {
      var list, owned := NewCaches<D>();
      this.cookie, caches, Repr := cookie, list, {this} + owned;
    }

    // One operation on one cache leaves all the others as they are.

    method GetIn(i: nat, key: string, ghost sh: Shards<D>) returns (d: Option<D>)
      requires Valid() && Shows(sh) && i < |caches|
      modifies Repr
      ensures Valid() && fresh(Repr - old(Repr)) && Shows(sh[i := R.Get(sh[i], key)])
      ensures d == R.Lookup(sh[i], key)
    {
      var c := caches[i];
      d := c.Get(key);
      forall j | 0 <= j < |caches| && j != i
        ensures caches[j] != c && caches[j].Repr == old(caches[j].Repr)
        ensures Owns(caches[j]) && caches[j].View() == sh[j]
      {
        assert old(caches[j].Repr) !! old(c.Repr);
        assert old(Owns(caches[j]));
      }
    }

    /** The cache may have grown; all others are as they were. */
    method SetUnder(i: nat, key: string, d: D, ghost sh: Shards<D>)
      requires Valid() && Shows(sh) && i < |caches|
      modifies Repr - {this}
      ensures fresh(caches[i].Repr - old(caches[i].Repr)) && this !in caches[i].Repr
      ensures caches[i].Valid() && caches[i].size == DECODE_CACHE_SIZE
      ensures caches[i].View() == R.Set(sh[i], DECODE_CACHE_SIZE, key, d)
      ensures forall j :: 0 <= j < |caches| && j != i ==>
        caches[j].Repr == old(caches[j].Repr) && Owns(caches[j]) && caches[j].View() == sh[j]
    {
      var c := caches[i];
      c.Set(key, d);
      forall j | 0 <= j < |caches| && j != i
        ensures caches[j].Repr == old(caches[j].Repr) && Owns(caches[j]) && caches[j].View() == sh[j]
      {
        assert old(caches[j].Repr) !! old(c.Repr);
        assert old(Owns(caches[j]));
      }
    }

    method SetIn(i: nat, key: string, d: D, ghost sh: Shards<D>)
      requires Valid() && Shows(sh) && i < |caches|
      modifies Repr
      ensures Valid() && fresh(Repr - old(Repr))
      ensures Shows(sh[i := R.Set(sh[i], DECODE_CACHE_SIZE, key, d)])
    {
      SetUnder(i, key, d, sh);
      ghost var sh' := sh[i := R.Set(sh[i], DECODE_CACHE_SIZE, key, d)];
      assert forall j :: 0 <= j < |caches| && j != i ==> caches[j].Repr !! caches[i].Repr by {
        assert forall j :: 0 <= j < |caches| && j != i ==> old(caches[j].Repr) !! old(caches[i].Repr);
      }
      Grow(i, sh');
    }

    /** The footprint takes in what a cache has allocated. */
    ghost method Grow(i: nat, sh: Shards<D>)
      requires this in Repr && i < |caches| == |sh|
      requires forall j :: 0 <= j < |caches| ==>
        && caches[j] in Repr && this !in caches[j].Repr && caches[j].Valid() && caches[j].size == DECODE_CACHE_SIZE
        && (j != i ==> caches[j].Repr <= Repr) && caches[j].View() == sh[j]
      requires forall j, k :: 0 <= j < k < |caches| ==> caches[j].Repr !! caches[k].Repr
      modifies this`Repr
      ensures Repr == old(Repr) + caches[i].Repr && Valid() && Shows(sh)
    {
      Repr := Repr + caches[i].Repr;
      forall c | c in caches ensures c in Repr && c.Repr <= Repr && Owns(c) {
        var j :| 0 <= j < |caches| && caches[j] == c;
      }
    }

    method RemoveIn(i: nat, key: string, ghost sh: Shards<D>)
      requires Valid() && Shows(sh) && i < |caches|
      modifies Repr
      ensures Valid() && fresh(Repr - old(Repr)) && Shows(sh[i := R.Without(sh[i], key)])
    {
      var c := caches[i];
      c.Remove(key);
      forall j | 0 <= j < |caches| && j != i
        ensures caches[j] != c && caches[j].Repr == old(caches[j].Repr)
        ensures Owns(caches[j]) && caches[j].View() == sh[j]
      {
        assert old(caches[j].Repr) !! old(c.Repr);
        assert old(Owns(caches[j]));
      }
    }

    method InvalidateSessionId(id: string, t: SessionType, ghost sh: Shards<D>)
      requires Valid() && Shows(sh)
      modifies Repr
      ensures Valid() && fresh(Repr - old(Repr)) && Shows(Invalidate(sh, id, t))
    {
      if id == "" {
        return;
      }
      var key := CacheKey(id, t);
      RemoveIn(Shard(key, |caches|), key, sh);
    }

    method SetDecodedSessionId(id: string, t: SessionType, d: D, ghost sh: Shards<D>)
      requires Valid() && Shows(sh)
      modifies Repr
      ensures Valid() && fresh(Repr - old(Repr)) && Shows(SetDecoded(sh, DECODE_CACHE_SIZE, id, t, d))
    {
      if id == "" {
        return;
      }
      var key := CacheKey(id, t);
      SetIn(Shard(key, |caches|), key, d, sh);
    }

    /** By DecodeTransparent the result is the uncached one as long as every cached value is. */
    method DecodeSessionId(id: string, t: SessionType, ghost sh: Shards<D>) returns (d: Option<D>)
      requires Valid() && Shows(sh)
      modifies Repr
      ensures Valid() && fresh(Repr - old(Repr))
      ensures d == Decode(cookie, sh, DECODE_CACHE_SIZE, id, t).0
      ensures Shows(Decode(cookie, sh, DECODE_CACHE_SIZE, id, t).1)
    {
      if id == "" {
        return None;
      }
      var key := CacheKey(id, t);
      var i := Shard(key, |caches|);
      d := GetIn(i, key, sh);
      if d.Some? {
        return;
      }
      assert sh[i := R.Get(sh[i], key)] == sh;
      d := DecodeCookie(id, t);
      if d.Some? {
        SetIn(i, key, d.value, sh);
      }
    }

    method DecodeCookie(id: string, t: SessionType) returns (d: Option<D>)
      requires id != ""
      ensures d == DecodeUncached(cookie, id, t)
    {
      var raw := id;
      if t.PublicSession? {
        var reversed := ReverseSessionId(id);
        if reversed.None? {
          return None;
        }
        raw := reversed.value;
      }
      d := cookie.decode(t, raw);
    }
  }
}
