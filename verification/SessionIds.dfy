/**
 * Session ids: a signed cookie for private ids, the same cookie with its bytes reversed for
 * public ids. The cookie implementation is a parameter; its law is the predicate Lawful.
 */
module SessionIds {
  import opened Options
  import opened Base64Url

  datatype SessionType = PrivateSession | PublicSession

  function TypeName(t: SessionType): string {
    match t
    case PrivateSession => "private-session"
    case PublicSession => "public-session"
  }

  function Reverse<T>(s: seq<T>): (r: seq<T>)
    ensures |r| == |s| && forall i :: 0 <= i < |s| ==> r[i] == s[|s| - 1 - i]
  {
    seq(|s|, i requires 0 <= i < |s| => s[|s| - 1 - i])
  }

  method ReverseInPlace(a: array<Byte>)
    modifies a
    ensures a[..] == Reverse(old(a[..]))
  {
    var i, j := 0, a.Length - 1;
    while i < j
      invariant 0 <= i <= j + 1 && i + j == a.Length - 1
      invariant forall k :: 0 <= k < i ==> a[k] == old(a[a.Length - 1 - k])
      invariant forall k :: j < k < a.Length ==> a[k] == old(a[a.Length - 1 - k])
      invariant forall k :: i <= k <= j ==> a[k] == old(a[k])
    {
      a[i], a[j] := a[j], a[i];
      i, j := i + 1, j - 1;
    }
  }

  function ReverseId(s: string): Option<string> {
    match Decode(s)
    case None => None
    case Some(bytes) => Some(Encode(Reverse(bytes)))
  }

  method ReverseSessionId(s: string) returns (r: Option<string>)
    ensures r == ReverseId(s)
    ensures r.None? <==> !AreQuads(StripNewlines(s))
  {
    DecodeAcceptsIff(s);
    var decoded := Decode(s);
    if decoded.None? {
      return None;
    }
    var bytes := decoded.value;
    var a := new Byte[|bytes|](i requires 0 <= i < |bytes| => bytes[i]);
    assert a[..] == bytes;
    ReverseInPlace(a);
    return Some(Encode(a[..]));
  }

  /** Reversing twice normalizes an id, and gives it back exactly when it is canonical. */
  lemma ReverseTwice(s: string)
    ensures Decode(s).None? <==> ReverseId(s).None?
    ensures ReverseId(s).Some? ==> ReverseId(ReverseId(s).value) == Some(Encode(Decode(s).value))
    ensures ReverseId(s).Some? ==> (ReverseId(ReverseId(s).value) == Some(s) <==> Canonical(s))
  {
    if Decode(s).Some? {
      var bytes := Decode(s).value;
      DecodeOfEncode(Reverse(bytes));
      assert Reverse(Reverse(bytes)) == bytes;
      EncodeOfDecode(s);
    }
  }

  /** For every byte string, reversing its encoding twice returns that encoding. */
  lemma ReverseRoundTrip(bytes: seq<Byte>)
    ensures ReverseId(Encode(bytes)) == Some(Encode(Reverse(bytes)))
    ensures ReverseId(Encode(Reverse(bytes))) == Some(Encode(bytes))
  {
    DecodeOfEncode(bytes);
    DecodeOfEncode(Reverse(bytes));
    assert Reverse(Reverse(bytes)) == bytes;
  }

  // ---- Cookies ----

  datatype Cookie<!D> = Cookie(encode: (SessionType, D) -> Option<string>, decode: (SessionType, string) -> Option<D>)

  /** What the cookie library promises: a canonical encoding that decodes to what was encoded. */
  ghost predicate Lawful<D(!new)>(c: Cookie<D>) {
    forall t, d :: c.encode(t, d).Some? ==>
      Canonical(c.encode(t, d).value) && c.decode(t, c.encode(t, d).value) == Some(d)
  }

  function EncodeSessionId<D>(c: Cookie<D>, d: D, t: SessionType): Option<string> {
    match c.encode(t, d)
    case None => None
    case Some(encoded) => if t.PublicSession? then ReverseId(encoded) else Some(encoded)
  }

  /** Decoding an id without a cache. */
  function DecodeUncached<D>(c: Cookie<D>, id: string, t: SessionType): Option<D> {
    if id == "" then None
    else if t.PrivateSession? then c.decode(t, id)
    else
      match ReverseId(id)
      case None => None
      case Some(reversed) => c.decode(t, reversed)
  }

  /** The ids handed out decode to the data they were made for, and encoding never fails after the cookie. */
  lemma EncodedIdDecodes<D(!new)>(c: Cookie<D>, d: D, t: SessionType)
    requires Lawful(c)
    ensures EncodeSessionId(c, d, t).Some? <==> c.encode(t, d).Some?
    ensures DecodeUncached(c, "", t) == None
    ensures var id := EncodeSessionId(c, d, t);
      id.Some? && id.value != "" ==> DecodeUncached(c, id.value, t) == Some(d)
  {
    if c.encode(t, d).Some? {
      var encoded := c.encode(t, d).value;
      StripCanonical(encoded);
      EncodeOfDecodeQuads(encoded);
      ReverseTwice(encoded);
    }
  }

  /** A private id is the cookie; a public id has the cookie's bytes in reverse order. */
  lemma PublicIdsAreReversed<D(!new)>(c: Cookie<D>, d: D)
    requires Lawful(c)
    ensures EncodeSessionId(c, d, PrivateSession) == c.encode(PrivateSession, d)
    ensures c.encode(PublicSession, d).Some? ==>
      var cookie, id := c.encode(PublicSession, d).value, EncodeSessionId(c, d, PublicSession);
      && id.Some? && Decode(cookie).Some? && Decode(id.value).Some?
      && |Decode(id.value).value| == |Decode(cookie).value|
      && forall i :: 0 <= i < |Decode(cookie).value| ==>
           Decode(id.value).value[i] == Decode(cookie).value[|Decode(cookie).value| - 1 - i]
  {
    if c.encode(PublicSession, d).Some? {
      var cookie := c.encode(PublicSession, d).value;
      StripCanonical(cookie);
      EncodeOfDecodeQuads(cookie);
      DecodeOfEncode(Reverse(Decode(cookie).value));
    }
  }

  // ---- Cache keys and shards ----

  function CacheKey(id: string, t: SessionType): string {
    id + "|" + TypeName(t)
  }

  /** No two ids share a key, whatever bytes they contain and whichever of the two types they have. */
  lemma CacheKeyInjective(id: string, t: SessionType, id': string, t': SessionType)
    ensures CacheKey(id, t) == CacheKey(id', t') <==> id == id' && t == t'
  {
    var k, k' := CacheKey(id, t), CacheKey(id', t');
    KeyPivot(id, t);
    KeyPivot(id', t');
    assert id == k[..|k| - |TypeName(t)| - 1];
    assert id' == k'[..|k'| - |TypeName(t')| - 1];
  }

  lemma KeyPivot(id: string, t: SessionType)
    ensures var k := CacheKey(id, t);
      |k| >= 15 && k[|k| - 15] == (if t.PublicSession? then '|' else 'p')
  {
  }

  /** The 32-bit FNV-1a hash. */
  function Fnv32a(s: string): bv32 {
    if s == "" then 2166136261
    else (Fnv32a(s[..|s| - 1]) ^ ((s[|s| - 1] as int % 256) as bv32)) * 16777619
  }

  /** A published value of the hash. */
  lemma FnvOfA()
    ensures Fnv32a("a") == 0xe40c292c
  {
    assert "a"[..0] == "";
  }

  function Shard(key: string, count: nat): (i: nat)
    requires count > 0
    ensures i < count
  {
    Fnv32a(key) as int % count
  }
}
