/**
 * The opaque subject-ID resolver of the storage adapter: an identifier is the
 * hex encoding of "<name>/<namespace>", and resolving it is one keyed read of
 * the cluster's User objects. The cluster client is a map from namespaced
 * name to a User record, which the model treats as opaque (type `U`). Every
 * operation here is a function of that map, so no resolution changes a store
 * entry.
 */
module UserStore {
  import opened Wrappers
  import opened Hex

  /** The separator between name and namespace, '/'. */
  const Slash: byte := 0x2F

  /** types.NamespacedName: the key of a User object. */
  datatype NamespacedName = NamespacedName(namespace: seq<byte>, name: seq<byte>)

  /** The cluster client's view of User objects. */
  type Store<U> = map<NamespacedName, U>

  datatype StoreError =
    | InvalidHex(hex: HexError)   // hex.DecodeString's error, returned unchanged
    | IndexOutOfRange             // no separator: parts[1] does not exist (a runtime panic in the source)
    | NotFound(key: NamespacedName)

  /** strings.Index for a one-byte separator: -1 when `c` does not occur. */
  function IndexByte(s: seq<byte>, c: byte): (i: int)
    ensures -1 <= i < |s|
    ensures i == -1 <==> c !in s
    ensures 0 <= i ==> s[i] == c && c !in s[..i]
  {
    if |s| == 0 then -1
    else if s[0] == c then 0
    else
      var j := IndexByte(s[1..], c);
      if j == -1 then -1
      else
        assert s[..j + 1] == [s[0]] + s[1..][..j];
        j + 1
  }

  /** strings.SplitN(s, sep, 2): split at the first separator only. */
  function SplitN2(s: seq<byte>, sep: byte): (parts: seq<seq<byte>>)
    ensures 1 <= |parts| <= 2
    ensures |parts| == 1 <==> sep !in s
    ensures |parts| == 1 ==> parts[0] == s
    ensures |parts| == 2 ==> s == parts[0] + [sep] + parts[1] && sep !in parts[0]
  {
    var i := IndexByte(s, sep);
    if i < 0 then [s]
    else
      assert s == s[..i] + [sep] + s[i + 1..];
      [s[..i], s[i + 1..]]
  }

  /** The client's Get: the record stored under `key`, or NotFound. */
  function Get<U>(store: Store<U>, key: NamespacedName): (r: Result<U, StoreError>)
    ensures r.Ok? <==> key in store
    ensures r.Ok? ==> r.value == store[key]
    ensures r.Err? ==> r.error == NotFound(key)
  {
    if key in store then Ok(store[key]) else Err(NotFound(key))
  }

  /** userStore.GetUserByUsername: split "<name>/<namespace>" at the first '/' and read that key. */
  function GetUserByUsername<U>(store: Store<U>, username: seq<byte>): (r: Result<U, StoreError>)
    ensures r == Err(IndexOutOfRange) <==> Slash !in username
    ensures r.Ok? ==> exists key :: key in store && store[key] == r.value
  {
    var parts := SplitN2(username, Slash);
    if |parts| < 2 then Err(IndexOutOfRange)
    else Get(store, NamespacedName(parts[1], parts[0]))
  }

  /** userStore.GetUserByID: hex-decode the identifier, then resolve it as a username. */
  function GetUserByID<U>(store: Store<U>, userID: seq<byte>): (r: Result<U, StoreError>)
    ensures (r.Err? && r.error.InvalidHex?) <==> !ValidHex(userID)
    ensures r.Ok? ==> exists key :: key in store && store[key] == r.value
  {
    DecodeAccepts(userID);
    match Decode(userID)
    case Err(e) => Err(InvalidHex(e))
    case Ok(decoded) => GetUserByUsername(store, decoded)
  }

  /** The first '/' decides the split: the name never holds one, the namespace may. */
  lemma {:induction false} SplitAtFirstSlash(name: seq<byte>, namespace: seq<byte>)
    requires Slash !in name
    ensures SplitN2(name + [Slash] + namespace, Slash) == [name, namespace]
  {
    var s := name + [Slash] + namespace;
    var i := IndexByte(s, Slash);
    assert forall k :: 0 <= k < |name| ==> s[k] == name[k];
    assert s[|name|] == Slash;
    assert s[..i] == name && s[i + 1..] == namespace;
  }

  /** A username resolves to exactly the record stored under (namespace, name). */
  lemma ResolvesStoredKey<U>(store: Store<U>, name: seq<byte>, namespace: seq<byte>)
    requires Slash !in name
    ensures GetUserByUsername(store, name + [Slash] + namespace) == Get(store, NamespacedName(namespace, name))
  {
    SplitAtFirstSlash(name, namespace);
  }

  /** An empty name, as in "/ns", is not rejected: it is looked up like any other. */
  lemma EmptyNameIsLookedUp<U>(store: Store<U>, namespace: seq<byte>)
    ensures GetUserByUsername(store, [Slash] + namespace) == Get(store, NamespacedName(namespace, []))
  {
    ResolvesStoredKey(store, [], namespace);
  }

  /** Resolution reads one entry: any other key may change without changing the answer. */
  lemma OtherEntriesIgnored<U>(store: Store<U>, name: seq<byte>, namespace: seq<byte>, other: NamespacedName, u: U)
    requires Slash !in name && other != NamespacedName(namespace, name)
    ensures GetUserByUsername(store[other := u], name + [Slash] + namespace)
         == GetUserByUsername(store, name + [Slash] + namespace)
    ensures GetUserByUsername(store - {other}, name + [Slash] + namespace)
         == GetUserByUsername(store, name + [Slash] + namespace)
  {
    ResolvesStoredKey(store, name, namespace);
    ResolvesStoredKey(store[other := u], name, namespace);
    ResolvesStoredKey(store - {other}, name, namespace);
  }

  /** An identifier that is not valid hex fails with the decoder's error, whatever the store holds. */
  lemma InvalidIdNeverReadsStore<U>(store: Store<U>, other: Store<U>, userID: seq<byte>)
    requires !ValidHex(userID)
    ensures GetUserByID(store, userID).Err? && GetUserByID(store, userID).error.InvalidHex?
    ensures GetUserByID(store, userID) == GetUserByID(other, userID)
  {
    DecodeAccepts(userID);
  }

  /** A valid identifier is resolved exactly as its decoding is. */
  lemma ValidIdDelegates<U>(store: Store<U>, userID: seq<byte>)
    requires ValidHex(userID)
    ensures Decode(userID).Ok?
    ensures GetUserByID(store, userID) == GetUserByUsername(store, Decode(userID).value)
  {
    DecodeAccepts(userID);
  }

  /** Round trip: resolving the hex encoding (either case) of a username equals resolving the username. */
  lemma IdRoundTrip<U>(store: Store<U>, username: seq<byte>, upper: bool)
    ensures GetUserByID(store, Encode(username, upper)) == GetUserByUsername(store, username)
  {
    DecodeEncode(username, upper);
  }

  /** The opaque identifier of a key resolves to the record stored under that key. */
  lemma OpaqueIdResolvesKey<U>(store: Store<U>, key: NamespacedName, upper: bool)
    requires Slash !in key.name
    ensures GetUserByID(store, Encode(key.name + [Slash] + key.namespace, upper)) == Get(store, key)
  {
    IdRoundTrip(store, key.name + [Slash] + key.namespace, upper);
    ResolvesStoredKey(store, key.name, key.namespace);
  }
}
