/** The browser's key-value store and the profile list kept in it under one key.
    The serialised text is abstracted: a stored value is either the encoding of
    a profile list, the empty string, or text the JSON parser rejects. Encoding
    followed by decoding is the identity on profile lists. */
module Storage {
  import opened Wrappers
  import opened Profiles

  /** The key under which the whole profile list is kept. */
  const ProfilesKey: string := "coffeeProfiles"

  /** A string held in the store, classified by what parsing it yields. */
  datatype StoredText =
    | Encoded(profiles: seq<CoffeeProfile>)  // the serialisation of a profile list
    | EmptyText                              // "", which is falsy
    | Malformed                              // anything the JSON parser throws on

  /** Parsing throws; the load effect does not catch it. */
  datatype LoadError = MalformedJson

  type Store = map<string, StoredText>

  /** Serialisation of a profile list. */
  function Encode(ps: seq<CoffeeProfile>): StoredText {
    Encoded(ps)
  }

  /** Parsing of stored text; throws on anything but an encoded list. */
  function Decode(t: StoredText): (r: Result<seq<CoffeeProfile>, LoadError>)
    ensures r.Success? <==> t.Encoded?
    ensures r.Success? ==> Encode(r.value) == t
  {
    match t
    case Encoded(ps) => Success(ps)
    case _ => Failure(MalformedJson)
  }

  /** Reading a key: null when the key has never been written. */
  function GetItem(store: Store, key: string): Option<StoredText> {
    if key in store then Some(store[key]) else None
  }

  /** The `|| '[]'` fallback: a missing or empty value reads as the empty list. */
  function OrEmptyList(v: Option<StoredText>): (t: StoredText)
    ensures v.None? ==> t == Encode([])
    ensures v == Some(EmptyText) ==> t == Encode([])
    ensures v.Some? && v.value != EmptyText ==> t == v.value
    ensures t != EmptyText
  {
    match v
    case None => Encode([])
    case Some(EmptyText) => Encode([])
    case Some(s) => s
  }

  /** Reads the saved profile list, as the load effect does. */
  function LoadProfiles(store: Store): (r: Result<seq<CoffeeProfile>, LoadError>)
    ensures ProfilesKey !in store ==> r == Success([])
    ensures ProfilesKey in store && store[ProfilesKey] == EmptyText ==> r == Success([])
    ensures ProfilesKey in store && store[ProfilesKey].Encoded? ==>
              r == Success(store[ProfilesKey].profiles)
    ensures r.Failure? <==> ProfilesKey in store && store[ProfilesKey] == Malformed
  {
    Decode(OrEmptyList(GetItem(store, ProfilesKey)))
  }

  /** Overwrites the stored list with the whole of `ps`; no other key changes. */
  function SaveProfiles(store: Store, ps: seq<CoffeeProfile>): (r: Store)
    ensures LoadProfiles(r) == Success(ps)
    ensures r.Keys == store.Keys + {ProfilesKey}
    ensures forall k :: k in store && k != ProfilesKey ==> r[k] == store[k]
  {
    store[ProfilesKey := Encode(ps)]
  }

  /** Saving twice keeps only the later list: each save is a full overwrite. */
  lemma SaveOverwrites(store: Store, ps: seq<CoffeeProfile>, qs: seq<CoffeeProfile>)
    ensures SaveProfiles(SaveProfiles(store, ps), qs) == SaveProfiles(store, qs)
  {
  }
}
