/** The chat transcript the report generator reads: one record per message,
    in speaking order. */
module Messages {

  datatype Option<T> = None | Some(value: T)

  /** One message of the group chat. `name` is None when the message has no
      "name" key; `content` is "" when it has no "content" key (every reader of
      a message supplies that default). */
  datatype Message = Message(name: Option<string>, content: string)

  /** The requester's proxy agent, excluded from recommendation mining. */
  const BusinessUser: string := "BusinessUser"

  /** `msg.get("name", "Unknown")`. */
  function SpeakerName(m: Message): (n: string)
    ensures m.name.Some? ==> n == m.name.value
    ensures n == "Unknown" <==> m.name.None? || m.name.value == "Unknown"
  {
    match m.name
    case Some(n) => n
    case None => "Unknown"
  }
}

/** Python dictionaries with string keys: a map together with the order in
    which its keys were first inserted, which is the order iteration sees. */
module Dicts {

  datatype Dict<V> = Dict(keys: seq<string>, values: map<string, V>) {

    /** The keys are listed once each, and are exactly the map's keys. */
    predicate Valid()
    {
      && (forall i, j :: 0 <= i < j < |keys| ==> keys[i] != keys[j])
      && values.Keys == set k | k in keys
    }

    /** `d[k] = v`: a new key goes to the end of the order, an existing key
        keeps its place and gets the new value. */
    function Put(k: string, v: V): (d: Dict<V>)
      requires Valid()
      ensures d.Valid()
      ensures d.values == values[k := v]
      ensures k in values ==> d.keys == keys
      ensures k !in values ==> d.keys == keys + [k]
    {
      if k in values then Dict(keys, values[k := v]) else Dict(keys + [k], values[k := v])
    }
  }

  function Empty<V>(): (d: Dict<V>)
    ensures d.Valid() && d.keys == [] && d.values == map[]
  {
    Dict([], map[])
  }
}
