/**
 * The item registry (`Map<ItemKey, ItemProcessor>`) and the public
 * surface shared by `S7AsyncConnection` and `S7Endpoint`: the connection
 * state enumeration, the callbacks, and the convenience methods that build
 * an `ItemKey` from its four fields.
 */
module Api {
  import opened Wrappers
  import opened JavaHash
  import opened ItemKeys
  import opened S7Exceptions
  import opened Connector

  /** `S7AsyncConnection.State`. */
  datatype State = Idle | Active | Closed

  /** Identity of a caller-supplied `Consumer`. */
  type ConsumerId = nat

  /** `ItemProcessor`: the result consumer and the optional (nullable) item error consumer. */
  datatype Processor = Processor(consumer: ConsumerId, errorConsumer: Option<ConsumerId>)

  type Registry = map<ItemKey, Processor>

  /** One invocation of a caller-supplied consumer. */
  datatype Event =
    | Delivered(consumer: ConsumerId, data: ByteArray)
    | ItemFailed(consumer: ConsumerId, itemError: S7Exception)
    | GlobalFailed(consumer: ConsumerId, error: IoException)
    | StateChanged(listener: ConsumerId, state: State)

  /** `items.put(key, processor)`: the entry for an equal key is replaced, no other entry moves. */
  function Register(items: Registry, key: ItemKey, p: Processor): (r: Registry)
    ensures key in r && r[key] == p
    ensures forall k :: k != key ==> (k in r <==> k in items) && (k in items ==> r[k] == items[k])
  {
    items[key := p]
  }

  /** `items.remove(key)`: removes the key if present and changes nothing else. */
  function Unregister(items: Registry, key: ItemKey): (r: Registry)
    ensures key !in r
    ensures forall k :: k != key ==> (k in r <==> k in items) && (k in items ==> r[k] == items[k])
    ensures key !in items ==> r == items
  {
    items - {key}
  }

  /** `order` is one pass of `forEach` over the registry: every key exactly once. */
  ghost predicate Enumerates(order: seq<ItemKey>, items: Registry)
  {
    && (forall i, j :: 0 <= i < j < |order| ==> order[i] != order[j])
    && (forall k :: k in order <==> k in items)
  }

  /** The call a convenience method delegates to. */
  datatype ItemCall =
    | AddItem(key: ItemKey, consumer: ConsumerId, errorConsumer: Option<ConsumerId>)
    | RemoveItem(key: ItemKey)
    | WriteItem(key: ItemKey, value: ByteArray)

  /** `addItem(area, areaNumber, bytes, offset, consumer)`. */
  function DefaultAddItem(area: Area, areaNumber: Int32, bytes: Int32, offset: Int32, consumer: ConsumerId): (c: ItemCall)
    ensures c.AddItem? && c.consumer == consumer && c.errorConsumer == None
    ensures Equals(0, c.key, Instance(1, ItemKey(area, areaNumber, bytes, offset)))
  {
    AddItem(ItemKey(area, areaNumber, bytes, offset), consumer, None)
  }

  /** `removeItem(area, areaNumber, bytes, offset)`. */
  function DefaultRemoveItem(area: Area, areaNumber: Int32, bytes: Int32, offset: Int32): (c: ItemCall)
    ensures c.RemoveItem?
    ensures Equals(0, c.key, Instance(1, ItemKey(area, areaNumber, bytes, offset)))
  {
    RemoveItem(ItemKey(area, areaNumber, bytes, offset))
  }

  /** `write(area, areaNumber, offset, value)`: the key's length is the value's length. */
  function DefaultWrite(area: Area, areaNumber: Int32, offset: Int32, value: ByteArray): (c: ItemCall)
    ensures c.WriteItem? && c.value == value
    ensures c.key.bytes == |value| && c.key.area == area && c.key.areaNumber == areaNumber && c.key.offset == offset
  {
    WriteItem(ItemKey(area, areaNumber, |value|, offset), value)
  }

  /** What the delegated call does to an item registry. */
  function ApplyToRegistry(items: Registry, c: ItemCall): Registry
  {
    match c
    case AddItem(k, consumer, errorConsumer) => Register(items, k, Processor(consumer, errorConsumer))
    case RemoveItem(k) => Unregister(items, k)
    case WriteItem(_, _) => items
  }

  /**
   * `addItem` then `removeItem` with the same four arguments address the
   * same registry entry: the pair leaves the registry as it was, minus any
   * earlier entry for that key.
   */
  lemma AddThenRemoveSameEntry(items: Registry, area: Area, areaNumber: Int32, bytes: Int32, offset: Int32, consumer: ConsumerId)
    ensures var added := ApplyToRegistry(items, DefaultAddItem(area, areaNumber, bytes, offset, consumer));
      && ItemKey(area, areaNumber, bytes, offset) in added
      && ApplyToRegistry(added, DefaultRemoveItem(area, areaNumber, bytes, offset))
         == items - {ItemKey(area, areaNumber, bytes, offset)}
  {
    var k := ItemKey(area, areaNumber, bytes, offset);
    var added := Register(items, k, Processor(consumer, None));
    assert Unregister(added, k) == items - {k};
  }
}
