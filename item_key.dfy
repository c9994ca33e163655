/**
 * `ItemKey`: the identity of one polled or written memory region of the
 * controller (memory area, area number, length in bytes, byte offset).
 * Java gives it value semantics through `equals`/`hashCode`; here it is a
 * datatype, and `Equals` models the `equals(Object)` method itself.
 */
module ItemKeys {
  import opened JavaHash

  /** A `DaveArea` constant; the enumeration is not part of this model, so an area is its ordinal. */
  datatype Area = Area(ordinal: nat)

  /** The four final fields; the getters are the destructors. */
  datatype ItemKey = ItemKey(area: Area, areaNumber: Int32, bytes: Int32, offset: Int32)

  /** `ItemKey.equals`: identity short-cut, then the class check, then the four fields. */
  function Equals(selfRef: nat, self: ItemKey, o: JavaObject<ItemKey>): bool
  {
    if !o.Null? && o.ref == selfRef then true
    else if !o.Instance? then false
    else
      && self.areaNumber == o.value.areaNumber
      && self.bytes == o.value.bytes
      && self.offset == o.value.offset
      && self.area == o.value.area
  }

  /**
   * `ItemKey.hashCode` = `Objects.hash(area, areaNumber, bytes, offset)`.
   * The enumeration constant's own hash (its identity hash) is supplied by
   * the virtual machine, so it is a parameter.
   */
  function HashCode(k: ItemKey, areaHash: Area -> Int32): Int32
  {
    ObjectsHash([areaHash(k.area), k.areaNumber, k.bytes, k.offset])
  }

  /** The constructor stores its four arguments and the getters hand them back. */
  lemma ConstructorGetters(area: Area, areaNumber: Int32, bytes: Int32, offset: Int32)
    ensures var k := ItemKey(area, areaNumber, bytes, offset);
      k.area == area && k.areaNumber == areaNumber && k.bytes == bytes && k.offset == offset
  {
  }

  /** `equals` holds exactly when `o` is an ItemKey with the same four fields. */
  lemma EqualsIsFieldEquality(selfRef: nat, self: ItemKey, o: JavaObject<ItemKey>)
    requires Coherent(selfRef, self, o)
    ensures Equals(selfRef, self, o) <==> (o.Instance? && o.value == self)
  {
  }

  /** `equals(null)` and `equals` of another class are false; `equals(this)` is true. */
  lemma EqualsNullOtherClassAndSelf(selfRef: nat, self: ItemKey, otherRef: nat)
    requires otherRef != selfRef
    ensures !Equals(selfRef, self, Null)
    ensures !Equals(selfRef, self, OtherInstance(otherRef))
    ensures Equals(selfRef, self, Instance(selfRef, self))
  {
  }

  /** The `equals`/`hashCode` contract: equal keys have equal hash codes. */
  lemma EqualKeysHashEqual(selfRef: nat, self: ItemKey, o: JavaObject<ItemKey>, areaHash: Area -> Int32)
    requires Coherent(selfRef, self, o) && o.Instance?
    requires Equals(selfRef, self, o)
    ensures HashCode(self, areaHash) == HashCode(o.value, areaHash)
  {
    EqualsIsFieldEquality(selfRef, self, o);
  }
}
