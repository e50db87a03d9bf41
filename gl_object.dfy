/** `GlObject` (include/sogl/GlObject.hpp): a move-only owner of one OpenGL
    object name. Moving transfers the name and leaves zero behind, so a name is
    never owned twice through moves. */
module GlObjects {

  /** An `unsigned` OpenGL object name; 0 names nothing. */
  type Handle = h: int | 0 <= h < 0x1_0000_0000

  class GlObject {
    var handle: Handle

    /** The default constructor: owns nothing. */
    constructor ()
      ensures handle == 0
    {
      handle := 0;
    }

    /** The move constructor: takes over the source's name, zeroing the source. */
    constructor Moved(other: GlObject)
      modifies other
      ensures handle == old(other.handle) && other.handle == 0
      ensures handle == 0 || other.handle == 0
    {
      handle := other.handle;
      new;
      other.handle := 0;
    }

    /** Move assignment: the name this object held is overwritten without being
        released, the source's name moves here and the source is zeroed.
        Assigning an object to itself therefore leaves it owning nothing. */
    method MoveAssign(other: GlObject)
      modifies this, other
      ensures other.handle == 0
      ensures this != other ==> handle == old(other.handle)
      ensures this == other ==> handle == 0
      ensures handle == 0 || other.handle == 0 || this == other
    {
      handle := other.handle;
      other.handle := 0;
    }

    /** `getHandle(other)`: reads another object's name, changing nothing. */
    method GetHandle(other: GlObject) returns (h: Handle)
      ensures h == other.handle
    {
      h := other.handle;
    }
  }

  /** Among the objects in `owners`, no two distinct ones own the same non-zero
      name. */
  ghost predicate UniqueOwners(owners: set<GlObject>)
    reads owners
  {
    forall a, b :: a in owners && b in owners && a != b && a.handle != 0 ==> a.handle != b.handle
  }

  /** Moving one object of a uniquely owned group into another keeps the group
      uniquely owned: the destination's old name is dropped, the moved name
      leaves its source. */
  method MoveWithinGroup(owners: set<GlObject>, dst: GlObject, src: GlObject)
    requires dst in owners && src in owners && UniqueOwners(owners)
    modifies dst, src
    ensures UniqueOwners(owners)
    ensures dst.handle == (if dst == src then 0 else old(src.handle)) && src.handle == 0
  {
    dst.MoveAssign(src);
  }
}
