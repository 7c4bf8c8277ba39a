/**
  `Blob`: an owned byte buffer behind a pointer that is null for an empty blob,
  with `Reset`, deep copy and move.
 */
module Blobs {
  import opened Wrappers

  /** Sizes are `uint32_t`. */
  const SizeLimit: nat := 0x1_0000_0000

  class Blob {
    /** The owned buffer (`m_impl`); null when the blob holds nothing. */
    var impl: Option<seq<bv8>>

    /** An allocated buffer is never empty and its size fits in 32 bits. */
    ghost predicate Valid()
      reads this
    {
      impl.Some? ==> 0 < |impl.value| < SizeLimit
    }

    /** `Data`: the buffer, or null for an empty blob. */
    function Data(): (r: Option<seq<bv8>>)
      reads this
      requires Valid()
      ensures r.Some? ==> 0 < |r.value| < SizeLimit
    {
      impl
    }

    /** `Size`: the number of bytes held; zero exactly when `Data` is null. */
    function Size(): (r: nat)
      reads this
      requires Valid()
      ensures r < SizeLimit
      ensures r == 0 <==> Data().None?
      ensures Data().Some? ==> r == |Data().value|
    {
      if impl.Some? then |impl.value| else 0
    }

    /** The bytes held, empty for a null blob. */
    function Bytes(): (r: seq<bv8>)
      reads this
      requires Valid()
      ensures |r| == Size()
      ensures Data().Some? ==> r == Data().value
    {
      if impl.Some? then impl.value else []
    }

    /** `Blob()`: an empty blob. */
    constructor Empty()
      ensures Valid() && impl.None?
    {
      impl := None;
    }

    /** `Blob(data, size)`: a blob holding the first `size` bytes at `data`. */
    constructor FromData(data: Option<seq<bv8>>, size: nat)
      requires size < SizeLimit
      requires data.Some? ==> size <= |data.value|
      ensures Valid()
      ensures impl == if data.None? || size == 0 then None else Some(data.value[..size])
    {
      impl := None;
      new;
      Reset(data, size);
    }

    /** The copy constructor: an equal buffer of its own. */
    constructor Copy(other: Blob)
      requires other.Valid()
      ensures Valid() && impl == other.impl
    {
      impl := None;
      new;
      Reset(other.Data(), other.Size());
      assert other.Data().Some? ==> other.Data().value[..other.Size()] == other.Data().value;
    }

    /** The move constructor: takes `other`'s buffer and leaves `other` empty. */
    constructor Move(other: Blob)
      requires other.Valid()
      modifies other
      ensures Valid() && other.Valid()
      ensures impl == old(other.impl) && other.impl.None?
    {
      impl := other.impl;
      new;
      other.impl := None;
    }

    /** `Reset()`: releases the buffer. */
    method Clear()
      modifies this`impl
      ensures Valid() && impl.None?
    {
      impl := None;
    }

    /**
      `Reset(data, size)`: releases the buffer, then copies `size` bytes from
      `data` unless `data` is null or `size` is zero.
     */
    method Reset(data: Option<seq<bv8>>, size: nat)
      requires size < SizeLimit
      requires data.Some? ==> size <= |data.value|
      modifies this`impl
      ensures Valid()
      ensures impl == if data.None? || size == 0 then None else Some(data.value[..size])
      ensures data.Some? && size > 0 ==> Size() == size && Bytes() == data.value[..size]
    {
      Clear();
      if data.Some? && size > 0 {
        impl := Some(data.value[..size]);
      }
    }

    /** Copy assignment: an equal buffer of its own; assigning a blob to itself changes nothing. */
    method CopyAssign(other: Blob)
      requires Valid() && other.Valid()
      modifies this`impl
      ensures Valid() && impl == old(other.impl)
      ensures other.impl == old(other.impl)
    {
      if this != other {
        Reset(other.Data(), other.Size());
        assert other.Data().Some? ==> other.Data().value[..other.Size()] == other.Data().value;
      }
    }

    /** Move assignment: takes `other`'s buffer and leaves `other` empty; a self-move changes nothing. */
    method MoveAssign(other: Blob)
      requires Valid() && other.Valid()
      modifies this, other
      ensures Valid() && other.Valid()
      ensures this != other ==> impl == old(other.impl) && other.impl.None?
      ensures this == other ==> impl == old(impl)
    {
      if this != other {
        impl := other.impl;
        other.impl := None;
      }
    }
  }
}
