/**
  The owning buffer `basic_buffer`: a length fixed at construction and a
  uniquely owned storage of that many elements. The element type is `Complex`
  for complex buffers and the real scalar for real ones; both are the type
  parameter `T` here (only the complex buffer has the fill constructor).
  Storage is `null` only in a moved-from buffer.
 */
module BasicBuffer {
  import opened Util

  /** A position in a buffer's storage: the pointer `data() + offset`. */
  datatype Pointer<T> = Pointer(base: array?<T>, offset: nat)

  class Buffer<T(0)> {
    var length: SizeT
    var storage: array?<T>

    /** Non-null storage holds exactly `length` elements. */
    ghost predicate Valid()
      reads this
    {
      storage != null ==> storage.Length == length
    }

    /** The elements, in index order. */
    ghost function Contents(): seq<T>
      reads this, storage
      requires storage != null
    {
      storage[..]
    }

    /** `basic_buffer(length)`: allocates `length` elements and leaves them unspecified. */
    constructor (length: SizeT)
      ensures Valid() && storage != null && fresh(storage)
      ensures Size() == length
    {
      this.length := length;
      storage := new T[length];
    }

    /**
      `basic_buffer(length, value)`: allocates, then writes `value` to every
      element, front to back. The C++ loop binds each element to a `Complex&`,
      so this constructor exists for complex buffers only; a real buffer has no
      fill constructor.
     */
    constructor Filled(length: SizeT, value: T)
      ensures Valid() && storage != null && fresh(storage)
      ensures Size() == length
      ensures forall i :: 0 <= i < length ==> storage[i] == value
    {
      var elems := new T[length];
      this.length := length;
      storage := elems;
      new;
      var i: nat := 0;
      while i < length
        invariant this.length == length && storage == elems
        invariant i <= length == elems.Length
        invariant forall k :: 0 <= k < i ==> elems[k] == value
      {
        elems[i] := value;
        i := i + 1;
      }
    }

    /** `size()`: the length fixed at construction, the element count of the storage. */
    function Size(): (n: SizeT)
      reads this
      ensures Valid() && storage != null ==> n == storage.Length
    {
      length
    }

    /** `data()`: the storage, seen as logical elements; it holds `size()` of them. */
    function Data(): (p: array?<T>)
      reads this
      ensures Valid() && p != null ==> p.Length == Size()
    {
      storage
    }

    /** `unwrap()`: the storage, seen as the engine's element representation. */
    function Unwrap(): (p: array?<T>)
      reads this
      ensures p == Data()
    {
      storage
    }

    /** `begin()`: the first element. */
    function Begin(): (p: Pointer<T>)
      reads this
      ensures p.base == Data() && p.offset == 0
    {
      Pointer(Data(), 0)
    }

    /** `end()`: one past the last element. */
    function End(): (p: Pointer<T>)
      reads this
      ensures p.base == Begin().base
      ensures p.offset - Begin().offset == Size()
    {
      Pointer(Data(), length)
    }

    /** Reading `operator[](i)`; the index bound is the caller's duty. */
    method Get(i: SizeT) returns (x: T)
      requires Valid() && storage != null && i < length
      ensures x == Contents()[i]
    {
      x := storage[i];
    }

    /** Writing through `operator[](i)`: element `i` changes and nothing else does. */
    method Set(i: SizeT, x: T)
      requires Valid() && storage != null && i < length
      modifies storage
      ensures Valid() && Size() == old(Size())
      ensures Contents() == old(Contents())[i := x]
    {
      storage[i] := x;
    }

    /**
      The implicit move constructor: copies `length` and takes the storage; the
      source keeps its length and is left with null storage.
     */
    constructor Move(other: Buffer<T>)
      requires other.Valid()
      modifies other
      ensures Valid() && other.Valid()
      ensures length == old(other.length) && storage == old(other.storage)
      ensures other.length == old(other.length) && other.storage == null
    {
      length := other.length;
      storage := other.storage;
      new;
      other.storage := null;
    }

    /**
      The implicit move assignment: copies `length`, then moves the storage
      (the previous storage of the destination is freed). Moving a buffer into
      itself keeps its storage.
     */
    method MoveAssign(other: Buffer<T>)
      requires Valid() && other.Valid()
      modifies this, other
      ensures Valid() && other.Valid()
      ensures length == old(other.length) && storage == old(other.storage)
      ensures other != this ==> other.length == old(other.length) && other.storage == null
    {
      length := other.length;
      var taken := other.storage;
      other.storage := null;
      storage := taken;
    }
  }
}
