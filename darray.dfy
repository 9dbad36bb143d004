/**
 * The engine's growable array. In C the array is a block of elements preceded
 * by a three-word header (capacity, length, stride); here the header words are
 * fields of a class and the element block is an `array<T>` whose length is the
 * capacity. Push and InsertAt may reallocate the block (Resize), exactly as the
 * C functions return a possibly different pointer.
 */
module DArray {
  import opened Defines

  /** DARRAY_DEFAULT_CAPACITY: the capacity `DArrayCreate(type)` starts with. */
  const DefaultCapacity: nat := 1
  /** DARRAY_RESIZE_FACTOR: growth multiplies the capacity by this. */
  const ResizeFactor: nat := 2
  /** DARRAY_FIELD_LENGTH: number of header words before the elements. */
  const FieldCount: nat := 3

  /** The header words, in their layout order DARRAY_CAPACITY, DARRAY_LENGTH, DARRAY_STRIDE. */
  datatype Field = CapacityField | LengthField | StrideField

  function FieldIndex(f: Field): (i: nat)
    ensures i < FieldCount
  {
    match f
    case CapacityField => 0
    case LengthField => 1
    case StrideField => 2
  }

  /** `s` with the element at `i` snipped out, the rest kept in order. */
  function Removed<T>(s: seq<T>, i: nat): (r: seq<T>)
    requires i < |s|
    ensures |r| == |s| - 1
    ensures forall k :: 0 <= k < i ==> r[k] == s[k]
    ensures forall k :: i <= k < |r| ==> r[k] == s[k + 1]
  {
    s[..i] + s[i + 1..]
  }

  /** `s` with `v` placed at `i` and everything from `i` on moved one place outward. */
  function Inserted<T>(s: seq<T>, i: nat, v: T): (r: seq<T>)
    requires i <= |s|
    ensures |r| == |s| + 1 && r[i] == v
    ensures forall k :: 0 <= k < i ==> r[k] == s[k]
    ensures forall k :: i < k < |r| ==> r[k] == s[k - 1]
  {
    s[..i] + [v] + s[i..]
  }

  /** Removing what was inserted gives back the original sequence. */
  lemma RemovedInserted<T>(s: seq<T>, i: nat, v: T)
    requires i <= |s|
    ensures Removed(Inserted(s, i, v), i) == s
  {
    var r := Removed(Inserted(s, i, v), i);
    assert |r| == |s|;
    assert forall k :: 0 <= k < |s| ==> r[k] == s[k];
  }

  /**
   * What `_DArrayInsertAt` leaves as the logical contents when `index` is the
   * last index: the shift is skipped, so `v` overwrites the old last element
   * and the slot just past the old end (`stale`) becomes the new last element.
   */
  function InsertAtLastAsWritten<T>(s: seq<T>, v: T, stale: T): (r: seq<T>)
    requires |s| > 0
    ensures |r| == |s| + 1 && r[|s| - 1] == v && r[|s|] == stale
    ensures r[..|s| - 1] == s[..|s| - 1]
  {
    s[..|s| - 1] + [v] + [stale]
  }

  /** The as-written last-index insert loses the old last element whenever the stale slot differs from it. */
  lemma InsertAtLastDiffers<T>(s: seq<T>, v: T, stale: T)
    requires |s| > 0 && stale != s[|s| - 1]
    ensures InsertAtLastAsWritten(s, v, stale) != Inserted(s, |s| - 1, v)
  {
    var r := InsertAtLastAsWritten(s, v, stale);
    assert r[|s|] != Inserted(s, |s| - 1, v)[|s|];
  }

  /**
   * A block whose slots below `index` are kept, whose slot `index` holds `v`
   * and whose slots `index + 1 .. len` hold the old `index .. len - 1` has the
   * old first `len` elements with `v` inserted at `index` as its first
   * `len + 1` elements.
   */
  lemma ShiftedWriteIsInserted<T>(before: seq<T>, after: seq<T>, index: nat, len: nat, v: T)
    requires index <= len < |before| == |after|
    requires forall k :: 0 <= k < index ==> after[k] == before[k]
    requires after[index] == v
    requires forall k :: index < k <= len ==> after[k] == before[k - 1]
    ensures after[..len + 1] == Inserted(before[..len], index, v)
  {
  }

  class DynArray<T> {
    /** The element block; its length is the allocated capacity. */
    var data: array<T>
    var capacity: nat
    var length: nat
    /** Element size in bytes; carried along but never used for layout here. */
    var stride: nat
    /** The all-zero bit pattern of T, which TSetMemory writes into a fresh block. */
    const zero: T

    ghost predicate Valid()
      reads this
    {
      capacity == data.Length && length <= capacity
    }

    /** The logical contents: the first `length` elements of the block. */
    function Contents(): seq<T>
      reads this, data
      requires Valid()
    {
      data[..length]
    }

    /** `_DArrayCreate(capacity, stride)`, also `DArrayReserve(type, capacity)`. */
    constructor Create(capacity: nat, stride: nat, zero: T)
      ensures Valid() && fresh(data)
      ensures this.capacity == capacity && length == 0 && this.stride == stride && this.zero == zero
      ensures data[..] == seq(capacity, _ => zero)
      ensures Contents() == []
    {
      data := new T[capacity](_ => zero);
      this.capacity := capacity;
      length := 0;
      this.stride := stride;
      this.zero := zero;
    }

    /** `DArrayCreate(type)`: a reservation of DARRAY_DEFAULT_CAPACITY elements. */
    constructor CreateDefault(stride: nat, zero: T)
      ensures Valid() && fresh(data)
      ensures capacity == DefaultCapacity && length == 0 && this.stride == stride && this.zero == zero
      ensures data[..] == [zero]
      ensures Contents() == []
    {
      data := new T[DefaultCapacity](_ => zero);
      capacity := DefaultCapacity;
      length := 0;
      this.stride := stride;
      this.zero := zero;
    }

    /** `_DArrayFieldGet`: the header word at the field's slot, behind the length/capacity/stride accessor macros. */
    function FieldGet(f: Field): nat
      reads this
    {
      [capacity, length, stride][FieldIndex(f)]
    }

    /** `_DArrayFieldSet`: overwrite one header word and nothing else. */
    method FieldSet(f: Field, value: nat)
      modifies this
      ensures FieldGet(f) == value
      ensures forall g :: g != f ==> FieldGet(g) == old(FieldGet(g))
      ensures data == old(data)
    {
      match f
      case CapacityField => capacity := value;
      case LengthField => length := value;
      case StrideField => stride := value;
    }

    /** `DArrayClear`: length becomes 0, capacity, stride and the block stay. */
    method Clear()
      requires Valid()
      modifies this
      ensures Valid() && Contents() == []
      ensures capacity == old(capacity) && stride == old(stride) && data == old(data)
    {
      FieldSet(LengthField, 0);
      assert FieldGet(CapacityField) == old(FieldGet(CapacityField));
      assert FieldGet(StrideField) == old(FieldGet(StrideField));
    }

    /**
     * `_DArrayResize`: a fresh zeroed block of ResizeFactor times the capacity,
     * the first `length` elements copied over, the length kept.
     */
    method Resize()
      requires Valid()
      modifies this
      ensures Valid() && fresh(data)
      ensures capacity == ResizeFactor * old(capacity)
      ensures length == old(length) && stride == old(stride)
      ensures Contents() == old(Contents())
      ensures forall k :: length <= k < capacity ==> data[k] == zero
    {
      var temp := new T[ResizeFactor * capacity](_ => zero);
      var i := 0;
      while i < length
        invariant data == old(data) && length == old(length) && capacity == old(capacity)
        invariant stride == old(stride)
        invariant 0 <= i <= length
        invariant forall k :: 0 <= k < i ==> temp[k] == data[k]
        invariant forall k :: i <= k < temp.Length ==> temp[k] == zero
      {
        temp[i] := data[i];
        i := i + 1;
      }
      data := temp;
      capacity := ResizeFactor * capacity;
    }

    /**
     * `_DArrayPush`. A zero-capacity array would still have capacity zero
     * after the resize and the write would fall outside the block, so the
     * caller must not push into one.
     */
    method Push(value: T)
      requires Valid() && capacity > 0
      modifies this, data
      ensures Valid() && stride == old(stride)
      ensures Contents() == old(Contents()) + [value]
      ensures capacity == if old(length) >= old(capacity) then ResizeFactor * old(capacity) else old(capacity)
      ensures old(length) < old(capacity) ==> data == old(data)
    {
      if length >= capacity {
        Resize();
      }
      data[length] := value;
      length := length + 1;
    }

    /** `_DArrayPop`: there is no bounds check in C, so the array must not be empty. */
    method Pop() returns (value: T)
      requires Valid() && length > 0
      modifies this`length
      ensures Valid()
      ensures value == old(Contents())[old(length) - 1]
      ensures Contents() == old(Contents())[..old(length) - 1]
    {
      value := data[length - 1];
      length := length - 1;
    }

    /** Move the elements at `from + 1 .. length - 1` one place down. */
    method ShiftDown(from: nat)
      requires Valid() && from < length
      modifies data
      ensures forall k :: 0 <= k < from ==> data[k] == old(data[k])
      ensures forall k :: from <= k < length - 1 ==> data[k] == old(data[k + 1])
      ensures forall k :: length - 1 <= k < data.Length ==> data[k] == old(data[k])
    {
      var i := from;
      while i < length - 1
        invariant from <= i <= length - 1
        invariant forall k :: 0 <= k < from ==> data[k] == old(data[k])
        invariant forall k :: from <= k < i ==> data[k] == old(data[k + 1])
        invariant forall k :: i <= k < data.Length ==> data[k] == old(data[k])
      {
        data[i] := data[i + 1];
        i := i + 1;
      }
    }

    /** Move the elements at `from .. length - 1` one place up; needs a free slot at `length`. */
    method ShiftUp(from: nat)
      requires Valid() && from <= length < capacity
      modifies data
      ensures forall k :: 0 <= k <= from ==> data[k] == old(data[k])
      ensures forall k :: from < k <= length ==> data[k] == old(data[k - 1])
      ensures forall k :: length < k < data.Length ==> data[k] == old(data[k])
    {
      var i := length;
      while i > from
        invariant from <= i <= length
        invariant forall k :: 0 <= k <= i ==> data[k] == old(data[k])
        invariant forall k :: i < k <= length ==> data[k] == old(data[k - 1])
        invariant forall k :: length < k < data.Length ==> data[k] == old(data[k])
      {
        data[i] := data[i - 1];
        i := i - 1;
      }
    }

    /**
     * `_DArrayPopAt`: an index outside the array is reported and nothing
     * changes; otherwise the element is returned and the rest close up in order.
     */
    method PopAt(index: nat) returns (popped: Option<T>)
      requires Valid()
      modifies this`length, data
      ensures Valid()
      ensures index >= old(length) ==> popped == None && length == old(length) && data[..] == old(data[..])
      ensures index < old(length) ==> popped == Some(old(Contents())[index])
      ensures index < old(length) ==> Contents() == Removed(old(Contents()), index)
    {
      if index >= length {
        return None;
      }
      popped := Some(data[index]);
      ghost var before := Contents();
      if index != length - 1 {
        ShiftDown(index);
      }
      length := length - 1;
      assert Contents() == Removed(before, index);
    }

    /**
     * `_DArrayInsertAt` as written. An index at or past the end (so also any
     * insert into an empty array) is reported and nothing changes. At
     * `length - 1` the shift is skipped: the old last element is overwritten
     * and the slot past the old end becomes visible.
     */
    method InsertAt(index: nat, value: T)
      requires Valid()
      modifies this, data
      ensures Valid() && stride == old(stride)
      ensures index >= old(length) ==> length == old(length) && capacity == old(capacity) && data == old(data)
      ensures index >= old(length) ==> data[..] == old(data[..])
      ensures index < old(length) ==> length == old(length) + 1
      ensures index < old(length) ==>
        capacity == if old(length) >= old(capacity) then ResizeFactor * old(capacity) else old(capacity)
      ensures index + 1 < old(length) ==> Contents() == Inserted(old(Contents()), index, value)
      ensures index + 1 == old(length) < old(capacity) ==>
        Contents() == InsertAtLastAsWritten(old(Contents()), value, old(data[length]))
      ensures index + 1 == old(length) == old(capacity) ==>
        Contents() == InsertAtLastAsWritten(old(Contents()), value, zero)
    {
      if index >= length {
        return;
      }
      if length >= capacity {
        Resize();
      }
      ghost var before := data[..];
      if index != length - 1 {
        ShiftUp(index);
        data[index] := value;
        ShiftedWriteIsInserted(before, data[..], index, length, value);
      } else {
        data[index] := value;
        assert data[..length + 1] == InsertAtLastAsWritten(before[..length], value, before[length]);
      }
      length := length + 1;
    }

    /** The insert `_DArrayInsertAt` evidently intends: the shift is done at every index. */
    method InsertAtShifted(index: nat, value: T)
      requires Valid()
      modifies this, data
      ensures Valid() && stride == old(stride)
      ensures index >= old(length) ==> length == old(length) && capacity == old(capacity) && data == old(data)
      ensures index >= old(length) ==> data[..] == old(data[..])
      ensures index < old(length) ==> Contents() == Inserted(old(Contents()), index, value)
      ensures index < old(length) ==>
        capacity == if old(length) >= old(capacity) then ResizeFactor * old(capacity) else old(capacity)
    {
      if index >= length {
        return;
      }
      if length >= capacity {
        Resize();
      }
      ghost var before := data[..];
      ShiftUp(index);
      data[index] := value;
      ShiftedWriteIsInserted(before, data[..], index, length, value);
      length := length + 1;
    }
  }
}
