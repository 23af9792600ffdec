/** Reference-counted byte buffers and the bounds and normalisation rules of
    the script-visible `ByteArray` object.

    A buffer is a class with a fixed-size `array` of bytes and a reference
    count; `set_byte` writes it in place. Whether the C allocator succeeds
    is an input (`allocOk`). The script-level operations are pure functions
    on the byte contents returning a `Result`, and methods tie the buffers
    to them. */
module ByteArrays {
  import opened Common

  /** A refcounted byte buffer (`bytearray_t`). */
  class ByteArray {
    var refcount: int
    const buffer: array<Byte>
    const size: int
    /** Set once the count has dropped to zero and the memory was freed. */
    var released: bool

    ghost predicate Valid()
      reads this
    {
      buffer.Length == size && 0 <= size <= INT_MAX
    }

    /** The current contents. */
    function Bytes(): seq<Byte>
      reads this, buffer
    {
      buffer[..]
    }

    /** The zero-filled, once-referenced buffer of a successful creation. */
    constructor Zeroed(n: nat)
      requires n <= INT_MAX
      ensures Valid() && size == n && refcount == 1 && !released
      ensures Bytes() == Zeroes(n)
      ensures fresh(buffer)
    {
      refcount := 1;
      size := n;
      released := false;
      buffer := new Byte[n](_ => 0);
      new;
      assert buffer[..] == Zeroes(n);
    }

    /** `ref_bytearray`. */
    method Ref()
      modifies this`refcount
      ensures refcount == old(refcount) + 1
    {
      refcount := refcount + 1;
    }

    /** `get_byte`: callers check the index. */
    method GetByte(index: int) returns (b: Byte)
      requires Valid() && 0 <= index < size
      ensures b == Bytes()[index]
    {
      b := buffer[index];
    }

    /** `set_byte`: changes exactly one byte. */
    method SetByte(index: int, value: Byte)
      requires Valid() && 0 <= index < size
      modifies buffer
      ensures Bytes() == old(Bytes())[index := value]
    {
      buffer[index] := value;
    }
  }

  function Zeroes(n: nat): (z: seq<Byte>)
    ensures |z| == n && forall i :: 0 <= i < n ==> z[i] == 0
  {
    seq(n, _ => 0)
  }

  /** `new_bytearray(size)`: `calloc` fails for a negative size (it becomes
      a huge unsigned count) and when memory runs out. */
  method NewByteArray(size: int, allocOk: bool) returns (a: ByteArray?)
    ensures a != null <==> allocOk && 0 <= size <= INT_MAX
    ensures a != null ==>
      fresh(a) && fresh(a.buffer) && a.Valid() && a.size == size &&
      a.refcount == 1 && !a.released && a.Bytes() == Zeroes(size)
  {
    if !allocOk || size < 0 || size > INT_MAX {
      return null;
    }
    a := new ByteArray.Zeroed(size);
  }

  /** Copies `src[from..from + n]` into `dst[at..at + n]` (`memcpy`). */
  method CopyInto(dst: array<Byte>, at: nat, src: seq<Byte>, from: nat, n: nat)
    requires at + n <= dst.Length && from + n <= |src|
    modifies dst
    ensures dst[..at] == old(dst[..at])
    ensures dst[at..at + n] == src[from..from + n]
    ensures dst[at + n..] == old(dst[at + n..])
  {
    var k := 0;
    while k < n
      invariant 0 <= k <= n
      invariant dst[..at] == old(dst[..at])
      invariant dst[at..at + k] == src[from..from + k]
      invariant dst[at + n..] == old(dst[at + n..])
    {
      dst[at + k] := src[from + k];
      k := k + 1;
      assert dst[at..at + k] == dst[at..at + k - 1] + [dst[at + k - 1]];
      assert src[from..from + k] == src[from..from + k - 1] + [src[from + k - 1]];
    }
  }

  /** `bytearray_from_buffer`: a copy of exactly the given bytes. */
  method FromBuffer(bytes: seq<Byte>, allocOk: bool) returns (a: ByteArray?)
    requires |bytes| <= INT_MAX
    ensures a != null <==> allocOk
    ensures a != null ==> fresh(a) && a.Valid() && a.refcount == 1 && a.Bytes() == bytes
  {
    a := NewByteArray(|bytes|, allocOk);
    if a != null {
      CopyInto(a.buffer, 0, bytes, 0, |bytes|);
      assert a.buffer[..] == a.buffer[0..|bytes|];
      assert bytes == bytes[0..|bytes|];
    }
  }

  /** `bytearray_from_lstring`: a string longer than `INT_MAX` bytes gives
      NULL, otherwise a copy of its bytes. */
  method FromLString(s: seq<Byte>, allocOk: bool) returns (a: ByteArray?)
    ensures a != null <==> allocOk && |s| <= INT_MAX
    ensures a != null ==> fresh(a) && a.Valid() && a.refcount == 1 && a.Bytes() == s
  {
    if |s| > INT_MAX {
      return null;
    }
    a := FromBuffer(s, allocOk);
  }

  /** `free_bytearray`: NULL is ignored; otherwise one reference is dropped
      and the buffer is released when none remain. */
  method Free(a: ByteArray?)
    modifies if a == null then {} else {a}
    ensures a != null ==> a.refcount == old(a.refcount) - 1 && a.released == (old(a.released) || a.refcount <= 0)
  {
    if a == null {
      return;
    }
    a.refcount := a.refcount - 1;
    if a.refcount > 0 {
      return;
    }
    a.released := true;
  }

  /** The size `concat_bytearrays` computes in C `int` arithmetic. */
  function ConcatSizeAsWritten(size1: int, size2: int): int {
    Wrap32(size1 + size2)
  }

  /** `concat_bytearrays`: the first array's bytes then the second's; both
      inputs are left as they are. When the sizes sum past `INT_MAX` the
      size wraps negative and the allocation fails. */
  method ConcatByteArrays(a1: ByteArray, a2: ByteArray, allocOk: bool) returns (r: ByteArray?)
    requires a1.Valid() && a2.Valid()
    ensures r != null <==> allocOk && a1.size + a2.size <= INT_MAX
    ensures r != null ==> fresh(r) && r.Valid() && r.refcount == 1 && !r.released && r.Bytes() == a1.Bytes() + a2.Bytes()
  {
    var newSize := ConcatSizeAsWritten(a1.size, a2.size);
    r := NewByteArray(newSize, allocOk);
    if r != null {
      CopyInto(r.buffer, 0, a1.Bytes(), 0, a1.size);
      CopyInto(r.buffer, a1.size, a2.Bytes(), 0, a2.size);
      assert r.buffer[..] == r.buffer[..a1.size] + r.buffer[a1.size..a1.size + a2.size];
      assert a1.Bytes() == a1.Bytes()[0..a1.size] && a2.Bytes() == a2.Bytes()[0..a2.size];
    }
  }

  /** `slice_bytearray(array, start, length)`: the `length` bytes from
      `start`. The caller keeps the range inside the array; a negative length
      fails like any negative size. */
  method SliceByteArray(a: ByteArray, start: int, length: int, allocOk: bool) returns (r: ByteArray?)
    requires a.Valid()
    requires length < 0 || (0 <= start && start + length <= a.size)
    ensures r != null <==> allocOk && length >= 0
    ensures r != null ==>
      fresh(r) && r.Valid() && r.refcount == 1 && !r.released && r.Bytes() == a.Bytes()[start..start + length]
  {
    r := NewByteArray(length, allocOk);
    if r != null {
      CopyInto(r.buffer, 0, a.Bytes(), start, length);
      assert r.buffer[..] == r.buffer[0..length];
    }
  }

  // ---------------------------------------------------------------------
  // The script-visible ByteArray
  // ---------------------------------------------------------------------

  /** The value passed to `new ByteArray(...)`: a string (its bytes) or a
      number already converted to an integer. */
  datatype CtorArg = StringArg(bytes: seq<Byte>) | SizeArg(n: int)

  /** `new ByteArray(arg)`: a string's bytes are copied (RangeError past
      `INT_MAX` bytes), a size gives that many zero bytes (RangeError when
      negative); an allocation failure is a plain Error. */
  function NewContents(arg: CtorArg, allocOk: bool): (r: Result<seq<Byte>>)
    ensures arg.StringArg? && |arg.bytes| <= INT_MAX && allocOk ==> r == Ok(arg.bytes)
    ensures arg.SizeArg? && 0 <= arg.n <= INT_MAX && allocOk ==> r == Ok(Zeroes(arg.n))
    ensures r.Err? && r.error == RangeError <==>
      (arg.StringArg? && |arg.bytes| > INT_MAX) || (arg.SizeArg? && arg.n < 0)
  {
    match arg
    case StringArg(bytes) =>
      if |bytes| > INT_MAX then Err(RangeError)
      else if !allocOk then Err(Error)
      else Ok(bytes)
    case SizeArg(n) =>
      if n < 0 then Err(RangeError)
      else if n > INT_MAX || !allocOk then Err(Error)
      else Ok(Zeroes(n))
  }

  /** `js_new_ByteArray`. The script object holds the one reference left
      after the push (+1) and the constructor's own release (-1). */
  method JsNewByteArray(arg: CtorArg, allocOk: bool) returns (r: Result<ByteArray>)
    ensures r.Err? <==> NewContents(arg, allocOk).Err?
    ensures r.Err? ==> r.error == NewContents(arg, allocOk).error
    ensures r.Ok? ==>
      fresh(r.value) && r.value.Valid() && r.value.refcount == 1 &&
      r.value.Bytes() == NewContents(arg, allocOk).value
  {
    var a: ByteArray?;
    match arg {
      case StringArg(bytes) =>
        if |bytes| > INT_MAX {
          return Err(RangeError);
        }
        a := FromLString(bytes, allocOk);
      case SizeArg(n) =>
        if n < 0 {
          return Err(RangeError);
        }
        a := NewByteArray(n, allocOk);
    }
    if a == null {
      return Err(Error);
    }
    a.Ref();
    Free(a);
    r := Ok(a);
  }

  /** `duk_require_uint` on an integral number: clamped to `[0, 2^32 - 1]`. */
  function DukUint(v: int): (u: int)
    ensures 0 <= u <= 0xFFFF_FFFF
    ensures 0 <= v <= 0xFFFF_FFFF ==> u == v
  {
    if v < 0 then 0 else if v > 0xFFFF_FFFF then 0xFFFF_FFFF else v
  }

  /** The byte `set_byte` stores for a script value: the low 8 bits. */
  function StoredByte(v: int): Byte {
    DukUint(v) % 256
  }

  /** `array[index]` for a numeric index. */
  function GetProp(bytes: seq<Byte>, index: int): (r: Result<Byte>)
    ensures r.Ok? <==> 0 <= index < |bytes|
    ensures r.Ok? ==> r.value == bytes[index]
    ensures r.Err? ==> r.error == RangeError
  {
    if index < 0 || index >= |bytes| then Err(RangeError) else Ok(bytes[index])
  }

  /** `array[index] = value` for a numeric index: the new contents. */
  function SetProp(bytes: seq<Byte>, index: int, value: int): (r: Result<seq<Byte>>)
    ensures r.Ok? <==> 0 <= index < |bytes|
    ensures r.Ok? ==> |r.value| == |bytes|
    ensures r.Err? ==> r.error == RangeError
  {
    if index < 0 || index >= |bytes| then Err(RangeError) else Ok(bytes[index := StoredByte(value)])
  }

  /** A store followed by a load at the same index returns the stored byte,
      and leaves every other index as it was. */
  lemma SetThenGet(bytes: seq<Byte>, index: int, value: int, other: int)
    requires SetProp(bytes, index, value).Ok?
    ensures GetProp(SetProp(bytes, index, value).value, index) == Ok(StoredByte(value))
    ensures other != index ==> GetProp(SetProp(bytes, index, value).value, other) == GetProp(bytes, other)
  {
  }

  /** A byte value stores as itself. */
  lemma StoredByteOfByte(b: Byte)
    ensures StoredByte(b) == b
  {
  }

  /** `js_ByteArray_getProp` with a numeric key. */
  method JsGetProp(a: ByteArray, index: int) returns (r: Result<Byte>)
    requires a.Valid()
    ensures r == GetProp(a.Bytes(), index)
  {
    if index < 0 || index >= a.size {
      return Err(RangeError);
    }
    var b := a.GetByte(index);
    r := Ok(b);
  }

  /** `js_ByteArray_setProp` with a numeric key. */
  method JsSetProp(a: ByteArray, index: int, value: int) returns (r: Result<()>)
    requires a.Valid()
    modifies a.buffer
    ensures r.Ok? <==> SetProp(old(a.Bytes()), index, value).Ok?
    ensures r.Ok? ==> a.Bytes() == SetProp(old(a.Bytes()), index, value).value
    ensures r.Err? ==> r.error == RangeError && a.Bytes() == old(a.Bytes())
  {
    if index < 0 || index >= a.size {
      return Err(RangeError);
    }
    a.SetByte(index, StoredByte(value));
    r := Ok(());
  }

  /** `length`: the number of bytes the array holds. */
  function Length(a: ByteArray): (n: int)
    requires a.Valid()
    reads a, a.buffer
    ensures n == |a.Bytes()| && 0 <= n <= INT_MAX
  {
    a.size
  }

  /** The end `slice` uses: `INT_MAX` by default, counted from the size when
      negative, and capped at the size. */
  function NormalizeEnd(size: int, end: Option<int>): (e: int)
    requires 0 <= size <= INT_MAX
    ensures e <= size
    ensures end.None? ==> e == size
    ensures end.Some? && end.value >= 0 ==> e == (if end.value < size then end.value else size)
    ensures end.Some? && end.value < 0 ==> e == size + end.value
  {
    var raw := if end.None? then INT_MAX else end.value;
    var e0 := if raw >= 0 then raw else size + raw;
    if e0 < size then e0 else size
  }

  /** The bounds test `slice` applies as written: only the end is checked
      against the start, so a negative start is accepted. */
  predicate SliceAcceptsAsWritten(size: int, start: int, end: Option<int>)
    requires 0 <= size <= INT_MAX
  {
    var e := NormalizeEnd(size, end);
    !(e < start || e > size)
  }

  /** With four bytes, `slice(-2)` passes the test as written although the
      copy would begin two bytes before the buffer. */
  lemma SliceNegativeStartAccepted()
    ensures SliceAcceptsAsWritten(4, -2, None)
  {
  }

  /** `slice(start, end)`, with the start checked as well: the bytes from
      `start` up to the normalised end, or RangeError. */
  function Slice(bytes: seq<Byte>, start: int, end: Option<int>): (r: Result<seq<Byte>>)
    requires |bytes| <= INT_MAX
    ensures r.Ok? <==> 0 <= start <= NormalizeEnd(|bytes|, end)
    ensures r.Ok? ==> r.value == bytes[start..NormalizeEnd(|bytes|, end)]
    ensures r.Err? ==> r.error == RangeError
  {
    var e := NormalizeEnd(|bytes|, end);
    if start < 0 || e < start then Err(RangeError) else Ok(bytes[start..e])
  }

  /** Whenever the corrected slice succeeds, the test as written also passes,
      and it reads only bytes inside the buffer. */
  lemma SliceRefinesAsWritten(bytes: seq<Byte>, start: int, end: Option<int>)
    requires |bytes| <= INT_MAX && Slice(bytes, start, end).Ok?
    ensures SliceAcceptsAsWritten(|bytes|, start, end)
    ensures |Slice(bytes, start, end).value| == NormalizeEnd(|bytes|, end) - start
    ensures forall i :: 0 <= i < |Slice(bytes, start, end).value| ==>
      Slice(bytes, start, end).value[i] == bytes[start + i]
  {
  }

  /** Conversely, for a start that is not negative the test as written and
      the corrected one accept the same slices, so the two differ exactly on
      negative starts. */
  lemma SliceAsWrittenAgreesOnNonNegativeStart(bytes: seq<Byte>, start: int, end: Option<int>)
    requires |bytes| <= INT_MAX
    ensures Slice(bytes, start, end).Ok? <==> SliceAcceptsAsWritten(|bytes|, start, end) && start >= 0
  {
  }

  /** Slicing with no arguments past the start copies the array from there. */
  lemma SliceToEnd(bytes: seq<Byte>, start: int)
    requires 0 <= start <= |bytes| <= INT_MAX
    ensures Slice(bytes, start, None) == Ok(bytes[start..])
  {
    assert bytes[start..NormalizeEnd(|bytes|, None)] == bytes[start..];
  }

  /** `js_ByteArray_slice`, with the start bounds check. The push takes a
      reference and the function never drops its own, so the new array is
      left with two. */
  method JsSlice(a: ByteArray, start: int, end: Option<int>, allocOk: bool) returns (r: Result<ByteArray>)
    requires a.Valid()
    ensures r.Ok? <==> Slice(a.Bytes(), start, end).Ok? && allocOk
    ensures Slice(a.Bytes(), start, end).Err? ==> r == Err(RangeError)
    ensures Slice(a.Bytes(), start, end).Ok? && !allocOk ==> r == Err(Error)
    ensures r.Ok? ==>
      fresh(r.value) && r.value.Valid() && r.value.refcount == 2 && !r.value.released &&
      r.value.Bytes() == Slice(a.Bytes(), start, end).value
  {
    var e := NormalizeEnd(a.size, end);
    if start < 0 || e < start || e > a.size {
      return Err(RangeError);
    }
    var s := SliceByteArray(a, start, e - start, allocOk);
    if s == null {
      return Err(Error);
    }
    s.Ref();
    r := Ok(s);
  }

  /** `slice` releasing its own reference after the push, as
      `js_new_ByteArray` does: the script object then holds the only one. */
  method JsSliceOwned(a: ByteArray, start: int, end: Option<int>, allocOk: bool) returns (r: Result<ByteArray>)
    requires a.Valid()
    ensures r.Ok? <==> Slice(a.Bytes(), start, end).Ok? && allocOk
    ensures r.Err? ==> r == Err(if Slice(a.Bytes(), start, end).Err? then RangeError else Error)
    ensures r.Ok? ==>
      fresh(r.value) && r.value.Valid() && r.value.refcount == 1 && !r.value.released &&
      r.value.Bytes() == Slice(a.Bytes(), start, end).value
  {
    r := JsSlice(a, start, end, allocOk);
    if r.Ok? {
      Free(r.value);
    }
  }

  /** The outcome of `concat` as written: the `INT_MAX` test sums in C `int`,
      so it never fires, and an oversize result surfaces as the allocation
      failure (a plain Error) instead. */
  function ConcatAsWritten(b1: seq<Byte>, b2: seq<Byte>, allocOk: bool): Result<seq<Byte>>
    requires |b1| <= INT_MAX && |b2| <= INT_MAX
  {
    if ConcatSizeAsWritten(|b1|, |b2|) > INT_MAX then Err(RangeError)
    else if ConcatSizeAsWritten(|b1|, |b2|) < 0 || !allocOk then Err(Error)
    else Ok(b1 + b2)
  }

  /** The range test as written never fires: for all sizes the call gives no
      RangeError, and past `INT_MAX` bytes it reports an allocation failure
      instead, since the wrapped size is negative. */
  lemma ConcatGuardVacuous(b1: seq<Byte>, b2: seq<Byte>, allocOk: bool)
    requires |b1| <= INT_MAX && |b2| <= INT_MAX
    ensures ConcatAsWritten(b1, b2, allocOk) != Err(RangeError)
    ensures |b1| + |b2| > INT_MAX ==> ConcatAsWritten(b1, b2, allocOk) == Err(Error)
  {
    if |b1| + |b2| > INT_MAX {
      assert ConcatSizeAsWritten(|b1|, |b2|) == |b1| + |b2| - 0x1_0000_0000;
    }
  }

  /** `concat` with the size test done without overflow: RangeError past
      `INT_MAX` bytes, otherwise the two byte strings one after the other. */
  function Concat(b1: seq<Byte>, b2: seq<Byte>, allocOk: bool): (r: Result<seq<Byte>>)
    ensures r.Err? && r.error == RangeError <==> |b1| + |b2| > INT_MAX
    ensures r.Ok? <==> |b1| + |b2| <= INT_MAX && allocOk
    ensures r.Ok? ==> |r.value| == |b1| + |b2| && r.value[..|b1|] == b1 && r.value[|b1|..] == b2
  {
    if |b1| + |b2| > INT_MAX then Err(RangeError)
    else if !allocOk then Err(Error)
    else Ok(b1 + b2)
  }

  /** Where no sizes overflow, the corrected and as-written concat agree. */
  lemma ConcatAgreesWithoutOverflow(b1: seq<Byte>, b2: seq<Byte>, allocOk: bool)
    requires |b1| + |b2| <= INT_MAX
    ensures ConcatAsWritten(b1, b2, allocOk) == Concat(b1, b2, allocOk)
  {
  }

  /** `js_ByteArray_concat`, with the corrected size test: past `INT_MAX`
      bytes it raises RangeError where the code as written raises Error. */
  method JsConcat(a1: ByteArray, a2: ByteArray, allocOk: bool) returns (r: Result<ByteArray>)
    requires a1.Valid() && a2.Valid()
    ensures r.Err? <==> Concat(a1.Bytes(), a2.Bytes(), allocOk).Err?
    ensures r.Err? ==> r.error == Concat(a1.Bytes(), a2.Bytes(), allocOk).error
    ensures r.Ok? ==>
      fresh(r.value) && r.value.Valid() && r.value.refcount == 2 && !r.value.released &&
      r.value.Bytes() == Concat(a1.Bytes(), a2.Bytes(), allocOk).value
  {
    if a1.size + a2.size > INT_MAX {
      return Err(RangeError);
    }
    var c := ConcatByteArrays(a1, a2, allocOk);
    if c == null {
      return Err(Error);
    }
    c.Ref();
    r := Ok(c);
  }

  /** `concat` releasing its own reference after the push, as
      `js_new_ByteArray` does: the script object then holds the only one. */
  method JsConcatOwned(a1: ByteArray, a2: ByteArray, allocOk: bool) returns (r: Result<ByteArray>)
    requires a1.Valid() && a2.Valid()
    ensures r.Err? <==> Concat(a1.Bytes(), a2.Bytes(), allocOk).Err?
    ensures r.Err? ==> r.error == Concat(a1.Bytes(), a2.Bytes(), allocOk).error
    ensures r.Ok? ==>
      fresh(r.value) && r.value.Valid() && r.value.refcount == 1 && !r.value.released &&
      r.value.Bytes() == Concat(a1.Bytes(), a2.Bytes(), allocOk).value
  {
    r := JsConcat(a1, a2, allocOk);
    if r.Ok? {
      Free(r.value);
    }
  }

  /** `js_ByteArray_finalize`: the script object's reference is dropped. */
  method Finalize(a: ByteArray)
    modifies a
    ensures a.refcount == old(a.refcount) - 1
    ensures a.released == (old(a.released) || a.refcount <= 0)
  {
    Free(a);
  }

  /** A concatenation as written outlives its script object: once the
      finalizer has run, one reference is still held and the buffer is
      never released. */
  method ConcatLeaksAfterFinalize(a1: ByteArray, a2: ByteArray) returns (c: ByteArray)
    requires a1.Valid() && a2.Valid() && a1.size + a2.size <= INT_MAX
    ensures c.refcount == 1 && !c.released
  {
    var r := JsConcat(a1, a2, true);
    c := r.value;
    Finalize(c);
  }

  /** With the release after the push, the finalizer frees the buffer. */
  method OwnedConcatFreedByFinalize(a1: ByteArray, a2: ByteArray) returns (c: ByteArray)
    requires a1.Valid() && a2.Valid() && a1.size + a2.size <= INT_MAX
    ensures c.refcount == 0 && c.released
  {
    var r := JsConcatOwned(a1, a2, true);
    c := r.value;
    Finalize(c);
  }

  /** `CreateStringFromByteArray`: the string of exactly the array's bytes. */
  method JsCreateStringFromByteArray(a: ByteArray) returns (s: seq<Byte>)
    requires a.Valid()
    ensures s == a.Bytes() && |s| == a.size
  {
    s := a.buffer[..];
  }
}
