/**
 Helpers of the SYCL device backend: the work-grid rounding of
 get_sycl_nd_range and the element-type dispatch of SYCLmemcpy.
 The device's maximum work-item width is a parameter; the copy itself is
 described by the word type and byte count it would use.
 */
module SyclUtil {
  import opened Arithmetic

  datatype Option<T> = None | Some(value: T)

  // ---------------------------------------------------------------------------
  // Work-grid rounding

  /** A one-dimensional nd_range: global size and local (work-group) size. */
  datatype NdRange1 = NdRange1(globalSize: nat, localSize: nat)

  /** A two-dimensional nd_range. */
  datatype NdRange2 = NdRange2(global0: nat, global1: nat, local0: nat, local1: nat)

  /** Work-group size: the item count capped by the device's maximum width. */
  function GroupSize(nbItems: nat, maxWidth: nat): (g: nat)
    ensures g <= nbItems && g <= maxWidth
    ensures g == nbItems || g == maxWidth
  {
    if maxWidth < nbItems then maxWidth else nbItems
  }

  /** Number of work groups: the item count divided by the group size, rounded up. */
  function GroupCount(nbItems: nat, groupSize: nat): (c: nat)
    requires 0 < groupSize
    ensures nbItems <= c * groupSize < nbItems + groupSize
  {
    var q := (nbItems + groupSize - 1) / groupSize;
    assert q * groupSize + (nbItems + groupSize - 1) % groupSize == nbItems + groupSize - 1;
    q
  }

  /** A whole number of groups is a multiple of the group size. */
  lemma WholeGroups(count: nat, groupSize: nat)
    requires 0 < groupSize
    ensures (count * groupSize) % groupSize == 0
  {
    var x := count * groupSize;
    var d := count - x / groupSize;
    assert d * groupSize == x % groupSize;
    if d > 0 {
      MulLeRight(1, d, groupSize);
      assert false;
    } else if d < 0 {
      MulLeRight(d, -1, groupSize);
      assert false;
    }
  }

  /** The one-dimensional get_sycl_nd_range: the global range is the item count
      rounded up to a whole number of groups. */
  function NdRange1D(items: nat, maxWidth: nat): (r: NdRange1)
    requires 0 < items && 0 < maxWidth
    ensures 0 < r.localSize <= maxWidth && r.localSize <= items
    ensures r.localSize == items || r.localSize == maxWidth
    ensures r.globalSize % r.localSize == 0
    ensures items <= r.globalSize < items + r.localSize
  {
    var groupSize := GroupSize(items, maxWidth);
    var groupCount := GroupCount(items, groupSize);
    WholeGroups(groupCount, groupSize);
    NdRange1(groupCount * groupSize, groupSize)
  }

  /** The two-dimensional get_sycl_nd_range: the first dimension is rounded as in
      the one-dimensional case, the second is passed through with local size 1. */
  function NdRange2D(itemDim0: nat, itemDim1: nat, maxWidth: nat): (r: NdRange2)
    requires 0 < itemDim0 && 0 < maxWidth
    ensures 0 < r.local0 <= maxWidth && r.local0 <= itemDim0
    ensures r.local0 == itemDim0 || r.local0 == maxWidth
    ensures r.global0 % r.local0 == 0
    ensures itemDim0 <= r.global0 < itemDim0 + r.local0
    ensures r.global1 == itemDim1 && r.local1 == 1
  {
    var groupSize := GroupSize(itemDim0, maxWidth);
    var groupCount := GroupCount(itemDim0, groupSize);
    WholeGroups(groupCount, groupSize);
    NdRange2(groupCount * groupSize, itemDim1, groupSize, 1)
  }

  // ---------------------------------------------------------------------------
  // Copy-word dispatch of SYCLmemcpy

  /** TensorFlow's element types (the DataType enumeration). */
  datatype DataType =
    | Invalid | Float | Double | Int32 | UInt8 | Int16 | Int8 | String | Complex64
    | Int64 | Bool | QInt8 | QUInt8 | QInt32 | BFloat16 | QInt16 | QUInt16 | UInt16
    | Complex128 | Half | Resource | Variant | UInt32 | UInt64

  /** The word types the copy is issued with: cl_ulong2, cl_ulong, cl_uint,
      cl_ushort, bool and cl_uchar. */
  datatype CopyWord = ULong2 | ULong | UInt | UShort | BoolWord | UChar

  /** Size in bytes of one copy word. */
  function WordBytes(w: CopyWord): (n: nat)
  {
    match w
    case ULong2 => 16
    case ULong => 8
    case UInt => 4
    case UShort => 2
    case BoolWord => 1
    case UChar => 1
  }

  /** Size in bytes of one element of a fixed-size element type; None for the
      types whose elements are not plain values (strings, resources, variants)
      and for the invalid type. */
  function ElementBytes(dt: DataType): (n: Option<nat>)
  {
    match dt
    case Invalid => None
    case String => None
    case Resource => None
    case Variant => None
    case Float => Some(4)
    case Double => Some(8)
    case Int32 => Some(4)
    case UInt8 => Some(1)
    case Int16 => Some(2)
    case Int8 => Some(1)
    case Complex64 => Some(8)
    case Int64 => Some(8)
    case Bool => Some(1)
    case QInt8 => Some(1)
    case QUInt8 => Some(1)
    case QInt32 => Some(4)
    case BFloat16 => Some(2)
    case QInt16 => Some(2)
    case QUInt16 => Some(2)
    case UInt16 => Some(2)
    case Complex128 => Some(16)
    case Half => Some(2)
    case UInt32 => Some(4)
    case UInt64 => Some(8)
  }

  /** The dtype switch of SYCLmemcpy. Every word it picks is exactly as wide as
      one element; it covers every fixed-size type except the unsigned 32- and
      64-bit ones, which fall to the fatal default. */
  function CopyWordFor(dt: DataType): (w: Option<CopyWord>)
    ensures w.Some? ==> ElementBytes(dt) == Some(WordBytes(w.value))
    ensures w.None? <==> ElementBytes(dt).None? || dt == UInt32 || dt == UInt64
  {
    match dt
    case Complex128 => Some(ULong2)
    case Double | Complex64 | Int64 => Some(ULong)
    case Float | Int32 | QInt32 => Some(UInt)
    case Int16 | UInt16 | BFloat16 | QInt16 | QUInt16 | Half => Some(UShort)
    case Bool => Some(BoolWord)
    case UInt8 | Int8 | QInt8 | QUInt8 => Some(UChar)
    case _ => None
  }

  /** What SYCLmemcpy needs to know of the source tensor. */
  datatype TensorDesc = TensorDesc(dtype: DataType, totalBytes: nat)

  /** The copy SYCLmemcpy issues: a word type and a byte count, or the fatal
      error for an element type it does not know. */
  datatype CopyOutcome = Copied(word: CopyWord, bytes: nat) | Fatal(dtype: DataType)

  /** SYCLmemcpy: the byte count is always the source's total byte count, and
      the word is as wide as one source element. */
  function SyclMemcpy(src: TensorDesc): (r: CopyOutcome)
    ensures r.Copied? ==> r.bytes == src.totalBytes
    ensures r.Copied? ==> ElementBytes(src.dtype) == Some(WordBytes(r.word))
    ensures r.Fatal? <==> CopyWordFor(src.dtype).None?
    ensures r.Fatal? ==> r.dtype == src.dtype
  {
    match CopyWordFor(src.dtype)
    case Some(w) => Copied(w, src.totalBytes)
    case None => Fatal(src.dtype)
  }
}
