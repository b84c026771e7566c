/**
 The byte layout of the Mumble Link record `LinkedMem`, as ctypes lays out the
 `Structure` declared in both writers: thirteen fields in a fixed order, each
 placed at the next multiple of its element's alignment, the whole rounded up
 to the largest alignment.  The width of `c_wchar` (the platform's `wchar_t`)
 is a parameter.
 */
module Layout {

  /** The thirteen fields of `LinkedMem`, named after the ctypes declaration. */
  datatype Field =
    | UiVersion | UiTick
    | AvatarPosition | AvatarFront | AvatarTop
    | Name
    | CameraPosition | CameraFront | CameraTop
    | Identity
    | ContextLen | Context
    | Description
  {
    /** One of the six `c_float * 3` vectors. */
    predicate IsVector() {
      AvatarPosition? || AvatarFront? || AvatarTop? ||
      CameraPosition? || CameraFront? || CameraTop?
    }
  }

  /** The ctypes element types the record uses. */
  datatype CType = UInt32 | Float | WChar | UByte

  /** The field declared in position `i`. */
  function FieldAt(i: nat): Field
    requires i < NumFields
  {
    match i
    case 0 => UiVersion
    case 1 => UiTick
    case 2 => AvatarPosition
    case 3 => AvatarFront
    case 4 => AvatarTop
    case 5 => Name
    case 6 => CameraPosition
    case 7 => CameraFront
    case 8 => CameraTop
    case 9 => Identity
    case 10 => ContextLen
    case 11 => Context
    case _ => Description
  }

  /** How many fields the record declares. */
  const NumFields := 13

  function ElementType(f: Field): CType {
    match f
    case UiVersion | UiTick | ContextLen => UInt32
    case Name | Identity | Description => WChar
    case Context => UByte
    case _ => Float
  }

  /** Number of elements of each field: 1 for a scalar, the array length otherwise. */
  function Count(f: Field): nat {
    match f
    case UiVersion | UiTick | ContextLen => 1
    case Name | Identity => 256
    case Context => 256
    case Description => 2048
    case _ => 3
  }

  /** Width in bytes of ctypes' `c_wchar`: 2 where `wchar_t` is UTF-16, 4 where it is UTF-32. */
  type WcharWidth = w: nat | w == 2 || w == 4 witness 4

  /** Size of one element; every ctypes scalar is aligned to its own size. */
  function ElementSize(t: CType, w: WcharWidth): nat {
    match t
    case UInt32 => 4
    case Float => 4
    case WChar => w
    case UByte => 1
  }

  /** The alignment ctypes gives a field: that of its element type. */
  function Alignment(f: Field, w: WcharWidth): (a: nat)
    ensures a == 1 || a == 2 || a == 4
  {
    ElementSize(ElementType(f), w)
  }

  /** Bytes taken by a field: its element size times its element count. */
  function FieldSize(f: Field, w: WcharWidth): (n: nat)
    ensures n == ElementSize(ElementType(f), w) * Count(f)
  {
    match f
    case UiVersion | UiTick | ContextLen => 4
    case Name | Identity => 256 * w
    case Context => 256
    case Description => 2048 * w
    case _ => 12
  }

  /** The least multiple of `a` that is at least `off`. */
  function AlignUp(off: nat, a: nat): nat
    requires a > 0
  {
    if off % a == 0 then off else off + (a - off % a)
  }

  /**
   ctypes' walk over the declaration from field `i` on, with the fields before
   it ending at `off`: each field is aligned and then laid down; the result is
   where the last one ends.
   */
  function EndFrom(i: nat, off: nat, w: WcharWidth): nat
    requires i <= NumFields
    decreases NumFields - i
  {
    if i == NumFields then off
    else EndFrom(i + 1, AlignUp(off, Alignment(FieldAt(i), w)) + FieldSize(FieldAt(i), w), w)
  }

  /** The same walk, stopped at field `f`: where ctypes places `f`. */
  function StartFrom(i: nat, off: nat, f: Field, w: WcharWidth): (r: nat)
    requires i <= NumFields
    decreases NumFields - i
  {
    if i == NumFields then off
    else
      var start := AlignUp(off, Alignment(FieldAt(i), w));
      if FieldAt(i) == f then start else StartFrom(i + 1, start + FieldSize(FieldAt(i), w), f, w)
  }

  /** The largest alignment among the fields from `i` on: the alignment of the record. */
  function AlignmentFrom(i: nat, w: WcharWidth): (a: nat)
    requires i <= NumFields
    ensures a > 0
    decreases NumFields - i
  {
    if i == NumFields then 1
    else
      var here, rest := Alignment(FieldAt(i), w), AlignmentFrom(i + 1, w);
      if here < rest then rest else here
  }

  /** `sizeof(LinkedMem)`: the value both writers compare the mapped size with. */
  function SizeOf(w: WcharWidth): (n: nat)
    ensures n == PackedSize(w)
  {
    assert AlignUp(EndFrom(0, 0, w), AlignmentFrom(0, w)) == PackedSize(w) by {
      EndOfFields(w);
      RecordAlignment(0, w);
      NoTailPadding(w);
    }
    AlignUp(EndFrom(0, 0, w), AlignmentFrom(0, w))
  }

  /** The offset of field `f` in the record. */
  function OffsetOf(f: Field, w: WcharWidth): (r: nat)
    ensures r == PackedOffset(IndexOf(f), w)
    ensures r % Alignment(f, w) == 0
  {
    StartFromPacked(0, f, w);
    PackedStep(IndexOf(f), w);
    StartFrom(0, 0, f, w)
  }

  /** The position of field `f` in the declaration order. */
  function IndexOf(f: Field): (i: nat)
    ensures i < NumFields && FieldAt(i) == f
  {
    match f
    case UiVersion => 0
    case UiTick => 1
    case AvatarPosition => 2
    case AvatarFront => 3
    case AvatarTop => 4
    case Name => 5
    case CameraPosition => 6
    case CameraFront => 7
    case CameraTop => 8
    case Identity => 9
    case ContextLen => 10
    case Context => 11
    case Description => 12
  }

  /** The sum of the sizes of the fields from `i` on, with no padding anywhere. */
  function SumOfSizes(i: nat, w: WcharWidth): nat
    requires i <= NumFields
    decreases NumFields - i
  {
    if i == NumFields then 0 else FieldSize(FieldAt(i), w) + SumOfSizes(i + 1, w)
  }

  /** Where field `i` starts when the fields are laid end to end; `i == NumFields` is the end. */
  function PackedOffset(i: nat, w: WcharWidth): nat
    requires i <= NumFields
  {
    match i
    case 0 => 0
    case 1 => 4
    case 2 => 8
    case 3 => 20
    case 4 => 32
    case 5 => 44
    case 6 => 44 + 256 * w
    case 7 => 56 + 256 * w
    case 8 => 68 + 256 * w
    case 9 => 80 + 256 * w
    case 10 => 80 + 512 * w
    case 11 => 84 + 512 * w
    case 12 => 340 + 512 * w
    case _ => 340 + 2560 * w
  }

  /** Every end-to-end offset already suits the field placed there, and the next follows it. */
  lemma PackedStep(i: nat, w: WcharWidth)
    requires i < NumFields
    ensures PackedOffset(i, w) % Alignment(FieldAt(i), w) == 0
    ensures PackedOffset(i + 1, w) == PackedOffset(i, w) + FieldSize(FieldAt(i), w)
  {
    if w == 2 {} else {}
  }

  /** From an end-to-end offset on, ctypes' walk inserts no padding. */
  lemma {:induction false} EndFromPacked(i: nat, w: WcharWidth)
    requires i <= NumFields
    ensures EndFrom(i, PackedOffset(i, w), w) == PackedOffset(NumFields, w)
    ensures SumOfSizes(i, w) == PackedOffset(NumFields, w) - PackedOffset(i, w)
    decreases NumFields - i
  {
    if i < NumFields {
      PackedStep(i, w);
      EndFromPacked(i + 1, w);
    }
  }

  /** `IndexOf` inverts `FieldAt`. */
  lemma IndexOfFieldAt(i: nat)
    requires i < NumFields
    ensures IndexOf(FieldAt(i)) == i
  {
  }

  lemma {:induction false} StartFromPacked(i: nat, f: Field, w: WcharWidth)
    requires i <= IndexOf(f)
    ensures StartFrom(i, PackedOffset(i, w), f, w) == PackedOffset(IndexOf(f), w)
    decreases NumFields - i
  {
    PackedStep(i, w);
    IndexOfFieldAt(i);
    if FieldAt(i) != f {
      StartFromPacked(i + 1, f, w);
    }
  }

  /** Every field aligns to at most 4 bytes, and the fields from `ContextLen` back include a 4. */
  lemma {:induction false} RecordAlignment(i: nat, w: WcharWidth)
    requires i <= IndexOf(ContextLen)
    ensures AlignmentFrom(i, w) == 4
    decreases NumFields - i
  {
    if i < IndexOf(ContextLen) {
      RecordAlignment(i + 1, w);
    } else {
      assert AlignmentFrom(i + 1, w) <= 4 by {
        assert AlignmentFrom(NumFields, w) == 1;
      }
    }
  }

  /** ctypes ends the last field where the end-to-end layout ends. */
  lemma EndOfFields(w: WcharWidth)
    ensures EndFrom(0, 0, w) == 340 + 2560 * w
  {
    EndFromPacked(0, w);
  }

  /** The field sizes add up to where the end-to-end layout ends. */
  lemma SumOfAllSizes(w: WcharWidth)
    ensures SumOfSizes(0, w) == 340 + 2560 * w
  {
    EndFromPacked(0, w);
  }

  /** The end-to-end size is already a multiple of the record's alignment. */
  lemma NoTailPadding(w: WcharWidth)
    ensures AlignUp(340 + 2560 * w, 4) == 340 + 2560 * w
  {
    if w == 2 {} else {}
  }

  /**
   `sizeof(LinkedMem)` in closed form, 340 bytes plus 2560 wide code units;
   `SizeOf` shows it is what ctypes computes.
   */
  function PackedSize(w: WcharWidth): nat {
    340 + 2560 * w
  }

  /**
   For both widths of `c_wchar` ctypes inserts no padding: `sizeof(LinkedMem)`
   is the sum of the field sizes.
   */
  lemma SizeOfIsPacked(w: WcharWidth)
    ensures SizeOf(w) == SumOfSizes(0, w)
  {
    SumOfAllSizes(w);
  }

  /** Every field lies wholly inside the record. */
  lemma FieldInsideRecord(f: Field, w: WcharWidth)
    ensures OffsetOf(f, w) + FieldSize(f, w) <= SizeOf(w)
  {
    var i := IndexOf(f);
    PackedStep(i, w);
    if w == 2 {} else {}
  }
}
