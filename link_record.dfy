/**
 The Mumble Link record `LinkedMem` as the writers see it: a ctypes
 `Structure` mapped over shared memory, whose fields are stored one at a time.
 `Snapshot` is the value of the whole record at one moment; the class
 `LinkedMem` is the record itself, updated in place.
 */
module LinkRecord {
  import opened Layout

  /** ctypes' `c_uint32`. */
  newtype uint32 = n: int | 0 <= n < 0x1_0000_0000

  /** ctypes' `c_ubyte`. */
  newtype byte = b: int | 0 <= b < 0x100

  const TickModulus: int := 0x1_0000_0000

  /** The wide-character string terminator. */
  const Nul: char := 0 as char

  /**
   The tick after `t`.  The writers compute `uiTick + 1` as a Python integer
   and store it back into the `c_uint32` field, which keeps its low 32 bits.
   */
  function NextTick(t: uint32): (r: uint32)
    ensures r as int == (t as int + 1) % TickModulus
  {
    if t as int == TickModulus - 1 then 0 else t + 1
  }

  /** Counting modulo 2^32 one step at a time is counting modulo 2^32. */
  lemma TickModStep(t: int, a: int, r: int)
    requires t == a % TickModulus && r == (t + 1) % TickModulus
    ensures r == (a + 1) % TickModulus
  {
  }

  type Vec = seq<real>

  /** The value of every field of the record at one moment. */
  datatype Snapshot = Snapshot(
    uiVersion: uint32,
    uiTick: uint32,
    avatarPosition: Vec,
    avatarFront: Vec,
    avatarTop: Vec,
    name: seq<char>,
    cameraPosition: Vec,
    cameraFront: Vec,
    cameraTop: Vec,
    identity: seq<char>,
    contextLen: uint32,
    context: seq<byte>,
    description: seq<char>)
  {
    /** Every array field has the length its ctypes declaration gives it. */
    predicate WellFormed() {
      |avatarPosition| == |avatarFront| == |avatarTop| == Count(AvatarPosition) &&
      |cameraPosition| == |cameraFront| == |cameraTop| == Count(CameraPosition) &&
      |name| == Count(Name) && |identity| == Count(Identity) &&
      |context| == Count(Context) && |description| == Count(Description)
    }
  }

  /**
   The contents of a `c_wchar` array after ctypes stores the string `s` into
   it (a longer string is refused before anything is written): the code
   units of `s`, then a terminator only when at least two units are left
   after them; the rest of the array keeps what it held.  A string exactly
   one unit shorter than the array is stored without a terminator.
   */
  function StoreWide(buf: seq<char>, s: seq<char>): (r: seq<char>)
    requires |s| <= |buf|
    ensures |r| == |buf| && r[..|s|] == s
    ensures |s| + 1 < |buf| ==> r[|s|] == Nul && r[|s| + 1..] == buf[|s| + 1..]
    ensures |s| + 1 >= |buf| ==> r[|s|..] == buf[|s|..]
  {
    if |s| + 1 < |buf| then s + [Nul] + buf[|s| + 1..] else s + buf[|s|..]
  }

  /**
   Whether a reader sees exactly `s` after it is stored into `buf`: always,
   except when `s` is one unit short of the array and the unit left over
   from before is not a terminator.
   */
  predicate ReadsWhole(buf: seq<char>, s: seq<char>)
    requires |s| <= |buf|
  {
    |s| + 1 != |buf| || buf[|s|] == Nul
  }

  /** The string a reader of a `c_wchar` array sees: everything before the first terminator. */
  function WideValue(buf: seq<char>): (r: seq<char>)
    ensures |r| <= |buf| && r == buf[..|r|]
    ensures Nul !in r
    ensures |r| == |buf| || buf[|r|] == Nul
  {
    if |buf| == 0 || buf[0] == Nul then []
    else [buf[0]] + WideValue(buf[1..])
  }

  /** A reader stops exactly at the first terminator. */
  lemma {:induction false} WideValueUpTo(buf: seq<char>, k: nat)
    requires k <= |buf| && Nul !in buf[..k]
    requires k == |buf| || buf[k] == Nul
    ensures WideValue(buf) == buf[..k]
  {
    if k > 0 {
      assert buf[0] in buf[..k];
      assert buf[1..][..k - 1] == buf[1..k];
      assert Nul !in buf[1..k] by {
        forall c | c in buf[1..k] ensures c != Nul {
          var i :| 0 <= i < k - 1 && buf[1..k][i] == c;
          assert buf[..k][i + 1] == c;
        }
      }
      WideValueUpTo(buf[1..], k - 1);
      assert buf[..k] == [buf[0]] + buf[1..k];
    }
  }

  /**
   Reading a field back after storing a string without a terminator gives
   that string, or, when ctypes wrote no terminator and the last unit was
   not one, that string followed by the stale last unit.
   */
  lemma ReadAfterStore(buf: seq<char>, s: seq<char>)
    requires |s| <= |buf| && Nul !in s
    ensures WideValue(StoreWide(buf, s)) == if ReadsWhole(buf, s) then s else s + [buf[|s|]]
  {
    var stored := StoreWide(buf, s);
    if ReadsWhole(buf, s) {
      WideValueUpTo(stored, |s|);
    } else {
      assert stored == s + [buf[|s|]];
      WideValueUpTo(stored, |s| + 1);
    }
  }

  /** Storing the same string twice leaves the array as storing it once. */
  lemma StoreWideTwice(buf: seq<char>, s: seq<char>)
    requires |s| <= |buf|
    ensures StoreWide(StoreWide(buf, s), s) == StoreWide(buf, s)
  {
    if |s| < |buf| {
      var once := StoreWide(buf, s);
      assert once[|s| + 1..] == buf[|s| + 1..];
    }
  }

  /** The 256 bytes of `(c_ubyte * 256)(*codes)`: the given bytes, then zeros. */
  function ZeroPadded(codes: seq<byte>): (r: seq<byte>)
    requires |codes| <= Count(Context)
    ensures |r| == Count(Context)
    ensures r[..|codes|] == codes
    ensures forall i :: |codes| <= i < |r| ==> r[i] == 0
  {
    codes + seq(Count(Context) - |codes|, _ => 0)
  }

  /**
   `c_ubyte(ord(c))` for every character of a string: the character code,
   kept to its low 8 bits as `c_ubyte` keeps it.
   */
  function Codes(s: string): (r: seq<byte>)
    ensures |r| == |s|
    ensures forall i :: 0 <= i < |s| && s[i] as int < 0x100 ==> r[i] as int == s[i] as int
  {
    seq(|s|, i requires 0 <= i < |s| => (s[i] as int % 0x100) as byte)
  }

  /** The unit vector out of the eyes, towards the scene. */
  function Front(): Vec {
    [0.0, 0.0, 1.0]
  }

  /** The unit vector out of the top of the head, straight up. */
  function Top(): Vec {
    [0.0, 1.0, 0.0]
  }

  /** A position `x` metres to the right of the origin. */
  function Position(x: real): Vec {
    [x, 0.0, 0.0]
  }

  /** The header stores: plugin name and description, `uiVersion = 2`, the tick advanced. */
  function Headed(m: Snapshot, name: string, description: string): Snapshot
    requires m.WellFormed() && |name| <= Count(Name) && |description| <= Count(Description)
  {
    m.(name := StoreWide(m.name, name),
       description := StoreWide(m.description, description),
       uiVersion := 2,
       uiTick := NextTick(m.uiTick))
  }

  /** The pose stores: avatar front, top and position, then camera position, front and top. */
  function Posed(m: Snapshot, x: real): Snapshot {
    m.(avatarFront := Front(), avatarTop := Top(), avatarPosition := Position(x),
       cameraPosition := Position(x), cameraFront := Front(), cameraTop := Top())
  }

  /** The stores both writers start every frame with: the header, then the pose. */
  function Framed(m: Snapshot, name: string, description: string, x: real): (r: Snapshot)
    requires m.WellFormed() && |name| <= Count(Name) && |description| <= Count(Description)
    ensures r.WellFormed() && r.uiTick as int == (m.uiTick as int + 1) % TickModulus
    ensures r.identity == m.identity && r.context == m.context && r.contextLen == m.contextLen
  {
    Posed(Headed(m, name, description), x)
  }

  /** The fields `Framed` stores, in the order the writers store them. */
  const FrameWrites: seq<Field> := HeaderWrites + PoseWrites

  const HeaderWrites: seq<Field> := [Name, Description, UiVersion, UiTick]

  const PoseWrites: seq<Field> := [
    AvatarFront, AvatarTop, AvatarPosition,
    CameraPosition, CameraFront, CameraTop
  ]

  /**
   What a reader of the record finds after the frame writes: version 2, the
   given name and description (each followed by its array's stale last unit
   in the one case `ReadsWhole` excludes), both fronts looking into the
   scene, both tops pointing up, avatar and camera at `(x, 0, 0)`.
   */
  lemma FramedEffect(m: Snapshot, name: string, description: string, x: real)
    requires m.WellFormed() && |name| <= Count(Name) && |description| <= Count(Description)
    requires Nul !in name && Nul !in description
    ensures var r := Framed(m, name, description, x);
      && r.uiVersion == 2
      && WideValue(r.name) == (if ReadsWhole(m.name, name) then name else name + [m.name[|name|]])
      && WideValue(r.description) ==
           (if ReadsWhole(m.description, description) then description
            else description + [m.description[|description|]])
      && r.avatarFront == r.cameraFront == [0.0, 0.0, 1.0]
      && r.avatarTop == r.cameraTop == [0.0, 1.0, 0.0]
      && r.avatarPosition == r.cameraPosition == [x, 0.0, 0.0]
  {
    ReadAfterStore(m.name, name);
    ReadAfterStore(m.description, description);
  }

  /** Framing an already framed record again changes only the tick. */
  lemma FramedTwice(m: Snapshot, name: string, description: string, x: real)
    requires m.WellFormed() && |name| <= Count(Name) && |description| <= Count(Description)
    ensures var once := Framed(m, name, description, x);
      Framed(once, name, description, x) == once.(uiTick := NextTick(once.uiTick))
  {
    StoreWideTwice(m.name, name);
    StoreWideTwice(m.description, description);
  }

  /**
   The fields a writer stores in one frame, in order: the frame writes, then,
   unless the identity was refused, identity, context and context length.
   */
  function FrameLog(identityStored: bool): seq<Field> {
    FrameWrites + if identityStored then [Identity, Context, ContextLen] else []
  }

  /** A frame's stores, appended to a log one at a time, append `FrameLog`. */
  lemma FrameLogAppended(log: seq<Field>)
    ensures log + HeaderWrites + PoseWrites == log + FrameLog(false)
    ensures log + HeaderWrites + PoseWrites + [Identity] + [Context] + [ContextLen]
            == log + FrameLog(true)
  {
    assert log + HeaderWrites + PoseWrites == log + FrameWrites;
    assert log + HeaderWrites + PoseWrites + [Identity] + [Context] + [ContextLen]
           == log + (FrameWrites + [Identity, Context, ContextLen]);
  }

  /** Within a frame the tick is stored before any of the six pose vectors. */
  lemma TickBeforePose(identityStored: bool)
    ensures var log := FrameLog(identityStored);
      forall i, j :: 0 <= i < |log| && 0 <= j < |log| && log[i] == UiTick && log[j].IsVector() ==> i < j
  {
  }

  /** Why a writer step fails. */
  datatype LinkError =
    | SegmentMissing  // no shared-memory segment of that name: the attach raises
    | SizeMismatch    // the mapped size is not `sizeof(LinkedMem)`: the `assert` fails
    | StringTooLong   // ctypes refuses a string longer than the `c_wchar` array
    | NoMapping       // closing before any mapping exists: `None` has no `close`

  datatype Outcome = Pass | Fail(error: LinkError)

  /** The writer's `_map`: none yet, mapped, or closed. */
  datatype MapState = NoMap | Mapped | Closed

  /** The value of a record ctypes has just created: every byte zero. */
  function Zeroed(): (m: Snapshot)
    ensures m.WellFormed()
    ensures m.uiTick == 0 && m.uiVersion == 0 && m.contextLen == 0
    ensures WideValue(m.name) == [] && WideValue(m.identity) == [] && WideValue(m.description) == []
    ensures forall i :: 0 <= i < |m.context| ==> m.context[i] == 0
  {
    var zero := [0.0, 0.0, 0.0];
    Snapshot(0, 0, zero, zero, zero, seq(256, _ => Nul), zero, zero, zero,
      seq(256, _ => Nul), 0, seq(256, _ => 0), seq(2048, _ => Nul))
  }

  /** The record in (shared) memory, its fields updated one store at a time. */
  class LinkedMem {
    var uiVersion: uint32
    var uiTick: uint32
    const avatarPosition: array<real>
    const avatarFront: array<real>
    const avatarTop: array<real>
    const name: array<char>
    const cameraPosition: array<real>
    const cameraFront: array<real>
    const cameraTop: array<real>
    const identity: array<char>
    var contextLen: uint32
    const context: array<byte>
    const description: array<char>

    /** The fields stored so far, oldest first. */
    ghost var writes: seq<Field>

    /** The arrays have their declared lengths and do not overlap. */
    ghost predicate Valid() {
      avatarPosition.Length == avatarFront.Length == avatarTop.Length == Count(AvatarPosition) &&
      cameraPosition.Length == cameraFront.Length == cameraTop.Length == Count(CameraPosition) &&
      name.Length == Count(Name) && identity.Length == Count(Identity) &&
      context.Length == Count(Context) && description.Length == Count(Description) &&
      avatarPosition != avatarFront && avatarPosition != avatarTop &&
      avatarPosition != cameraPosition && avatarPosition != cameraFront &&
      avatarPosition != cameraTop &&
      avatarFront != avatarTop && avatarFront != cameraPosition &&
      avatarFront != cameraFront && avatarFront != cameraTop &&
      avatarTop != cameraPosition && avatarTop != cameraFront && avatarTop != cameraTop &&
      cameraPosition != cameraFront && cameraPosition != cameraTop &&
      cameraFront != cameraTop &&
      name != identity && name != description && identity != description
    }

    /**
     `LinkedMem()`: a fresh record, every field zero — a zero tick, version
     and context length, zero vectors, empty strings, a zeroed context — and
     nothing stored yet.
     */
    constructor ()
      ensures Valid()
      ensures fresh(avatarPosition) && fresh(avatarFront) && fresh(avatarTop) && fresh(name)
      ensures fresh(cameraPosition) && fresh(cameraFront) && fresh(cameraTop)
      ensures fresh(identity) && fresh(context) && fresh(description)
      ensures View() == Zeroed() && writes == []
    {
      uiVersion, uiTick, contextLen := 0, 0, 0;
      var ap, af, at, cp, cf, ct := ZeroVectors();
      var nm, id, ds := NulTexts();
      var cx := ZeroBytes(256);
      avatarPosition, avatarFront, avatarTop := ap, af, at;
      cameraPosition, cameraFront, cameraTop := cp, cf, ct;
      name, identity, description, context := nm, id, ds, cx;
      writes := [];
    }

    /** The six fresh `c_float * 3` vectors of a new record, all zeros. */
    static method ZeroVectors() returns (ap: array<real>, af: array<real>, at: array<real>,
                                         cp: array<real>, cf: array<real>, ct: array<real>)
      ensures fresh(ap) && fresh(af) && fresh(at) && fresh(cp) && fresh(cf) && fresh(ct)
      ensures ap.Length == af.Length == at.Length == cp.Length == cf.Length == ct.Length == 3
      ensures ap[..] == af[..] == at[..] == cp[..] == cf[..] == ct[..] == [0.0, 0.0, 0.0]
      ensures ap != af && ap != at && ap != cp && ap != cf && ap != ct
      ensures af != at && af != cp && af != cf && af != ct
      ensures at != cp && at != cf && at != ct
      ensures cp != cf && cp != ct && cf != ct
    {
      ap := ZeroVector();
      af := ZeroVector();
      at := ZeroVector();
      cp := ZeroVector();
      cf := ZeroVector();
      ct := ZeroVector();
    }

    /** A fresh `c_float * 3`, all zeros. */
    static method ZeroVector() returns (a: array<real>)
      ensures fresh(a) && a.Length == 3 && a[..] == [0.0, 0.0, 0.0]
    {
      a := new real[3](_ => 0.0);
      assert a[..] == [a[0], a[1], a[2]];
    }

    /** The three fresh `c_wchar` arrays of a new record: name, identity, description, all terminators. */
    static method NulTexts() returns (nm: array<char>, id: array<char>, ds: array<char>)
      ensures fresh(nm) && fresh(id) && fresh(ds) && nm != id && nm != ds && id != ds
      ensures nm.Length == id.Length == 256 && ds.Length == 2048
      ensures nm[..] == id[..] == seq(256, _ => Nul) && ds[..] == seq(2048, _ => Nul)
    {
      nm := NulChars(256);
      id := NulChars(256);
      ds := NulChars(2048);
    }

    /** A fresh `c_wchar * n`, all terminators. */
    static method NulChars(n: nat) returns (a: array<char>)
      ensures fresh(a) && a.Length == n && a[..] == seq(n, _ => Nul)
    {
      a := new char[n](_ => Nul);
    }

    /** A fresh `c_ubyte * n`, all zeros. */
    static method ZeroBytes(n: nat) returns (a: array<byte>)
      ensures fresh(a) && a.Length == n && a[..] == seq(n, _ => 0)
    {
      a := new byte[n](_ => 0);
    }

    function Repr(): set<object> {
      {this, avatarPosition, avatarFront, avatarTop, name,
       cameraPosition, cameraFront, cameraTop, identity, context, description}
    }

    function View(): (m: Snapshot)
      reads Repr()
      ensures Valid() ==> m.WellFormed()
    {
      Snapshot(uiVersion, uiTick,
        avatarPosition[..], avatarFront[..], avatarTop[..],
        name[..],
        cameraPosition[..], cameraFront[..], cameraTop[..],
        identity[..],
        contextLen, context[..],
        description[..])
    }

    /** `a[0] = v0; a[1] = v1; a[2] = v2` on one `c_float * 3` vector. */
    static method StoreVector(a: array<real>, v0: real, v1: real, v2: real)
      requires a.Length == 3
      modifies a
      ensures a[..] == [v0, v1, v2]
    {
      a[0] := v0;
      a[1] := v1;
      a[2] := v2;
    }

    /**
     `field = s` on a `c_wchar` array.  ctypes refuses a string longer than
     the array (`ok` is false and nothing is written); otherwise the array
     becomes `StoreWide` of what it held.
     */
    static method StoreChars(a: array<char>, s: string) returns (ok: bool)
      modifies a
      ensures ok <==> |s| <= a.Length
      ensures a[..] == if ok then StoreWide(old(a[..]), s) else old(a[..])
    {
      if |s| > a.Length {
        return false;
      }
      ghost var before := a[..];
      forall i | 0 <= i < |s| {
        a[i] := s[i];
      }
      if |s| + 1 < a.Length {
        a[|s|] := Nul;
      }
      assert a[..] == StoreWide(before, s);
      ok := true;
    }

    /**
     The stores both writers begin a frame with: name, description,
     `uiVersion = 2`, and the tick read and stored back advanced.
     */
    method WriteHeader(nameText: string, descriptionText: string)
      requires Valid() && |nameText| <= Count(Name) && |descriptionText| <= Count(Description)
      modifies this, name, description
      ensures View() == Headed(old(View()), nameText, descriptionText)
      ensures writes == old(writes) + HeaderWrites
    {
      var ok := StoreChars(name, nameText);
      ok := StoreChars(description, descriptionText);
      uiVersion := 2;
      uiTick := NextTick(uiTick);
      writes := writes + HeaderWrites;
    }

    /** The pose stores that follow: avatar front, top and position, camera position, front and top. */
    method WritePose(x: real)
      requires Valid()
      modifies this, avatarPosition, avatarFront, avatarTop, cameraPosition, cameraFront, cameraTop
      ensures View() == Posed(old(View()), x)
      ensures writes == old(writes) + PoseWrites
    {
      StoreVector(avatarFront, 0.0, 0.0, 1.0);
      StoreVector(avatarTop, 0.0, 1.0, 0.0);
      StoreVector(avatarPosition, x, 0.0, 0.0);
      StoreVector(cameraPosition, x, 0.0, 0.0);
      StoreVector(cameraFront, 0.0, 0.0, 1.0);
      StoreVector(cameraTop, 0.0, 1.0, 0.0);
      writes := writes + PoseWrites;
    }

    /** `identity = s`; refused, with nothing written, when `s` does not fit. */
    method SetIdentity(s: string) returns (ok: bool)
      requires Valid()
      modifies this, identity
      ensures ok <==> |s| <= Count(Identity)
      ensures ok ==> View() == old(View()).(identity := StoreWide(old(View()).identity, s))
      ensures ok ==> writes == old(writes) + [Identity]
      ensures !ok ==> View() == old(View()) && writes == old(writes)
    {
      ok := StoreChars(identity, s);
      if ok {
        writes := writes + [Identity];
      }
    }

    /** `context = (c_ubyte * 256)(*codes)`: the whole array is replaced. */
    method ReplaceContext(codes: seq<byte>)
      requires Valid() && |codes| <= Count(Context)
      modifies this, context
      ensures View() == old(View()).(context := ZeroPadded(codes))
      ensures writes == old(writes) + [Context]
    {
      forall i | 0 <= i < context.Length {
        context[i] := if i < |codes| then codes[i] else 0;
      }
      writes := writes + [Context];
    }

    /** `context[i] = b`: one byte, the others untouched. */
    method SetContextByte(i: nat, b: byte)
      requires Valid() && i < Count(Context)
      modifies this, context
      ensures View() == old(View()).(context := old(View()).context[i := b])
      ensures writes == old(writes) + [Context]
    {
      context[i] := b;
      writes := writes + [Context];
    }

    /** `uiTick = t`. */
    method SetTick(t: uint32)
      requires Valid()
      modifies this
      ensures View() == old(View()).(uiTick := t)
      ensures writes == old(writes) + [UiTick]
    {
      uiTick := t;
      writes := writes + [UiTick];
    }

    /** `context_len = n`. */
    method SetContextLen(n: uint32)
      requires Valid()
      modifies this
      ensures View() == old(View()).(contextLen := n)
      ensures writes == old(writes) + [ContextLen]
    {
      contextLen := n;
      writes := writes + [ContextLen];
    }
  }
}
