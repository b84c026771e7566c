/**
 The stand-alone test writer `Test`: it attaches to the Mumble Link segment,
 starts the tick at 1 and then stores frames forever: test name and
 description, version 2, the next tick, a fixed pose at `x` metres along the
 x axis, the player's identity, and a one-byte context `A`.
 */
module LinkTest {
  import opened Layout
  import opened LinkRecord

  /** The name the test writer announces. */
  const TestName: string := "Python Mumble Link Test"

  /** The description the test writer announces. */
  const TestDescription: string := "this is a test plugin"

  /** `ord('A')`: the one context byte every frame stores. */
  const ContextCode: byte := 65

  /** Neither text holds a terminator, so a reader sees each in full. */
  lemma TestTextsAreNulFree()
    ensures Nul !in TestName && Nul !in TestDescription
  {
  }

  /**
   The record after one `set` with position `x` and identity `identity`.
   An identity longer than the field makes ctypes raise after the frame
   writes, so identity, context and context length keep their old values.
   Only the first context byte is stored; the other 255 keep what they held.
   */
  function AfterSet(m: Snapshot, x: real, identity: string): (r: Snapshot)
    requires m.WellFormed()
    ensures r.WellFormed()
  {
    var framed := Framed(m, TestName, TestDescription, x);
    if |identity| > Count(Identity) then framed
    else
      framed.(identity := StoreWide(framed.identity, identity),
              context := framed.context[0 := ContextCode],
              contextLen := 1)
  }

  /** The record after `n` calls of `set`. */
  function SetN(m: Snapshot, x: real, identity: string, n: nat): (r: Snapshot)
    requires m.WellFormed()
    ensures r.WellFormed()
  {
    if n == 0 then m else AfterSet(SetN(m, x, identity, n - 1), x, identity)
  }

  /**
   What a reader finds after one `set`, whether or not the identity fits:
   version 2, the test's name and description, fronts `(0,0,1)`, tops
   `(0,1,0)`, avatar and camera at `(x,0,0)`, and the tick one further.
   */
  lemma SetFrame(m: Snapshot, x: real, identity: string)
    requires m.WellFormed()
    ensures var r := AfterSet(m, x, identity);
      && r.uiTick as int == (m.uiTick as int + 1) % TickModulus
      && r.uiVersion == 2
      && WideValue(r.name) == TestName
      && WideValue(r.description) == TestDescription
      && r.avatarFront == r.cameraFront == [0.0, 0.0, 1.0]
      && r.avatarTop == r.cameraTop == [0.0, 1.0, 0.0]
      && r.avatarPosition == r.cameraPosition == [x, 0.0, 0.0]
  {
    TestTextsAreNulFree();
    FramedEffect(m, TestName, TestDescription, x);
  }

  /**
   The rest of a `set`: when the identity fits, a reader finds that identity
   (followed by the old last unit when the identity is one unit short of the
   field and that unit is not a terminator) and, as the context, the one byte `A` (the first `contextLen` bytes are
   the codes of `"A"`), with the other context bytes as they were; otherwise
   identity, context and context length as they were.
   */
  lemma SetContext(m: Snapshot, x: real, identity: string)
    requires m.WellFormed()
    ensures var r := AfterSet(m, x, identity);
      && (|identity| <= Count(Identity) ==>
            && (Nul !in identity ==>
                  WideValue(r.identity) ==
                    if ReadsWhole(m.identity, identity) then identity
                    else identity + [m.identity[|identity|]])
            && r.contextLen == 1
            && r.context[..r.contextLen] == Codes("A")
            && (forall i :: 1 <= i < |r.context| ==> r.context[i] == m.context[i]))
      && (|identity| > Count(Identity) ==>
            r.identity == m.identity && r.context == m.context && r.contextLen == m.contextLen)
  {
    var framed := Framed(m, TestName, TestDescription, x);
    if |identity| <= Count(Identity) {
      if Nul !in identity {
        ReadAfterStore(framed.identity, identity);
      }
      var r := AfterSet(m, x, identity);
      assert r.context[..1] == [ContextCode];
    }
  }

  /** Two calls of `set` with the same inputs leave every field as one did, except the tick. */
  lemma SetRepeats(m: Snapshot, x: real, identity: string)
    requires m.WellFormed()
    ensures var once := AfterSet(m, x, identity);
      AfterSet(once, x, identity) == once.(uiTick := NextTick(once.uiTick))
  {
    var framed := Framed(m, TestName, TestDescription, x);
    var once := AfterSet(m, x, identity);
    FramedTwice(m, TestName, TestDescription, x);
    if |identity| <= Count(Identity) {
      StoreWideTwice(framed.identity, identity);
      FramedTwice(once, TestName, TestDescription, x);
      assert Framed(once, TestName, TestDescription, x).identity == once.identity;
    }
  }

  /** One more `set` moves the tick of `n` calls on by one. */
  lemma SetNTickStep(m: Snapshot, x: real, identity: string, n: nat)
    requires m.WellFormed()
    ensures SetN(m, x, identity, n + 1).uiTick as int == (SetN(m, x, identity, n).uiTick as int + 1) % TickModulus
  {
  }

  /** Every `set` advances the tick by exactly one, as a `c_uint32`. */
  lemma {:induction false} TickCountsSets(m: Snapshot, x: real, identity: string, n: nat)
    requires m.WellFormed()
    ensures SetN(m, x, identity, n).uiTick as int == (m.uiTick as int + n) % TickModulus
  {
    if n > 0 {
      var k := n - 1;
      TickCountsSets(m, x, identity, k);
      SetNTickStep(m, x, identity, k);
      TickModStep(SetN(m, x, identity, k).uiTick as int, m.uiTick as int + k,
                  SetN(m, x, identity, k + 1).uiTick as int);
    }
  }

  /** The test writer: its `_lm` record and its `_map`. */
  class Test {
    /** The platform's `wchar_t` width, on which `sizeof(LinkedMem)` depends. */
    const wchar: WcharWidth
    var lm: LinkedMem
    var mapping: MapState

    ghost predicate Valid()
      reads this
    {
      lm.Valid()
    }

    /**
     A new test object: `_lm` is the record shared by the class (`default`),
     `_map` is `None`.
     */
    constructor (default: LinkedMem, wchar: WcharWidth)
      requires default.Valid()
      ensures Valid() && lm == default && mapping == NoMap && this.wchar == wchar
    {
      this.wchar := wchar;
      lm := default;
      mapping := NoMap;
    }

    /**
     `open`: attach to the segment (`region`, `null` when it does not exist)
     mapped with `mappedSize` bytes, assert that size is `sizeof(LinkedMem)`,
     take the mapped record as `_lm` and start its tick at 1.
     */
    method Open(region: LinkedMem?, mappedSize: nat) returns (r: Outcome)
      requires Valid() && (region != null ==> region.Valid())
      modifies this, region
      ensures Valid()
      ensures region == null ==> r == Fail(SegmentMissing) && lm == old(lm) && mapping == old(mapping)
      ensures region != null && mappedSize != PackedSize(wchar) ==>
        && r == Fail(SizeMismatch) && mapping == Mapped && lm == old(lm)
        && region.View() == old(region.View()) && region.writes == old(region.writes)
      ensures region != null && mappedSize == PackedSize(wchar) ==>
        && r == Pass && mapping == Mapped && lm == region
        && lm.View() == old(region.View()).(uiTick := 1)
        && lm.writes == old(region.writes) + [UiTick]
    {
      if region == null {
        return Fail(SegmentMissing);
      }
      mapping := Mapped;
      if mappedSize != PackedSize(wchar) {
        return Fail(SizeMismatch);
      }
      lm := region;
      lm.SetTick(1);
      r := Pass;
    }

    /**
     `set`: one frame of stores into `_lm`, in the test's order.  It fails,
     part-way, when ctypes refuses an identity that does not fit.
     */
    method Set(x: real, identity: string) returns (r: Outcome)
      requires Valid() && mapping != Closed
      modifies lm.Repr()
      ensures lm == old(lm) && mapping == old(mapping)
      ensures r == if |identity| <= Count(Identity) then Pass else Fail(StringTooLong)
      ensures lm.View() == AfterSet(old(lm.View()), x, identity)
      ensures lm.writes == old(lm.writes) + FrameLog(r.Pass?)
    {
      ghost var before, log := lm.View(), lm.writes;
      lm.WriteHeader(TestName, TestDescription);
      lm.WritePose(x);
      ghost var framed := lm.View();
      assert framed == Framed(before, TestName, TestDescription, x);
      var ok := lm.SetIdentity(identity);
      if !ok {
        FrameLogAppended(log);
        return Fail(StringTooLong);
      }
      ghost var named := lm.View();
      assert named == framed.(identity := StoreWide(framed.identity, identity));
      lm.SetContextByte(0, ContextCode);
      lm.SetContextLen(1);
      FrameLogAppended(log);
      assert lm.View() == named.(context := framed.context[0 := ContextCode], contextLen := 1);
      r := Pass;
    }

    /** `close`: close the mapping; with no mapping, `None.close` fails. */
    method Close() returns (r: Outcome)
      modifies this
      ensures lm == old(lm) && lm.View() == old(lm.View()) && lm.writes == old(lm.writes)
      ensures old(mapping) == NoMap ==> r == Fail(NoMapping) && mapping == NoMap
      ensures old(mapping) != NoMap ==> r == Pass && mapping == Closed
    {
      if mapping == NoMap {
        return Fail(NoMapping);
      }
      mapping := Closed;
      r := Pass;
    }

    /**
     `start`: `open`, then `set` over and over.  The source loops forever;
     here the first `rounds` iterations run, and the first failure ends the
     run as the exception it raises would.  The final `close` after the
     endless loop is never reached, so it is not called.
     */
    method Start(region: LinkedMem?, mappedSize: nat, x: real, identity: string, rounds: nat)
      returns (r: Outcome)
      requires Valid() && (region != null ==> region.Valid())
      modifies this, if region != null then region.Repr() else {}
      ensures region == null ==> r == Fail(SegmentMissing) && lm == old(lm) && mapping == old(mapping)
      ensures region != null && mappedSize != PackedSize(wchar) ==>
        && r == Fail(SizeMismatch) && lm == old(lm) && mapping == Mapped
        && region.View() == old(region.View()) && region.writes == old(region.writes)
      ensures region != null && mappedSize == PackedSize(wchar) ==>
        && r == (if rounds == 0 || |identity| <= Count(Identity) then Pass else Fail(StringTooLong))
        && lm == region && mapping == Mapped
        && lm.View() == SetN(old(region.View()).(uiTick := 1), x, identity,
                             if r.Pass? then rounds else 1)
      ensures region != null && mappedSize == PackedSize(wchar) && r.Pass? ==>
        lm.View().uiTick as int == (1 + rounds) % TickModulus
    {
      r := Open(region, mappedSize);
      if r.Fail? {
        return;
      }
      ghost var attached := lm.View();
      var i := 0;
      while i < rounds
        invariant 0 <= i <= rounds
        invariant Valid() && lm == region && mapping == Mapped
        invariant i > 0 ==> |identity| <= Count(Identity)
        invariant lm.View() == SetN(attached, x, identity, i)
      {
        var s := Set(x, identity);
        if s.Fail? {
          return s;
        }
        i := i + 1;
      }
      TickCountsSets(attached, x, identity, rounds);
    }
  }
}
