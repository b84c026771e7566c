/**
 The avango plugin `PositionalAudioLink`: it attaches to the Mumble Link
 segment of the current user, starts the tick at 1, and on every `update`
 stores one frame into the record: plugin name and description, version 2,
 the next tick, a fixed pose at `x` metres along the x axis, the player's
 identity and a fixed 12-byte context.
 */
module PositionalAudioLink {
  import opened Layout
  import opened LinkRecord

  /** `SHORTNAME`. */
  const ShortName: string := "PositionalAudioLink"

  /**
   `DESCRIPTION`, spelled as the plugin spells it.  The three pieces join to
   the plugin's one string; kept apart, each is short enough for the
   verifier to look at unit by unit in `TextsAreNulFree`.
   */
  const PluginDescription: string := "This is a Link " + "between avango.gua " + "and the Mubmel Link plugin"

  /** The context string every `update` writes. */
  const ContextText: string := "test context"

  /** Neither text holds a terminator, so a reader sees each in full. */
  lemma TextsAreNulFree()
    ensures Nul !in ShortName && Nul !in PluginDescription
  {
  }

  /**
   The record after one `update` with position `x` and identity `identity`.
   An identity longer than the field makes ctypes raise after the frame
   writes, so identity, context and context length keep their old values.
   */
  function Updated(m: Snapshot, x: real, identity: string): (r: Snapshot)
    requires m.WellFormed()
    ensures r.WellFormed()
  {
    var framed := Framed(m, ShortName, PluginDescription, x);
    if |identity| > Count(Identity) then framed
    else
      framed.(identity := StoreWide(framed.identity, identity),
              context := ZeroPadded(Codes(ContextText)),
              contextLen := |ContextText| as uint32)
  }

  /** The record after `n` updates. */
  function UpdatedN(m: Snapshot, x: real, identity: string, n: nat): (r: Snapshot)
    requires m.WellFormed()
    ensures r.WellFormed()
  {
    if n == 0 then m else Updated(UpdatedN(m, x, identity, n - 1), x, identity)
  }

  /** Each update stores the tick one further, modulo 2^32. */
  lemma UpdateTick(m: Snapshot, x: real, identity: string)
    requires m.WellFormed()
    ensures Updated(m, x, identity).uiTick as int == (m.uiTick as int + 1) % TickModulus
  {
  }

  /**
   What a reader finds after one `update`, whether or not the identity fits:
   version 2, the plugin's name and description, fronts `(0,0,1)`, tops
   `(0,1,0)`, avatar and camera at `(x,0,0)`.
   */
  lemma UpdateFrame(m: Snapshot, x: real, identity: string)
    requires m.WellFormed()
    ensures var r := Updated(m, x, identity);
      && r.uiVersion == 2
      && WideValue(r.name) == ShortName
      && WideValue(r.description) == PluginDescription
      && r.avatarFront == r.cameraFront == [0.0, 0.0, 1.0]
      && r.avatarTop == r.cameraTop == [0.0, 1.0, 0.0]
      && r.avatarPosition == r.cameraPosition == [x, 0.0, 0.0]
  {
    TextsAreNulFree();
    FramedEffect(m, ShortName, PluginDescription, x);
  }

  /** The context bytes every update stores: the codes of the context text, then zeros. */
  lemma ContextBytes()
    ensures var padded := ZeroPadded(Codes(ContextText));
      && (forall i :: 0 <= i < 12 ==> padded[i] as int == ContextText[i] as int)
      && (forall i :: 12 <= i < |padded| ==> padded[i] == 0)
  {
    var codes := Codes(ContextText);
    var padded := ZeroPadded(codes);
    forall i | 0 <= i < 12
      ensures padded[i] as int == ContextText[i] as int
    {
      assert padded[i] == padded[..|codes|][i];
    }
  }

  /**
   The rest of an update: when the identity fits, a reader finds that
   identity (followed by the old last unit when the identity is one unit
   short of the field and that unit is not a terminator), the context's
   character codes followed by zeros, and a context length of 12; otherwise
   identity, context and context length as they were.
   */
  lemma UpdateContext(m: Snapshot, x: real, identity: string)
    requires m.WellFormed()
    ensures var r := Updated(m, x, identity);
      && (|identity| <= Count(Identity) ==>
            && (Nul !in identity ==>
                  WideValue(r.identity) ==
                    if ReadsWhole(m.identity, identity) then identity
                    else identity + [m.identity[|identity|]])
            && r.contextLen == 12
            && (forall i :: 0 <= i < 12 ==> r.context[i] as int == ContextText[i] as int)
            && (forall i :: 12 <= i < |r.context| ==> r.context[i] == 0))
      && (|identity| > Count(Identity) ==>
            r.identity == m.identity && r.context == m.context && r.contextLen == m.contextLen)
  {
    var framed := Framed(m, ShortName, PluginDescription, x);
    if |identity| <= Count(Identity) {
      if Nul !in identity {
        ReadAfterStore(framed.identity, identity);
      }
      ContextBytes();
    }
  }

  /** Two updates with the same inputs leave every field as one update did, except the tick. */
  lemma UpdateRepeats(m: Snapshot, x: real, identity: string)
    requires m.WellFormed()
    ensures var once := Updated(m, x, identity);
      Updated(once, x, identity) == once.(uiTick := NextTick(once.uiTick))
  {
    var framed := Framed(m, ShortName, PluginDescription, x);
    var once := Updated(m, x, identity);
    FramedTwice(m, ShortName, PluginDescription, x);
    if |identity| <= Count(Identity) {
      StoreWideTwice(framed.identity, identity);
      FramedTwice(once, ShortName, PluginDescription, x);
      assert Framed(once, ShortName, PluginDescription, x).identity == once.identity;
    }
  }

  /** One more update moves the tick of `n` updates on by one. */
  lemma UpdatedNTickStep(m: Snapshot, x: real, identity: string, n: nat)
    requires m.WellFormed()
    ensures UpdatedN(m, x, identity, n + 1).uiTick as int == (UpdatedN(m, x, identity, n).uiTick as int + 1) % TickModulus
  {
  }

  /** Every update advances the tick by exactly one, as a `c_uint32`. */
  lemma {:induction false} TickCountsUpdates(m: Snapshot, x: real, identity: string, n: nat)
    requires m.WellFormed()
    ensures UpdatedN(m, x, identity, n).uiTick as int == (m.uiTick as int + n) % TickModulus
  {
    if n > 0 {
      var k := n - 1;
      TickCountsUpdates(m, x, identity, k);
      UpdatedNTickStep(m, x, identity, k);
      TickModStep(UpdatedN(m, x, identity, k).uiTick as int, m.uiTick as int + k,
                  UpdatedN(m, x, identity, k + 1).uiTick as int);
    }
  }

  /**
   `update` as the file has it: `sys` is never imported, so the first
   `sys.argv` lookup, for the avatar position, raises `NameError`.  Only the
   header and the avatar's front and top vectors are stored by then.
   */
  function UpdatedAsWritten(m: Snapshot): (r: Snapshot)
    requires m.WellFormed()
    ensures r.WellFormed()
  {
    Headed(m, ShortName, PluginDescription).(avatarFront := Front(), avatarTop := Top())
  }

  /**
   As written, an update never stores a position, the camera's vectors, the
   identity or the context, so unless the avatar was already at `(x, 0, 0)`
   the record differs from what a complete `update` leaves.
   */
  lemma AsWrittenSkipsPose(m: Snapshot, x: real, identity: string)
    requires m.WellFormed()
    ensures var r := UpdatedAsWritten(m);
      && r.avatarPosition == m.avatarPosition && r.cameraPosition == m.cameraPosition
      && r.cameraFront == m.cameraFront && r.cameraTop == m.cameraTop
      && r.identity == m.identity && r.context == m.context && r.contextLen == m.contextLen
    ensures m.avatarPosition != [x, 0.0, 0.0] ==> UpdatedAsWritten(m) != Updated(m, x, identity)
  {
    UpdateFrame(m, x, identity);
  }

  /** The plugin object: its `_lm` record and its `_map`. */
  class PositionalAudioLink {
    /** The platform's `wchar_t` width, on which `sizeof(LinkedMem)` depends. */
    const wchar: WcharWidth
    var lm: LinkedMem
    var mapping: MapState

    ghost predicate Valid()
      reads this
    {
      lm.Valid()
    }

    /**
     A new plugin object, before `my_constructor`: `_lm` is the record shared
     by the class (`default`), `_map` is `None`.
     */
    constructor (default: LinkedMem, wchar: WcharWidth)
      requires default.Valid()
      ensures Valid() && lm == default && mapping == NoMap && this.wchar == wchar
    {
      this.wchar := wchar;
      lm := default;
      mapping := NoMap;
    }

    /**
     `my_constructor`: attach to the segment (`region`, `null` when it does
     not exist) mapped with `mappedSize` bytes, require that size to be
     `sizeof(LinkedMem)`, take the mapped record as `_lm` and start its tick
     at 1, so that a reader does not skip the first frame.
     */
    method MyConstructor(region: LinkedMem?, mappedSize: nat) returns (r: Outcome)
      requires Valid() && (region != null ==> region.Valid())
      modifies this, region
      ensures Valid()
      ensures region == null ==> r == Fail(SegmentMissing) && lm == old(lm) && mapping == old(mapping)
      ensures region != null && mappedSize != PackedSize(wchar) ==>
        && r == Fail(SizeMismatch) && mapping == Mapped && lm == old(lm)
        && region.View() == old(region.View()) && region.writes == old(region.writes)
      ensures region != null && mappedSize == PackedSize(wchar) ==>
        && r == Pass && mapping == Mapped && lm == region
        && lm.View() == old(region.View()).(uiTick := 1)
        && lm.writes == old(region.writes) + [UiTick]
    {
      if region == null {
        return Fail(SegmentMissing);
      }
      mapping := Mapped;
      if mappedSize != PackedSize(wchar) {
        return Fail(SizeMismatch);
      }
      lm := region;
      lm.SetTick(1);
      r := Pass;
    }

    /**
     `update`: one frame of stores into `_lm`, in the plugin's order.  It
     fails, part-way, when ctypes refuses an identity that does not fit.
     */
    method Update(x: real, identity: string) returns (r: Outcome)
      requires Valid() && mapping != Closed
      modifies lm.Repr()
      ensures lm == old(lm) && mapping == old(mapping)
      ensures r == if |identity| <= Count(Identity) then Pass else Fail(StringTooLong)
      ensures lm.View() == Updated(old(lm.View()), x, identity)
      ensures lm.writes == old(lm.writes) + FrameLog(r.Pass?)
    {
      ghost var before, log := lm.View(), lm.writes;
      lm.WriteHeader(ShortName, PluginDescription);
      lm.WritePose(x);
      ghost var framed := lm.View();
      assert framed == Framed(before, ShortName, PluginDescription, x);
      var ok := lm.SetIdentity(identity);
      if !ok {
        FrameLogAppended(log);
        return Fail(StringTooLong);
      }
      ghost var named := lm.View();
      assert named == framed.(identity := StoreWide(framed.identity, identity));
      lm.ReplaceContext(Codes(ContextText));
      lm.SetContextLen(|ContextText| as uint32);
      FrameLogAppended(log);
      r := Pass;
    }

    /** `__del__`: close the mapping; with no mapping, `None.close` fails. */
    method Finalize() returns (r: Outcome)
      modifies this
      ensures lm == old(lm) && lm.View() == old(lm.View()) && lm.writes == old(lm.writes)
      ensures old(mapping) == NoMap ==> r == Fail(NoMapping) && mapping == NoMap
      ensures old(mapping) != NoMap ==> r == Pass && mapping == Closed
    {
      if mapping == NoMap {
        return Fail(NoMapping);
      }
      mapping := Closed;
      r := Pass;
    }
  }
}
