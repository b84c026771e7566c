# Mumble Link writers, modelled in Dafny

Mumble's "Link" positional-audio plugin reads a shared-memory record,
`LinkedMem`. A game or application writes the player's pose and identity into
it, frame after frame. This repository has two such writers in Python, built
on `ctypes`:

- `PositionalAudioLink`, an avango plugin class;
- `Test`, a stand-alone test writer.

Each writer attaches to the segment and checks that its size is
`sizeof(LinkedMem)`. It then sets the tick to 1 and stores frames: the name
and description, version 2, the tick one further, a fixed pose at `x` metres
along the x axis, the player's identity, and a context.

The model has four modules:

- `Layout` (`layout.dfy`) covers the thirteen fields in declaration order,
  their ctypes element types and counts, and ctypes' placement rule
  (align each field, then round the record up to its alignment). The width of
  `c_wchar` is a parameter, 2 or 4 bytes. It proves that the record has no
  padding, so `sizeof(LinkedMem)` is the sum of the field sizes:
  340 + 2560·w bytes, which is 5460 or 10580.
- `LinkRecord` (`link_record.dfy`) covers the record itself:
  - the class `LinkedMem`, with one array per array field, updated in place;
  - its value `Snapshot`;
  - the ctypes store rules the writers rely on:
    - `c_uint32` keeps the low 32 bits;
    - a `c_wchar` array refuses a string longer than itself and otherwise
      copies it. It writes a terminator after the string only when at least
      two units are left. A string one unit shorter than the array gets no
      terminator, so a reader then also sees the unit left in the last slot;
    - `(c_ubyte * 256)(*codes)` zero-fills.
  - the frame both writers begin with;
  - a ghost log of the fields stored, in order.
- `PositionalAudioLink` (`positional_audio_link.dfy`) covers the plugin:
  - `my_constructor`, `update` and `__del__`, as methods of a class;
  - the specification function `Updated`, and lemmas about what a reader of
    the record then sees.
- `LinkTest` (`link_test.dfy`) covers the test writer:
  - `open`, `set`, `close` and `start`;
  - the specification function `AfterSet`, and the same kind of lemmas.

Each writer method is proved against its specification function. The
properties are proved about those functions:

- the tick counts frames modulo 2^32;
- version, name, description and the vectors are what the writer stores;
- the identity reads back as stored; a 255-unit identity reads back
  followed by the unit left in the array's last slot, unless that unit is a
  terminator;
- the plugin zero-fills its context;
- the test writer touches only the first context byte;
- a repeated frame changes nothing but the tick.

The tick is stored before any pose vector. This is the order the code
writes in, and the model follows the code.

## Model

| member | source | states |
|---|---|---|
| Layout.FieldSize | PositionalAudioLink.py:22-38 | each field takes its element size times its declared count |
| Layout.SizeOf | PositionalAudioLink.py:22-38 | ctypes' placement walk gives `sizeof(LinkedMem)` = 340 + 2560·w bytes for either `c_wchar` width: 5460 or 10580 |
| Layout.SizeOfIsPacked | PositionalAudioLink.py:22-38 | ctypes inserts no padding, so `sizeof(LinkedMem)` equals the sum of the thirteen field sizes |
| Layout.OffsetOf | test.py:11-27 | every field starts exactly where the field declared before it ends, at an offset that suits its alignment |
| Layout.FieldInsideRecord | test.py:11-27 | every field ends within `sizeof(LinkedMem)` |
| LinkRecord.NextTick | PositionalAudioLink.py:70 | storing `uiTick + 1` into the `c_uint32` field gives the old tick plus one, modulo 2^32 |
| LinkRecord.WideValue | PositionalAudioLink.py:29 | a reader of a `c_wchar` array sees a prefix of it, free of terminators, ending at the first terminator or at the end of the array |
| LinkRecord.StoreWide | PositionalAudioLink.py:107 | storing a string that fits keeps the array's length and puts the string first; a terminator follows only when two or more units are left, and every unit after that is untouched |
| LinkRecord.ReadAfterStore | PositionalAudioLink.py:107 | after a string without a terminator is stored into a wide field, reading the field gives back that string; when it is one unit short of the array and the old last unit is not a terminator, the reader sees that unit after it |
| LinkRecord.StoreWideTwice | PositionalAudioLink.py:107 | storing the same string into a wide field twice leaves it as storing it once |
| LinkRecord.ZeroPadded | PositionalAudioLink.py:111 | the new context array is 256 bytes: the given codes, then zeros |
| LinkRecord.Codes | PositionalAudioLink.py:111 | one byte per character, equal to the character's code when that code fits in a byte |
| LinkRecord.Framed | PositionalAudioLink.py:67-104 | the frame keeps the record well formed, advances the tick by one modulo 2^32, and leaves identity, context and context length as they were |
| LinkRecord.FramedEffect | PositionalAudioLink.py:67-104 | after the frame stores, a reader sees version 2, the given name and description (followed by the stale last unit in the one case the store rule leaves unterminated), fronts (0,0,1), tops (0,1,0), avatar and camera at (x,0,0) |
| LinkRecord.FramedTwice | test.py:58-98 | framing a framed record again changes only its tick |
| LinkRecord.TickBeforePose | PositionalAudioLink.py:70-104 | within a frame the tick is stored before every one of the six pose vectors |
| LinkRecord.Zeroed | PositionalAudioLink.py:22-44 | a record ctypes has just created is well formed, with tick, version and context length 0, every text reading as empty, and an all-zero context |
| LinkRecord.LinkedMem.constructor | PositionalAudioLink.py:44 | `LinkedMem()` gives a valid record whose arrays are all fresh, whose value is `Zeroed()`, and in which nothing has been stored yet |
| LinkRecord.LinkedMem.StoreVector | PositionalAudioLink.py:79-81 | the three element stores leave the vector equal to the three given values |
| LinkRecord.LinkedMem.StoreChars | PositionalAudioLink.py:67 | a string longer than the array is refused with nothing written; otherwise the array becomes the stored string, terminated only when two or more units are left |
| LinkRecord.LinkedMem.WriteHeader | PositionalAudioLink.py:67-70 | name, description, version 2 and the advanced tick are stored, nothing else changes, and the log grows by these four fields in source order |
| LinkRecord.LinkedMem.WritePose | PositionalAudioLink.py:79-104 | the six vectors become fronts (0,0,1), tops (0,1,0) and positions (x,0,0); nothing else changes; the log grows in source order |
| LinkRecord.LinkedMem.SetIdentity | PositionalAudioLink.py:107 | the identity is stored, by the `c_wchar` store rule of `StoreWide`, exactly when it fits in 256 code units; when refused, the record and log are unchanged |
| LinkRecord.LinkedMem.ReplaceContext | PositionalAudioLink.py:111 | the whole context array is replaced by the zero-padded codes; nothing else changes |
| LinkRecord.LinkedMem.SetContextByte | test.py:108 | one context byte is stored; the other 255 and all other fields are unchanged |
| LinkRecord.LinkedMem.SetTick | PositionalAudioLink.py:60 | only the tick changes, to the given value |
| LinkRecord.LinkedMem.SetContextLen | PositionalAudioLink.py:112 | only `context_len` changes, to the given value |
| PositionalAudioLink.TextsAreNulFree | PositionalAudioLink.py:19-20 | `SHORTNAME` and `DESCRIPTION` hold no terminator, so readers see them whole |
| PositionalAudioLink.Updated | PositionalAudioLink.py:66-112 | the record after one update; its contract states that every array field keeps its declared length (what a reader sees is stated by the lemmas below) |
| PositionalAudioLink.UpdateTick | PositionalAudioLink.py:70 | every update advances the tick by exactly one, as a `c_uint32` |
| PositionalAudioLink.UpdateFrame | PositionalAudioLink.py:67-104 | after an update a reader sees version 2, `SHORTNAME`, `DESCRIPTION`, fronts (0,0,1), tops (0,1,0), avatar and camera at (x,0,0) |
| PositionalAudioLink.ContextBytes | PositionalAudioLink.py:110-111 | the stored context is the twelve codes of `'test context'` followed by zeros |
| PositionalAudioLink.UpdateContext | PositionalAudioLink.py:107-112 | when the identity fits, a reader sees it (followed by the stale last unit when it is 255 units long and that unit is not a terminator), `context_len` is 12, and the context is the text's codes, then zeros; when it does not fit, identity, context and length are untouched |
| PositionalAudioLink.UpdateRepeats | PositionalAudioLink.py:66-112 | two updates with the same inputs leave every field as one did, except the tick |
| PositionalAudioLink.TickCountsUpdates | PositionalAudioLink.py:70 | after n updates the tick is the starting tick plus n, modulo 2^32 |
| PositionalAudioLink.UpdatedAsWritten | PositionalAudioLink.py:66-89 | `update` as the file has it keeps every array field at its declared length (the stores before the failing `sys.argv` lookup) |
| PositionalAudioLink.AsWrittenSkipsPose | PositionalAudioLink.py:89 | as written, no position, camera vector, identity or context is ever stored, so the record differs from a complete update whenever the avatar was not already at (x,0,0) |
| PositionalAudioLink.PositionalAudioLink.constructor | PositionalAudioLink.py:43-44 | a new plugin has no mapping and the class-wide default record as `_lm` |
| PositionalAudioLink.PositionalAudioLink.MyConstructor | PositionalAudioLink.py:51-60 | a missing segment fails with nothing changed; a wrong mapped size fails with the mapping open and `_lm` unchanged; otherwise `_lm` is the mapped record and only its tick changes, to 1 |
| PositionalAudioLink.PositionalAudioLink.Update | PositionalAudioLink.py:66-112 | fails exactly when the identity exceeds 256 code units; the record becomes `Updated` of the old one; the log grows by the frame's fields in source order |
| PositionalAudioLink.PositionalAudioLink.Finalize | PositionalAudioLink.py:114-115 | closing with no mapping fails; otherwise the mapping is closed and the record is not written |
| LinkTest.TestTextsAreNulFree | test.py:58-60 | the test's name and description hold no terminator |
| LinkTest.AfterSet | test.py:56-110 | the record after one `set`; its contract states that every array field keeps its declared length (what a reader sees is stated by the lemmas below) |
| LinkTest.SetFrame | test.py:58-98 | after a `set` a reader sees the tick one further, version 2, the test's name and description, fronts (0,0,1), tops (0,1,0), avatar and camera at (x,0,0) |
| LinkTest.SetContext | test.py:102-110 | when the identity fits, a reader sees it (followed by the stale last unit when it is 255 units long and that unit is not a terminator), `context_len` is 1, the first byte is `ord('A')`, and bytes 1..255 are as before; otherwise identity, context and length are untouched |
| LinkTest.SetRepeats | test.py:56-110 | two calls of `set` with the same inputs leave every field as one did, except the tick |
| LinkTest.TickCountsSets | test.py:64 | after n calls of `set` the tick is the starting tick plus n, modulo 2^32 |
| LinkTest.Test.constructor | test.py:32-33 | a new test object has no mapping and the class-wide default record as `_lm` |
| LinkTest.Test.Open | test.py:45-54 | a missing segment fails with nothing changed; a wrong mapped size fails the `assert` with the mapping open; otherwise `_lm` is the mapped record and only its tick changes, to 1 |
| LinkTest.Test.Set | test.py:56-110 | fails exactly when the identity exceeds 256 code units; the record becomes `AfterSet` of the old one; the log grows by the frame's fields in source order |
| LinkTest.Test.Close | test.py:112-113 | closing with no mapping fails; otherwise the mapping is closed and the record is not written |
| LinkTest.Test.Start | test.py:35-43 | a missing segment fails with `_lm` and `_map` unchanged; a wrong mapped size fails with `_map` set, `_lm` unchanged and the segment unwritten; otherwise, after `open` and n frames, the record is n calls of `set` from the opened record, so its tick is 1 + n modulo 2^32; a too-long identity stops the run at the first frame |

## Findings

| source | as written | input that shows it | evidently intended | confidence | as-written member | corrected member |
|---|---|---|---|---|---|---|
| PositionalAudioLink.py:89 | `update` reads `sys.argv`, but the file never imports `sys`, so the lookup raises `NameError` after the header and the avatar's front and top were stored | any update of a record whose avatar is not already at (x,0,0), with any identity | the file imports `sys`, and every update stores the full pose, identity and context | medium; not executed | PositionalAudioLink.AsWrittenSkipsPose | PositionalAudioLink.UpdateFrame |

The class method `PositionalAudioLink.PositionalAudioLink.Update` and all
the lemmas about `Updated` model the corrected file, with `sys` imported.

## Left out

- The shared-memory plumbing is left out: `posix_ipc.SharedMemory` with the
  name `"/MumbleLink." + uid`, `mmap`, `close_fd`, `address_of_buffer` and
  `from_address`. The attach is a parameter instead: the mapped record, or
  `null` when the segment does not exist, and the mapped size.
- The writers' class-wide default `LinkedMem()` is taken as a constructor
  parameter of each writer. `LinkRecord.LinkedMem`'s own constructor models
  creating such a record.
- Command-line parsing is left out. `x` and the identity are parameters.
  `float(...)` parsing and Python 2's conversion of a byte `str` to
  `c_wchar` are outside the model. The identity is taken as already decoded
  code units.
- PositionalAudioLink.PositionalAudioLink.Update: vector components are exact
  reals, because the writers only assign constants or the given `x`. The
  rounding of `c_float` to single precision is not modelled.
- LinkTest.Test.Set: the same exact-real treatment of `c_float` applies.
- The avango framework is left out: the `Script` base class, `__init__`,
  and the `Update` node at PositionalAudioLink.py:64. That line calls
  `self.update()` once, eagerly, instead of passing it as the callback. When
  `update` runs is up to the framework; the model has `Update` as a method
  the caller invokes.
- `print` of the segment name and of the arguments is left out.
- LinkTest.Test.Start: `start` loops forever. The model runs the first
  `rounds` iterations, so the `close` after the loop, which can never run,
  is not called. It does not state the write log across the run; each `set`
  states its own.
- Writes after `close` or `__del__` touch memory that is no longer mapped.
  `Update` and `Set` require that the mapping is not closed.
- Wide characters are code units. A character outside the Basic
  Multilingual Plane takes two units where `wchar_t` is 2 bytes, and the
  model does not split it.
- lib-client/main.py, which creates the plugin, is not part of this model.
