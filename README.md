# musec_pico configuration console and persisted record, in Dafny

This project models two parts of the musec_pico controller firmware:

- **The configuration console handlers** (`commands.dfy`, module `Commands`). These are the
  handlers for `display`, `level`, `spin`, `hid`, `save` and `factory`, plus the table that
  registers them.
  - The class `Console` holds the shared configuration record, the `units_per_turn` setting,
    a count of `config_changed()` notifications and a log of output events.
  - `level`, `spin` and `hid` each check the argument count, then the parsed value's range
    or the prefix match result. Only when both checks pass do they write their field(s) and
    notify once. Otherwise they log `Usage` and change nothing else.
  - `display` never writes: it shows one section or all three (`LightView`, `SpinView`,
    `HidView`, the models of `disp_light`, `disp_spin` and `disp_hid`). `save` and `factory`
    check nothing.
  - `changes` counts only the `config_changed()` calls that the handlers make themselves.
    Any notification inside `config_factory_reset` is not counted.
  - The prefix matcher and the integer parser belong to the console library. Their results
    come in as the arguments `matched` and `parsed`.
- **The per-core frame counter `fps_count`** (`Commands.FpsCounter`). It has three arrays of
  two slots each. The timer value `now` is passed in. The elapsed time uses `uint32`
  wrap-around subtraction (`ElapsedU32`).
- **The packed record `musec_cfg_t`** (`config.dfy`, module `Config`). It is modelled as
  datatypes with the declared field widths, plus `Encode`/`Decode` to and from its
  84-byte image.
  - Assumed ABI (GCC on Arm): `uint16_t` fields are little-endian, and the first-declared
    bit-field of a byte sits in its low-order bits.
  - `__attribute__((packed))` applies to the members of `musec_cfg_t`, not to the
    anonymous structs nested in it.
    - The `lever` group keeps its 2-byte alignment, so it is 6 bytes, with one padding byte
      at offset 5. The model keeps that byte as `Lever.padding`.
    - The other groups contain only bytes and have no padding.
    - The record is therefore 84 bytes. It would be 83 only if the nested groups were
      packed too.
  - Proved: the size and offsets of every field, and round trips in both directions. The
    reserved bytes and bits and the padding byte are kept.
  - Proved for `lever.min`, `lever.max`, `lever.invert`, `light.level`, `sound.volume`,
    `tof.roi`, `hid.joy`, `hid.nkro`, `aime.mode` and `aime.virtual_aic`: writing the field
    changes only its own bytes or nibble.
  - For the colour slots, `ColorsIndependent` shows that the colour bytes depend on the
    slots alone. The reserved arrays are covered only by the round trips.
  - `musec_runtime_t` is the datatype `Config.MusecRuntime`: two `uint16` fps slots and the
    `key_stuck` flag. It has no byte image, because it is never persisted.

Notes on the code as written:

- `commands.c` reads and writes `musec_cfg->spin.units_per_turn`, but `musec_cfg_t` in
  `config.h` has no `spin` member. `Console.unitsPerTurn` is therefore a separate field with
  no place in the layout.
- `save` always requests an immediate save: it calls `save_request(true)`.
- `hid` with a match index above 2 cannot occur under the matcher's contract. Taken as
  written, it clears both flags and still notifies, and the model does the same.
- The `fps` array in `commands.c` is a file-local `int` array. It is not
  `musec_runtime.fps`, and `fps_count` does not write `musec_runtime`.

## Model

| member | source | states |
|---|---|---|
| `Config.Encode` | firmware/src/config.h:17-45 | the image has exactly 84 bytes: lever 6 + light 64 + sound 4 + tof 8 + hid 1 + aime 1; the only padding is lever's byte 5 |
| `Config.Decode` | firmware/src/config.h:17-45 | an 84-byte image yields a well-formed record whose min/max are bytes 0-1/2-3 (little-endian), level byte 54, volume byte 70, roi byte 74, and whose hid/aime nibbles repack to bytes 82/83 |
| `Config.Layout` | firmware/src/config.h:17-45 | the offset of every field: min at 0-1 and max at 2-3 (little-endian), invert in bit 0 of byte 4 with reserved in bits 1-7, padding at 5, colour slot k at 6+4k (tag, then three values), level at 54, light reserved at 55-69, volume at 70, sound reserved at 71-73, roi at 74, tof reserved at 75-81, joy/nkro in the low/high nibble of 82, mode/virtual_aic in the low/high nibble of 83 |
| `Config.DecodeEncode` | firmware/src/config.h:17-45 | every well-formed record reads back as itself after encoding |
| `Config.EncodeDecode` | firmware/src/config.h:17-45 | every 84-byte image is reproduced byte for byte by decoding then encoding, so reserved bytes and bits and the padding byte are preserved |
| `Config.U16RoundTrip` | firmware/src/config.h:19-20 | every 16-bit value 0..65535 of `lever.min`/`lever.max` survives its two-byte little-endian form |
| `Config.U16BytesRoundTrip` | firmware/src/config.h:19-20 | every pair of bytes is the encoding of the 16-bit value it decodes to |
| `Config.PackLeverFlags` | firmware/src/config.h:21-22 | the one-bit `invert` is bit 0 and the seven-bit `reserved` is bits 1-7 of one byte, and both read back |
| `Config.SetMinImage` | firmware/src/config.h:19 | writing `lever.min` changes only bytes 0-1, to its low and high byte |
| `Config.SetMaxImage` | firmware/src/config.h:20 | writing `lever.max` changes only bytes 2-3, to its low and high byte |
| `Config.SetFlagsImage` | firmware/src/config.h:21-22 | writing `invert` replaces byte 4 by the flags byte repacked with the unchanged reserved bits, and no other byte changes |
| `Config.SetInvertImage` | firmware/src/config.h:21-22 | writing `invert` changes only byte 4, and its reserved bits stay as they were |
| `Config.PackNibbles` | firmware/src/config.h:37-44 | two 4-bit fields share one byte, the first-declared one in the low nibble, and each reads back |
| `Config.NibblesRoundTrip` | firmware/src/config.h:37-44 | every byte is the packing of its two nibbles |
| `Config.SetJoyImage` | firmware/src/config.h:37-40 | writing `hid.joy` changes only the low nibble of byte 82; `nkro` is unchanged |
| `Config.SetNkroImage` | firmware/src/config.h:37-40 | writing `hid.nkro` changes only the high nibble of byte 82; `joy` is unchanged |
| `Config.SetModeImage` | firmware/src/config.h:41-44 | writing `aime.mode` changes only the low nibble of byte 83; `virtual_aic` is unchanged |
| `Config.SetVirtualAicImage` | firmware/src/config.h:41-44 | writing `aime.virtual_aic` changes only the high nibble of byte 83; `mode` is unchanged |
| `Config.SetLevelImage` | firmware/src/config.h:26 | writing `light.level` changes byte 54 of the image and no other byte |
| `Config.SetVolumeImage` | firmware/src/config.h:30 | writing `sound.volume` changes byte 70 of the image and no other byte |
| `Config.SetRoiImage` | firmware/src/config.h:34 | writing `tof.roi` changes byte 74 of the image and no other byte |
| `Config.EncodeColors` | firmware/src/config.h:12-15 | n colour slots of `rgb_hsv_t` take exactly 4n bytes |
| `Config.ColorSlotAt` | firmware/src/config.h:12-15 | slot k lies at bytes 4k..4k+3 of the colour area: its 1-byte mode tag, then its 3 value bytes |
| `Config.ColorsRoundTrip` | firmware/src/config.h:25 | a sequence of well-formed colour slots decodes back from its bytes |
| `Config.ColorBytesRoundTrip` | firmware/src/config.h:25 | any whole number of 4-byte slots is reproduced byte for byte |
| `Config.ColorsIndependent` | firmware/src/config.h:25-27 | the 48 colour bytes depend only on the 12 slots, not on `level` or the reserved bytes |
| `Config.LeverRoundTrip` | firmware/src/config.h:18-23 | the 6-byte lever group, padding included, decodes back to the same lever |
| `Config.LeverBytesRoundTrip` | firmware/src/config.h:18-23 | every 6-byte lever image, padding byte included, is reproduced byte for byte |
| `Config.LightRoundTrip` | firmware/src/config.h:24-28 | the 64-byte light group decodes back to the same light settings |
| `Config.LightBytesRoundTrip` | firmware/src/config.h:24-28 | every 64-byte light image is reproduced byte for byte |
| `Commands.Registrations` | firmware/src/commands.c:161-169 | exactly six commands are registered, in the order display, level, spin, hid, save, factory, each name bound to its own handler |
| `Commands.RegisteredNamesDistinct` | firmware/src/commands.c:161-169 | the six registered names are pairwise distinct |
| `Commands.EveryHandlerRegisteredOnce` | firmware/src/commands.c:161-169 | each handler is registered under exactly one name |
| `Commands.Console.LightView` | firmware/src/commands.c:21-25 | shows the level, which is byte 54 of the stored image |
| `Commands.Console.HidView` | firmware/src/commands.c:27-33 | shows joy/nkro as "on" exactly when the low/high nibble of byte 82 of the stored image is not zero |
| `Commands.Console.HandleDisplay` | firmware/src/commands.c:41-71 | never changes the record, units or notification count; argc > 1 gives usage only; argc 0 shows light, spin, hid in that order; argc 1 shows the section with match 0, 1 or 2, and usage for any other match |
| `Commands.Console.HandleLevel` | firmware/src/commands.c:90-107 | accepted iff argc is 1 and the value is in 0..255: then only `light.level` changes, one notification, light is shown; otherwise record and count are unchanged and only usage is logged |
| `Commands.Console.HandleSpin` | firmware/src/commands.c:109-127 | accepted iff argc is 1 and the value is in 20..255: then only `units_per_turn` changes, one notification, spin is shown; otherwise nothing changes and only usage is logged |
| `Commands.Console.HandleHid` | firmware/src/commands.c:129-148 | argc 1 with match 0, 1 or 2 gives joy/nkro = 1/0, 0/1 or 1/1, changes no other field, notifies once and shows hid; argc other than 1, or a negative match, leaves everything unchanged and logs usage only |
| `Commands.Console.HandleSave` | firmware/src/commands.c:150-153 | requests an immediate save and changes nothing else |
| `Commands.Console.HandleFactoryReset` | firmware/src/commands.c:155-159 | one factory reset restoring the default image, then the confirmation; no notification from the handler itself |
| `Commands.SpinBoundaries` | firmware/src/commands.c:118-124 | `spin 19` is refused and leaves units unchanged; `spin 20` and `spin 255` store 20 and 255, with exactly two notifications |
| `Commands.LevelBoundaries` | firmware/src/commands.c:98-104 | `level 256` and `level -1` leave the level unchanged and log usage; `level 255` stores 255 |
| `Commands.HidBoth` | firmware/src/commands.c:137-146 | the match for "both" sets joy and nkro to 1 and leaves the rest of the record unchanged |
| `Commands.FactoryThenDisplay` | firmware/src/commands.c:155-159 | after `factory`, the whole record has the default byte image, and `display` then shows exactly the default values |
| `Commands.ElapsedU32` | firmware/src/commands.c:82 | `now - last` in `uint32` is the unique d in [0, 2^32) with last + d = now modulo 2^32 |
| `Commands.ElapsedAcrossWrap` | firmware/src/commands.c:82 | when the timer has wrapped (now < last), the elapsed time is now + 2^32 - last |
| `Commands.FpsCounter.constructor` | firmware/src/commands.c:73-77 | the three per-core arrays start with both slots at zero |
| `Commands.FpsCounter.Count` | firmware/src/commands.c:74-88 | increments the core's counter; with less than 1 s elapsed nothing else changes; otherwise fps gets the incremented count, the counter becomes 0 and last becomes now; the other core's slots are never touched |
| `Commands.FpsFramesWithinWindow` | firmware/src/commands.c:73-88 | for every n and m, n frames on core 0 and then m frames on core 1 within the first window leave the counters at exactly n and m, with nothing published and both window starts still 0 |
| `Commands.FpsCoresIsolated` | firmware/src/commands.c:73-88 | one fixed run across a window boundary: after three frames on core 0 and one on core 1, core 0 publishes 3 and restarts its window at 1 s, while core 1 still holds its one frame |

## Left out

- Printed text and its formatting. Output is modelled as the events `Usage`, `ShowLight`,
  `ShowSpin`, `ShowHid` and `FactoryResetDone`. The Show events carry the values printed.
- `cli_match_prefix`, `cli_extract_non_neg_int` and `cli_register`, whose code is in `cli.c`.
  `cli.c` is not part of this model. Match and parse results are handler arguments. The
  registry is the list `Registrations` returns, and the dispatch loop is not modelled.
- `save_request`, `config_changed`, `config_factory_reset` and `config_init`, whose code is in
  `save.c` and `config.c`. Neither file is part of this model.
  - A save request is the event `SaveRequested(true)`.
  - A change notification is one increment of `Console.changes`.
  - A factory reset is the event `FactoryReset` plus replacing the record with a default
    image, which is passed to the constructor.
  - Whether `config_factory_reset` notifies a change itself is not modelled. There is no
    flash writing, dirty flag or debounce logic in this core.
- `Commands.Console.HandleFactoryReset`: this contract is weaker than the real reset. The
  default image is whatever the constructor receives, because the compiled-in defaults live
  in `config.c`. The same holds for `units_per_turn`: the reset sets it back to the
  constructor's `factoryUnits`, on the assumption that `config_factory_reset` restores it too.
- Loading a blob of the wrong size, or with a bad checksum, is not modelled. `Config.Decode`
  reads exactly 84 bytes, as viewing them as the struct does.
- The hardware timer `time_us_32()`. `now` is a `uint32` argument of `FpsCounter.Count`.
- The two-core execution. The core index is a parameter in {0, 1}, and calls are sequential.
- `Commands.FpsCounter.Count`: the `int` counter is unbounded in the model. Signed overflow
  after 2^31 frames in one window is undefined behaviour in C and is not modelled.
- The unused `SENSE_LIMIT_MAX`/`SENSE_LIMIT_MIN` constants and the sensor and USB headers.
- `musec_runtime_t` is modelled only as the datatype `Config.MusecRuntime`. No code in this
  core reads or writes it, so nothing beyond its shape is stated about it.
- `Commands.Console.SpinView` (`disp_spin`, `commands.c:35-39`) has no contract beyond its
  definition: `units_per_turn` has no place in the stored image to tie it to.
