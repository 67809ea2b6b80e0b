# nes_rs cartridge loader and controller ports, in Dafny

This project models two sequential parts of the `nes_rs` NES emulator:

- **The cartridge loader** (`cartridge.dfy`, module `Cartridge`). `FromBytes` decodes the
  16-byte iNES / NES 2.0 header. It checks the `"NES" 0x1A` signature, then the
  "DiskDude!" and unrecognised-format sentinels in bits 2-3 of byte 7. It assembles the
  nibble-packed mapper number, flags and bank counts, and picks the format version. It
  checks each format's reserved bytes and rejects trainer ROMs. Each rejection is its own
  `HeaderError` constructor. `FromRom` loads a cartridge from the file contents, given as a
  byte sequence. It reads the header, then `prgRomSize` × 16 KiB of PRG-ROM, then
  `chrRomSize` × 8 KiB of CHR-ROM into freshly allocated arrays. It puts a zeroed 8 KiB
  CHR-RAM in place of an empty CHR-ROM and always allocates 8 KiB of zeroed PRG-RAM. The
  pure function `Load` specifies `FromRom`, and the lemmas are stated about `Load`.
- **The controller ports** (`input.dfy`, module `Input`). A `Gamepad` is an 8-position
  shift sequencer: `NextState` returns the bit of the button at the strobe position, in
  the order A, B, Select, Start, Up, Down, Left, Right, and then advances the position
  modulo 8. `Input` sends CPU reads of 0x4016 and 0x4017 to gamepad 1 and gamepad 2, and
  a write to 0x4016 rewinds both. It maps keyboard keys to gamepad 1's buttons and to
  the two turbo switches, and applies the turbo clock to A and B. The pure functions
  `Advance`, `Strobe` and `PositionAfter` describe what repeated reads return.

`base.dfy` (module `Base`) holds `byte` (`bv8`), `Option`, `Result` and `Zeros`.

Bytes are `bv8` and the Rust `u16` fields are `bv16`, so the masks and shifts of the
source appear in the model unchanged. Bank sizes are multiplied out in unbounded
integers, just as the source does in `usize` (the largest product, 4095 × 16384, fits).

Three consequences of the code as written:

- All three `read_exact` calls (src/cartridge.rs:67, 71, 74) fail with the same I/O
  error, so the model has a single `UnexpectedEof` for a truncated header, PRG-ROM or
  CHR-ROM.
- Header bytes 6 = 0x10 and 7 = 0x10 decode to mapper 0x11, because the high nibbles of
  both bytes enter the mapper number (src/cartridge.rs:125-126; `MapperFromBothHighNibbles`).
- The battery-backed CHR-RAM rejection (src/cartridge.rs:157) is unreachable: the CHR-RAM
  size check at src/cartridge.rs:155 already rejects a high nibble of 0xF. `FromBytes`
  states that this error is never returned.

## Model

| member | source | states |
|---|---|---|
| `Cartridge.FirstNonZero` | src/cartridge.rs:167-174 | None exactly when every byte from `i` on is zero; otherwise the first non-zero offset, with all bytes before it zero |
| `Cartridge.FromBytes` | src/cartridge.rs:109-193 | a bad signature is reported before anything else; byte-7 sentinel 01 gives the DiskDude error and 11 the unrecognised-format error; decoding succeeds exactly for `Acceptable` headers (signature, known format, reserved bytes clear, no trainer); for NES 2.0 with a good signature, a 0xF nibble in byte 10 gives the PRG-RAM error, otherwise a 0xF nibble in byte 11 the CHR-RAM error, otherwise a non-zero byte 14 or 15 the offsets-14-15 error; the battery CHR-RAM error is never returned; mapper < 4096 (< 256 for iNES), bank counts < 4096, trainer flag clear |
| `Cartridge.InesReservedScan` | src/cartridge.rs:166-180 | an iNES header with a non-zero byte at offsets 8-15 fails with the offset error, before the trainer check; the offset named is the first non-zero one |
| `Cartridge.TrainerRejected` | src/cartridge.rs:177-180 | the trainer error is returned exactly when the signature, format and reserved bytes are fine and the trainer bit of byte 6 is set, in both versions |
| `Cartridge.InesFieldLayout` | src/cartridge.rs:123-136 | iNES: bank counts are bytes 4 and 5, mapper bits come from the high nibbles of bytes 6 and 7, flags from their low nibbles (mirroring bit 0, battery bit 1), version 1, and submapper, RAM sizes, TV mode and VS data are 0 |
| `Cartridge.Nes2FieldLayout` | src/cartridge.rs:137-151 | NES 2.0: version 2; byte 8 gives mapper bits 8-11 and the submapper; byte 9 gives bits 8-11 of the PRG and CHR bank counts; bytes 10-13 are kept raw |
| `Cartridge.MapperFromBothHighNibbles` | src/cartridge.rs:125-126 | bytes 6 = 0x10 and 7 = 0x10 decode to mapper 0x11 |
| `Cartridge.Load` | src/cartridge.rs:62-90 | the value `from_rom` produces from the file contents; its own contract says only that a file that loads holds every declared bank, and `LoadFailures`, `LoadGeometry` and `LoadIgnoresTrailingBytes` characterise it |
| `Cartridge.LoadFailures` | src/cartridge.rs:62-80 | a file shorter than the header fails with `UnexpectedEof`; a header error is passed on unchanged; after a good header, loading succeeds exactly when the file holds 16 + PRG + CHR bytes, and a shorter file fails with `UnexpectedEof`; the battery CHR-RAM error never surfaces |
| `Cartridge.LoadGeometry` | src/cartridge.rs:66-89 | on success the header is the decoded first 16 bytes; PRG-ROM is the banks × 16384 bytes after it; CHR-ROM is the next banks × 8192 bytes, or 8192 zeros when there are no CHR banks; PRG-RAM is 8192 zeros |
| `Cartridge.LoadIgnoresTrailingBytes` | src/cartridge.rs:70-74 | appending bytes to a loadable file does not change what is loaded |
| `Cartridge.TruncatedPrgRomFails` | src/cartridge.rs:70-71 | a header declaring two PRG banks followed by one bank of data fails to load |
| `Cartridge.MetroidLoads` | src/cartridge.rs:237-269 | the Metroid header of the tests (8 PRG, 0 CHR, mapper 1, mirroring and battery clear) loads with 131072 bytes of PRG-ROM and zeroed CHR-RAM |
| `Cartridge.ReadExact` | src/cartridge.rs:70-71 | a read succeeds exactly when the file holds the buffer's length from the read position, and then fills the buffer with those bytes and advances the position by that length |
| `Cartridge.ReadBanks` | src/cartridge.rs:70-78 | allocates fresh, distinct PRG and CHR buffers; succeeds exactly when both banks fit in the file, and then the buffers hold the two slices (zeroed CHR-RAM when there are no CHR banks) |
| `Cartridge.FromRom` | src/cartridge.rs:62-90 | fails exactly when `Load` fails, with the same error; on success the cartridge and its three buffers are fresh and distinct and hold exactly `Load`'s image |
| `Cartridge.Cartridge.constructor` | src/cartridge.rs:82-88 | the new cartridge holds the given header and buffers |
| `Input.BitOf` | src/input.rs:48 | a pressed button reads 1 and a released one 0 |
| `Input.Advance` | src/input.rs:47 | the next strobe position is the current one plus one, modulo 8, so it stays below 8 |
| `Input.Strobe` | src/input.rs:35-48 | the bits that n consecutive reads return; there are exactly n of them |
| `Input.PositionAfter` | src/input.rs:47 | the strobe position after n consecutive reads; it stays below 8 |
| `Input.StrobeStep` | src/input.rs:35-48 | one more read appends the bit of the button at the position the first n reads reached and advances that position once, so n + 1 calls of `next_state` are n calls followed by one |
| `Input.StrobeReads` | src/input.rs:35-48 | the k-th of n consecutive reads from position s returns the button at position (s + k) mod 8, and leaves the position at (s + n) mod 8 |
| `Input.EightReadsReturn` | src/input.rs:47 | eight reads from any strobe position come back to that position |
| `Input.EightReadsInStrobeOrder` | src/input.rs:11-19 | eight reads from position 0 return A, B, Select, Start, Up, Down, Left, Right, each once |
| `Input.Gamepad.constructor` | src/input.rs:21-32 | a default gamepad has no button pressed and the strobe at A |
| `Input.Gamepad.NextState` | src/input.rs:35-49 | returns the bit of the button at the current strobe position in strobe order, advances the position modulo 8, keeps it below 8 (so the panic arm is never reached), and changes no button; its bit is `Strobe` of one read, so with `StrobeStep` consecutive calls follow `Strobe` |
| `Input.Gamepad.Reset` | src/input.rs:50-52 | the strobe position becomes A and nothing else changes |
| `Input.KeyBinding` | src/input.rs:180-195 | the table of key bindings (Z, X, RShift, Return and the arrow keys to gamepad 1's A, B, Select, Start, Up, Down, Left, Right; A and S to turbo A and turbo B; other keys to nothing); every bound slot is one of the ten controls |
| `Input.KeyBindingIsOneToOne` | src/input.rs:180-195 | no two keys bind the same control, and every control has a key |
| `Input.Input.constructor` | src/input.rs:90-100 | two distinct default gamepads; turbo, Ctrl and Shift all released |
| `Input.Input.ReadB` | src/input.rs:199-205 | reading 0x4016 reads and advances only gamepad 1; reading 0x4017 only gamepad 2; any other address reads 0 and changes nothing |
| `Input.Input.WriteB` | src/input.rs:207-212 | a write to 0x4016 rewinds both gamepads to A, whatever the value; a write elsewhere changes nothing |
| `Input.Input.ApplyTurbo` | src/input.rs:114-120 | while turbo A (B) is held, gamepad 1's A (B) button follows the turbo clock; otherwise it is untouched |
| `Input.Input.HandleGamepadEvent` | src/input.rs:180-195 | sets exactly the control the key is bound to, to the pressed state; other keys change nothing; always returns Continue |

## Left out

- Opening the file and the "unable to open file" error (src/cartridge.rs:63-64): this is
  I/O. The file arrives as a byte sequence.
- The `rom: PathBuf` field of `Cartridge`: it is only used in diagnostics.
- Error message texts and the `fmt::Debug` impls (src/cartridge.rs:196-207,
  src/input.rs:215-219): the error constructors stand for them.
- `Cartridge::new`, `INesHeader::new` and the derived `Default` values
  (src/cartridge.rs:42-50, 94-107): they are placeholders, and the loader never uses them.
- `mapper::load_rom` and the unsupported-mapper test (src/cartridge.rs:274-296): the mapper
  module is not part of this model.
- The ROM-file tests (src/cartridge.rs:216-270) need real ROM files. Only the Metroid row
  is restated, as `MetroidLoads`.
- NES 2.0 exponent-multiplier bank counts: the source does not implement them. It extends
  the bank counts linearly, and the model does the same.
- The encoded PRG-RAM and CHR-RAM sizes are kept raw and never turned into byte counts,
  as in the source. PRG-RAM is always 8 KiB.
- `ReadExact`: says nothing about the buffer or the position after a failed read. Rust
  leaves them unspecified, and the loader stops at the error.
- `Input::poll_events` after its turbo update (src/input.rs:121-177): SDL event polling,
  the Ctrl hotkey table, and the tracking of Ctrl and Shift. This is UI plumbing over SDL
  types.
- `Input::init` and the `event_pump` field (src/input.rs:102-112): they hold the SDL event
  source.
- The `Rc<RefCell<Input>>` sharing (src/input.rs:9): runtime aliasing. In the model,
  `Input` owns two distinct `Gamepad` objects.
- SDL key codes: the model's `Keycode` names the ten keys the gamepad table uses and
  folds every other key into `Other`.
