/**
 * An NES cartridge: the iNES / NES 2.0 header decoder and the loader that
 * slices a ROM image into its PRG-ROM, CHR-ROM and PRG-RAM buffers.
 *
 * Header layout (iNES and NES 2.0 formats):
 *   0-3   "NES" 0x1A
 *   4     PRG-ROM bank count, low 8 bits          (16 KiB banks)
 *   5     CHR-ROM bank count, low 8 bits          (8 KiB banks)
 *   6     mapper D0..D3 (high nibble) | flags D0..D3 (low nibble)
 *   7     mapper D4..D7 (high nibble) | flags D4..D7 (low nibble);
 *         bits 2-3 select the format: 00 iNES, 10 NES 2.0
 *   8     NES 2.0: submapper (high nibble) | mapper D8..D11 (low nibble)
 *   9     NES 2.0: CHR-ROM count D8..D11 (high) | PRG-ROM count D8..D11 (low)
 *   10-13 NES 2.0: PRG-RAM size, CHR-RAM size, TV mode, VS System data
 *   14-15 reserved, zero
 */
module Cartridge {
  import opened Base

  const PRG_BANK_SIZE: nat := 16 * 1024
  const CHR_BANK_SIZE: nat := 8 * 1024
  const PRG_RAM_SIZE: nat := 8 * 1024

  const HEADER_SIZE: nat := 16
  /** "NES" followed by the MS-DOS end-of-file byte. */
  const SIGNATURE: seq<byte> := [0x4E, 0x45, 0x53, 0x1A]

  /** Bits 2-3 of byte 7 when the header is in NES 2.0 format. */
  const FORMAT_NES2: byte := 0x08

  datatype INesHeader = INesHeader(
    version: byte,        // 1 for iNES, 2 for NES 2.0
    mapperNum: bv16,      // primary mapper number
    submapperNum: byte,   // NES 2.0 submapper
    flags: byte,          // mirroring, battery, trainer, VS Unisystem, PlayChoice-10, NES 2.0
    prgRomSize: bv16,     // number of 16 KiB PRG-ROM banks
    chrRomSize: bv16,     // number of 8 KiB CHR-ROM banks
    prgRamSize: byte,     // NES 2.0 encoded PRG-RAM size, kept raw
    chrRamSize: byte,     // NES 2.0 encoded CHR-RAM size, kept raw
    tvMode: byte,         // NES 2.0 NTSC/PAL indicator
    vsData: byte)         // NES 2.0 VS System data

  /** One constructor per way `from_bytes` rejects a header. */
  datatype HeaderError =
    | SignatureNotFound
    | DiskDudeCorruption
    | UnrecognizedFormat
    | InvalidPrgRamSize
    | InvalidChrRamSize
    | BatteryChrRamUnsupported
    | UnrecognizedDataAt14To15
    | UnrecognizedDataAt(offset: nat)
    | TrainerUnsupported

  /** Neither nibble of an NES 2.0 RAM-size byte holds the reserved value 0xF. */
  predicate NoReservedNibble(x: byte) {
    x >> 4 != 0xF && x & 0x0F != 0xF
  }

  /** Bits 2-3 of byte 7 name one of the two supported formats (iNES or NES 2.0). */
  predicate KnownFormat(h: seq<byte>)
    requires |h| == HEADER_SIZE
  {
    h[7] & 0x0C == 0 || h[7] & 0x0C == FORMAT_NES2
  }

  /**
   * The bytes the format reserves hold nothing unexpected: for NES 2.0 the
   * RAM-size bytes avoid the reserved nibble and bytes 14-15 are zero; for
   * iNES every byte from offset 8 on is zero.
   */
  predicate ReservedClear(h: seq<byte>)
    requires |h| == HEADER_SIZE
  {
    if h[7] & 0x0C == FORMAT_NES2 then
      NoReservedNibble(h[10]) && NoReservedNibble(h[11]) && h[14] == 0 && h[15] == 0
    else
      forall i :: 8 <= i < HEADER_SIZE ==> h[i] == 0
  }

  /** The headers the decoder accepts, stated on the raw bytes. */
  predicate Acceptable(h: seq<byte>)
    requires |h| == HEADER_SIZE
  {
    h[..4] == SIGNATURE && KnownFormat(h) && ReservedClear(h) && h[6] & 0x04 == 0
  }

  /** The first offset at or after `i` that holds a non-zero byte, if any. */
  function FirstNonZero(h: seq<byte>, i: nat): (k: Option<nat>)
    requires i <= |h|
    ensures k.None? <==> forall j :: i <= j < |h| ==> h[j] == 0
    ensures k.Some? ==> i <= k.value < |h| && h[k.value] != 0
    ensures k.Some? ==> forall j :: i <= j < k.value ==> h[j] == 0
    decreases |h| - i
  {
    if i == |h| then None
    else if h[i] > 0 then Some(i)
    else FirstNonZero(h, i + 1)
  }

  /** Decodes and validates a 16-byte header; every check fails fast. */
  function FromBytes(h: seq<byte>): (r: Result<INesHeader, HeaderError>)
    requires |h| == HEADER_SIZE
    // The signature is checked before anything else, then the format sentinels.
    ensures h[..4] != SIGNATURE ==> r == Err(SignatureNotFound)
    ensures h[..4] == SIGNATURE && h[7] & 0x0C == 0x04 ==> r == Err(DiskDudeCorruption)
    ensures h[..4] == SIGNATURE && h[7] & 0x0C == 0x0C ==> r == Err(UnrecognizedFormat)
    // NES 2.0: the PRG-RAM size, then the CHR-RAM size, then bytes 14-15, each before the trainer.
    ensures h[..4] == SIGNATURE && h[7] & 0x0C == FORMAT_NES2 && !NoReservedNibble(h[10]) ==>
              r == Err(InvalidPrgRamSize)
    ensures (h[..4] == SIGNATURE && h[7] & 0x0C == FORMAT_NES2 && NoReservedNibble(h[10])
             && !NoReservedNibble(h[11])) ==> r == Err(InvalidChrRamSize)
    ensures (h[..4] == SIGNATURE && h[7] & 0x0C == FORMAT_NES2 && NoReservedNibble(h[10])
             && NoReservedNibble(h[11]) && (h[14] != 0 || h[15] != 0)) ==> r == Err(UnrecognizedDataAt14To15)
    // Exactly the acceptable headers decode.
    ensures r.Ok? <==> Acceptable(h)
    // The battery-backed CHR-RAM rejection can never be reached.
    ensures r != Err(BatteryChrRamUnsupported)
    // Ranges that follow: 8-bit mapper numbers for iNES, 12 bits for NES 2.0.
    ensures r.Ok? ==>
              && r.value.mapperNum < 4096
              && (r.value.version == 1 ==> r.value.mapperNum < 256)
              && r.value.prgRomSize < 4096
              && r.value.chrRomSize < 4096
              && r.value.flags & 0x04 == 0
  {
    if h[..4] != SIGNATURE then Err(SignatureNotFound)
    else if h[7] & 0x0C == 0x04 then Err(DiskDudeCorruption)
    else if h[7] & 0x0C == 0x0C then Err(UnrecognizedFormat)
    else
      var prgRomSize := h[4] as bv16;
      var chrRomSize := h[5] as bv16;
      // upper nibble of byte 6 gives D0..D3, upper nibble of byte 7 gives D4..D7
      var mapperNum := (((h[6] & 0xF0) >> 4) | (h[7] & 0xF0)) as bv16;
      // lower nibble of byte 6 gives D0..D3, lower nibble of byte 7 gives D4..D7
      var flags := (h[6] & 0x0F) | ((h[7] & 0x0F) << 4);
      var nes2 := h[7] & 0x0C == FORMAT_NES2;
      var header :=
        if nes2 then
          INesHeader(
            version := 2,
            mapperNum := mapperNum | (((h[8] & 0x0F) as bv16) << 8),
            submapperNum := (h[8] & 0xF0) >> 4,
            flags := flags,
            prgRomSize := prgRomSize | (((h[9] & 0x0F) as bv16) << 8),
            chrRomSize := chrRomSize | (((h[9] & 0xF0) as bv16) << 4),
            prgRamSize := h[10],
            chrRamSize := h[11],
            tvMode := h[12],
            vsData := h[13])
        else
          INesHeader(1, mapperNum, 0, flags, prgRomSize, chrRomSize, 0, 0, 0, 0);
      var reserved: Option<HeaderError> :=
        if nes2 then
          if header.prgRamSize & 0x0F == 0x0F || header.prgRamSize & 0xF0 == 0xF0 then
            Some(InvalidPrgRamSize)
          else if header.chrRamSize & 0x0F == 0x0F || header.chrRamSize & 0xF0 == 0xF0 then
            Some(InvalidChrRamSize)
          else if header.chrRamSize & 0xF0 == 0xF0 then
            Some(BatteryChrRamUnsupported)
          else if h[14] > 0 || h[15] > 0 then
            Some(UnrecognizedDataAt14To15)
          else
            None
        else
          match FirstNonZero(h, 8)
          case Some(i) => Some(UnrecognizedDataAt(i))
          case None => None;
      if reserved.Some? then Err(reserved.value)
      else if flags & 0x04 == 0x04 then Err(TrainerUnsupported)
      else Ok(header)
  }

  /** iNES: the reserved-byte scan runs before the trainer check and names the first bad offset. */
  lemma InesReservedScan(h: seq<byte>)
    requires |h| == HEADER_SIZE
    ensures h[..4] == SIGNATURE && h[7] & 0x0C == 0 && (exists j :: 8 <= j < HEADER_SIZE && h[j] != 0)
            ==> FromBytes(h).Err? && FromBytes(h).error.UnrecognizedDataAt?
    ensures FromBytes(h).Err? && FromBytes(h).error.UnrecognizedDataAt? ==>
              var k := FromBytes(h).error.offset;
              && h[7] & 0x0C == 0 && 8 <= k < HEADER_SIZE && h[k] != 0
              && forall j :: 8 <= j < k ==> h[j] == 0
  {
  }

  /** The trainer is the reason for rejection exactly when it is the only thing wrong. */
  lemma TrainerRejected(h: seq<byte>)
    requires |h| == HEADER_SIZE
    ensures FromBytes(h) == Err(TrainerUnsupported) <==>
              h[..4] == SIGNATURE && KnownFormat(h) && ReservedClear(h) && h[6] & 0x04 != 0
  {
  }

  /**
   * Where each field of a decoded iNES header comes from: bank counts from
   * bytes 4 and 5, the mapper number from the high nibbles of bytes 6 and 7,
   * the flags from their low nibbles; every NES 2.0 field is zero.
   */
  lemma InesFieldLayout(h: seq<byte>)
    requires |h| == HEADER_SIZE
    requires FromBytes(h).Ok? && h[7] & 0x0C != FORMAT_NES2
    ensures
      var hdr := FromBytes(h).value;
      && hdr.version == 1
      && hdr.mapperNum & 0x0F == (h[6] >> 4) as bv16
      && hdr.mapperNum >> 4 == (h[7] >> 4) as bv16
      && hdr.prgRomSize == h[4] as bv16
      && hdr.chrRomSize == h[5] as bv16
      && hdr.flags & 0x0F == h[6] & 0x0F
      && hdr.flags >> 4 == h[7] & 0x0F
      && hdr.submapperNum == 0 && hdr.prgRamSize == 0 && hdr.chrRamSize == 0
      && hdr.tvMode == 0 && hdr.vsData == 0
  {
  }

  /**
   * Where each field of a decoded NES 2.0 header comes from: byte 8 adds
   * mapper bits 8-11 and the submapper, byte 9 adds bits 8-11 of both bank
   * counts (a plain linear extension), bytes 10-13 are kept raw.
   */
  lemma Nes2FieldLayout(h: seq<byte>)
    requires |h| == HEADER_SIZE
    requires FromBytes(h).Ok? && h[7] & 0x0C == FORMAT_NES2
    ensures
      var hdr := FromBytes(h).value;
      && hdr.version == 2
      && hdr.mapperNum & 0x0F == (h[6] >> 4) as bv16
      && (hdr.mapperNum >> 4) & 0x0F == (h[7] >> 4) as bv16
      && hdr.mapperNum >> 8 == (h[8] & 0x0F) as bv16
      && hdr.submapperNum == h[8] >> 4
      && hdr.prgRomSize & 0xFF == h[4] as bv16
      && hdr.prgRomSize >> 8 == (h[9] & 0x0F) as bv16
      && hdr.chrRomSize & 0xFF == h[5] as bv16
      && hdr.chrRomSize >> 8 == (h[9] >> 4) as bv16
      && hdr.flags & 0x0F == h[6] & 0x0F
      && hdr.flags >> 4 == h[7] & 0x0F
      && hdr.prgRamSize == h[10] && hdr.chrRamSize == h[11]
      && hdr.tvMode == h[12] && hdr.vsData == h[13]
  {
  }

  /** Why loading a ROM image fails. */
  datatype LoadError =
    | HeaderInvalid(cause: HeaderError)
    | UnexpectedEof     // a `read_exact` found the file too short

  /** The value a loaded cartridge holds: its header and its three buffers. */
  datatype Image = Image(header: INesHeader, prgRom: seq<byte>, chrRom: seq<byte>, prgRam: seq<byte>)

  function PrgRomBytes(header: INesHeader): nat {
    header.prgRomSize as nat * PRG_BANK_SIZE
  }

  function ChrRomBytes(header: INesHeader): nat {
    header.chrRomSize as nat * CHR_BANK_SIZE
  }

  /** The cartridge image a ROM file holds, or why it cannot be loaded. */
  function Load(file: seq<byte>): (r: Result<Image, LoadError>)
    // a file that loads holds every bank its header declares
    ensures r.Ok? ==> HEADER_SIZE + PrgRomBytes(r.value.header) + ChrRomBytes(r.value.header) <= |file|
  {
    if |file| < HEADER_SIZE then Err(UnexpectedEof)
    else
      match FromBytes(file[..HEADER_SIZE])
      case Err(e) => Err(HeaderInvalid(e))
      case Ok(header) =>
        var prgEnd := HEADER_SIZE + PrgRomBytes(header);
        var chrEnd := prgEnd + ChrRomBytes(header);
        if |file| < prgEnd || |file| < chrEnd then Err(UnexpectedEof)
        else
          var chrRom := if header.chrRomSize == 0 then Zeros(CHR_BANK_SIZE) else file[prgEnd..chrEnd];
          Ok(Image(header, file[HEADER_SIZE..prgEnd], chrRom, Zeros(PRG_RAM_SIZE)))
  }

  /**
   * When loading fails: a file shorter than the header, a header error
   * (passed on unchanged), or a file too short for the declared banks.
   */
  lemma LoadFailures(file: seq<byte>)
    ensures |file| < HEADER_SIZE ==> Load(file) == Err(UnexpectedEof)
    ensures |file| >= HEADER_SIZE && FromBytes(file[..HEADER_SIZE]).Err? ==>
              Load(file) == Err(HeaderInvalid(FromBytes(file[..HEADER_SIZE]).error))
    ensures |file| >= HEADER_SIZE && FromBytes(file[..HEADER_SIZE]).Ok? ==>
              var header := FromBytes(file[..HEADER_SIZE]).value;
              (Load(file).Ok? <==> HEADER_SIZE + PrgRomBytes(header) + ChrRomBytes(header) <= |file|)
    ensures |file| >= HEADER_SIZE && FromBytes(file[..HEADER_SIZE]).Ok? ==>
              var header := FromBytes(file[..HEADER_SIZE]).value;
              (|file| < HEADER_SIZE + PrgRomBytes(header) + ChrRomBytes(header) ==> Load(file) == Err(UnexpectedEof))
    ensures Load(file).Err? && Load(file).error.HeaderInvalid? ==>
              Load(file).error.cause != BatteryChrRamUnsupported
  {
  }

  /**
   * The geometry of a loaded image: PRG-ROM is the banks × 16 KiB bytes after
   * the header; CHR-ROM the banks × 8 KiB bytes after that, or a zeroed 8 KiB
   * CHR-RAM when there are no CHR banks; PRG-RAM is 8 KiB of zeros.
   */
  lemma LoadGeometry(file: seq<byte>)
    requires Load(file).Ok?
    ensures
      var img := Load(file).value;
      var prgEnd := HEADER_SIZE + |img.prgRom|;
      && |file| >= HEADER_SIZE
      && FromBytes(file[..HEADER_SIZE]) == Ok(img.header)
      && |img.prgRom| == PrgRomBytes(img.header)
      && prgEnd <= |file|
      && img.prgRom == file[HEADER_SIZE..prgEnd]
      && |img.chrRom| == (if img.header.chrRomSize > 0 then ChrRomBytes(img.header) else CHR_BANK_SIZE)
      && (img.header.chrRomSize > 0 ==>
            prgEnd + |img.chrRom| <= |file| && img.chrRom == file[prgEnd..prgEnd + |img.chrRom|])
      && (img.header.chrRomSize == 0 ==> img.chrRom == Zeros(CHR_BANK_SIZE))
      && img.prgRam == Zeros(PRG_RAM_SIZE)
  {
  }

  /** When the header decodes and the file holds every declared bank, the load succeeds. */
  lemma LoadSucceeds(file: seq<byte>, header: INesHeader)
    requires |file| >= HEADER_SIZE && FromBytes(file[..HEADER_SIZE]) == Ok(header)
    requires HEADER_SIZE + PrgRomBytes(header) + ChrRomBytes(header) <= |file|
    ensures
      var prgEnd := HEADER_SIZE + PrgRomBytes(header);
      var chrEnd := prgEnd + ChrRomBytes(header);
      var chrRom := if header.chrRomSize == 0 then Zeros(CHR_BANK_SIZE) else file[prgEnd..chrEnd];
      Load(file) == Ok(Image(header, file[HEADER_SIZE..prgEnd], chrRom, Zeros(PRG_RAM_SIZE)))
  {
  }

  /** Bytes after the declared PRG-ROM and CHR-ROM do not change what is loaded. */
  lemma LoadIgnoresTrailingBytes(file: seq<byte>, extra: seq<byte>)
    requires Load(file).Ok?
    ensures Load(file + extra) == Load(file)
  {
    var longer := file + extra;
    var header := Load(file).value.header;
    var prgEnd := HEADER_SIZE + PrgRomBytes(header);
    var chrEnd := prgEnd + ChrRomBytes(header);
    assert longer[..HEADER_SIZE] == file[..HEADER_SIZE];
    LoadSucceeds(file, header);
    LoadSucceeds(longer, header);
    assert longer[HEADER_SIZE..prgEnd] == file[HEADER_SIZE..prgEnd];
    assert longer[prgEnd..chrEnd] == file[prgEnd..chrEnd];
  }

  /**
   * Both high nibbles of bytes 6 and 7 enter the mapper number: 0x10 in each
   * gives mapper 0x11, not 1.
   */
  lemma MapperFromBothHighNibbles()
    ensures FromBytes([0x4E, 0x45, 0x53, 0x1A, 0, 0, 0x10, 0x10, 0, 0, 0, 0, 0, 0, 0, 0]).Ok?
    ensures FromBytes([0x4E, 0x45, 0x53, 0x1A, 0, 0, 0x10, 0x10, 0, 0, 0, 0, 0, 0, 0, 0]).value.mapperNum == 0x11
  {
  }

  /**
   * The Metroid image of the cartridge tests: 8 PRG-ROM banks, no CHR-ROM,
   * mapper 1, mirroring bit clear, no battery. It loads with 128 KiB of
   * PRG-ROM and a zeroed 8 KiB CHR-RAM, whatever follows the banks.
   */
  lemma MetroidLoads(prg: seq<byte>, rest: seq<byte>)
    requires |prg| == 8 * PRG_BANK_SIZE
    ensures
      var file := [0x4E, 0x45, 0x53, 0x1A, 8, 0, 0x10, 0, 0, 0, 0, 0, 0, 0, 0, 0] + prg + rest;
      && Load(file).Ok?
      && Load(file).value.header.version == 1
      && Load(file).value.header.mapperNum == 1
      && Load(file).value.header.prgRomSize == 8 && Load(file).value.header.chrRomSize == 0
      && Load(file).value.header.flags & 0x01 == 0 && Load(file).value.header.flags & 0x02 == 0
      && Load(file).value.prgRom == prg && |prg| == 131072
      && Load(file).value.chrRom == Zeros(CHR_BANK_SIZE)
  {
    var header: seq<byte> := [0x4E, 0x45, 0x53, 0x1A, 8, 0, 0x10, 0, 0, 0, 0, 0, 0, 0, 0, 0];
    var file := header + prg + rest;
    assert file[..HEADER_SIZE] == header;
    assert file[HEADER_SIZE..HEADER_SIZE + |prg|] == prg;
  }

  /** A header declaring two PRG-ROM banks followed by only one bank's worth of data fails to load. */
  lemma TruncatedPrgRomFails(h: seq<byte>, data: seq<byte>)
    requires |h| == HEADER_SIZE && FromBytes(h).Ok? && FromBytes(h).value.prgRomSize == 2
    requires |data| == PRG_BANK_SIZE
    ensures Load(h + data) == Err(UnexpectedEof)
  {
    assert (h + data)[..HEADER_SIZE] == h;
  }

  /** A loaded cartridge. The mapper later writes into `chrRom` (as CHR-RAM) and `prgRam`. */
  class Cartridge {
    var header: INesHeader
    var prgRom: array<byte>
    var prgRam: array<byte>
    var chrRom: array<byte>

    constructor (header: INesHeader, prgRom: array<byte>, chrRom: array<byte>, prgRam: array<byte>)
      ensures this.header == header
      ensures this.prgRom == prgRom && this.chrRom == chrRom && this.prgRam == prgRam
    {
      this.header := header;
      this.prgRom := prgRom;
      this.chrRom := chrRom;
      this.prgRam := prgRam;
    }

    ghost function Contents(): Image
      reads this, prgRom, chrRom, prgRam
    {
      Image(header, prgRom[..], chrRom[..], prgRam[..])
    }
  }

  /**
   * `read_exact`: fills `buf` with the next `buf.Length` bytes of the file,
   * or reports that the file ends first.
   */
  method ReadExact(file: seq<byte>, pos: nat, buf: array<byte>) returns (ok: bool, next: nat)
    modifies buf
    ensures ok <==> pos + buf.Length <= |file|
    ensures ok ==> next == pos + buf.Length && buf[..] == file[pos..next]
  {
    ok := pos + buf.Length <= |file|;
    if ok {
      forall i | 0 <= i < buf.Length {
        buf[i] := file[pos + i];
      }
      next := pos + buf.Length;
    } else {
      next := |file|;
    }
  }

  /**
   * Allocates the PRG-ROM and CHR-ROM buffers the header declares and fills
   * them from the file at `pos`; an empty CHR-ROM is replaced by 8 KiB of
   * zeroed CHR-RAM.
   */
  method ReadBanks(file: seq<byte>, pos: nat, header: INesHeader)
    returns (ok: bool, prgRom: array<byte>, chrRom: array<byte>)
    ensures fresh(prgRom) && fresh(chrRom) && prgRom != chrRom
    ensures ok <==> pos + PrgRomBytes(header) + ChrRomBytes(header) <= |file|
    ensures ok ==>
              var prgEnd := pos + PrgRomBytes(header);
              && prgRom[..] == file[pos..prgEnd]
              && chrRom[..] == if header.chrRomSize == 0 then Zeros(CHR_BANK_SIZE)
                               else file[prgEnd..prgEnd + ChrRomBytes(header)]
  {
    var next: nat;
    prgRom := new byte[PrgRomBytes(header)](_ => 0);
    ok, next := ReadExact(file, pos, prgRom);
    if !ok {
      chrRom := new byte[0];
      return;
    }

    chrRom := new byte[ChrRomBytes(header)](_ => 0);
    ok, next := ReadExact(file, next, chrRom);
    if !ok {
      return;
    }

    if header.chrRomSize == 0 {
      chrRom := new byte[CHR_BANK_SIZE](_ => 0);
      assert chrRom[..] == Zeros(CHR_BANK_SIZE);
    }
  }

  /** Loads a cartridge from the contents of a `.nes` file. */
  method FromRom(file: seq<byte>) returns (r: Result<Cartridge, LoadError>)
    ensures r.Err? <==> Load(file).Err?
    ensures r.Err? ==> r.error == Load(file).error
    ensures r.Ok? ==>
              && fresh(r.value) && fresh(r.value.prgRom) && fresh(r.value.chrRom) && fresh(r.value.prgRam)
              && r.value.prgRom != r.value.chrRom && r.value.prgRom != r.value.prgRam
              && r.value.chrRom != r.value.prgRam
              && r.value.Contents() == Load(file).value
  {
    var pos: nat := 0;
    var ok: bool;

    var raw := new byte[HEADER_SIZE](_ => 0);
    ok, pos := ReadExact(file, pos, raw);
    if !ok {
      return Err(UnexpectedEof);
    }
    assert raw[..] == file[..HEADER_SIZE];
    var decoded := FromBytes(raw[..]);
    if decoded.Err? {
      return Err(HeaderInvalid(decoded.error));
    }
    var header := decoded.value;

    var prgRom, chrRom;
    ok, prgRom, chrRom := ReadBanks(file, pos, header);
    if !ok {
      LoadFailures(file);
      return Err(UnexpectedEof);
    }

    var prgRam := new byte[PRG_RAM_SIZE](_ => 0);
    assert prgRam[..] == Zeros(PRG_RAM_SIZE);
    LoadSucceeds(file, header);

    var cartridge := new Cartridge(header, prgRom, chrRom, prgRam);
    r := Ok(cartridge);
  }
}
