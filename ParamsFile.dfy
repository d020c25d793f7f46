/**
 * The parameter files: the tool's own `.rfx` format, which it reads and
 * writes, and the legacy sfxr `.sfs` format, which it only reads.
 *
 * A file is a byte sequence; `None` stands for a file that cannot be opened.
 * Each loader is modelled twice: as a specification function that says where
 * in the file each field comes from, and as a method that advances a read
 * cursor one `fread` at a time, as the tool does, proved to agree with it.
 */
module ParamsFile {
  import opened Wrappers
  import opened Bytes
  import opened Params

  /** The record as it sits in memory: every float field as its 32-bit pattern. */
  type ParamsImage = WaveParams<Word>

  /** The all-zero record (`WaveParams params = { 0 }`). */
  const Zero: ParamsImage := WaveParams(0, 0, 0, 0, 0, 0, 0, 0, 0, 0, 0, 0, 0, 0, 0, 0, 0, 0, 0, 0, 0, 0, 0, 0)

  /** The record's 24 words in memory order. */
  function Words(p: ParamsImage): (ws: seq<Word>)
    ensures |ws| == 24
  {
    [Unsigned(p.randSeed), Unsigned(p.waveTypeValue)] + p.Floats()
  }

  function FromWords(ws: seq<Word>): (p: ParamsImage)
    requires |ws| == 24
    ensures Words(p) == ws
  {
    UnsignedSigned(ws[0]);
    UnsignedSigned(ws[1]);
    FromFloats(Signed(ws[0]), Signed(ws[1]), ws[2..])
  }

  /** The 96 bytes of the record (`sizeof(WaveParams)`). */
  function Image(p: ParamsImage): (bs: seq<Byte>)
    ensures |bs| == 96
  {
    Flatten(Words(p))
  }

  /** The record whose memory holds `bs`. */
  function FromImage(bs: seq<Byte>): (p: ParamsImage)
    requires |bs| == 96
    ensures Words(p) == Chunks(bs)
  {
    FromWords(Chunks(bs))
  }

  lemma FromImageImage(p: ParamsImage)
    ensures FromImage(Image(p)) == p
  {
    ChunksFlatten(Words(p));
    assert Words(FromImage(Image(p))) == Words(p);
    assert FromImage(Image(p)).Floats() == p.Floats();
  }

  lemma ImageZero()
    ensures Image(Zero) == Zeros(96)
  {
    FlattenZeros(Words(Zero));
  }

  /* ---------------------------------------------------------------- .rfx */

  /** "rFX ", the four bytes that open an `.rfx` file. */
  const Signature: seq<Byte> := [0x72, 0x46, 0x58, 0x20]
  /** The one version the tool writes and reads back. */
  const RfxVersion: Word := 120
  /** A version the tool recognises and refuses. */
  const OldRfxVersion: Int32 := 100

  /** Which loader the file name's extension selects. */
  datatype FileKind = Sfs | Rfx | Other

  /**
   * SaveWaveParams: for an `.rfx` name, the signature, the version as a
   * 4-byte unsigned word and then the record's memory image; any other
   * name is not written.
   */
  function SaveWaveParams(kind: FileKind, p: ParamsImage): (file: Option<seq<Byte>>)
    ensures file.Some? <==> kind == Rfx
    ensures file.Some? ==> |file.value| == 8 + 96
    ensures file.Some? ==> file.value[..4] == Signature && WordOf(file.value[4..8]) == RfxVersion
    ensures file.Some? ==> Chunks(file.value[8..]) == Words(p)
  {
    if kind == Rfx then
      var bytes := Signature + WordBytes(RfxVersion) + Image(p);
      WordOfWordBytes(RfxVersion);
      ChunksFlatten(Words(p));
      assert bytes[8..] == Image(p);
      Some(bytes)
    else None
  }

  /**
   * What the `.rfx` branch of LoadWaveParams returns: the record stored after
   * the header when the file opens with the signature and version 120, and the
   * all-zero record otherwise. Bytes past the end of the file are not read: the
   * record keeps zeros there, and the (uninitialised) header buffers are taken
   * to hold zeros too.
   */
  function RfxContents(file: seq<Byte>): (p: ParamsImage)
    ensures |file| <= 4 ==> p == Zero
    ensures p != Zero ==> file[..4] == Signature && Signed(WordAt(file, 4)) == RfxVersion as int
  {
    var signature := Window(file, 0, Zeros(4));
    var version := Signed(WordAt(file, 4));
    if signature == Signature && version == RfxVersion as int then
      FromImage(Window(file, 8, Zeros(96)))
    else
      Zero
  }

  /** The `.rfx` file the tool writes loads back as the record that was saved. */
  lemma RfxRoundTrip(p: ParamsImage)
    ensures RfxContents(SaveWaveParams(Rfx, p).value) == p
  {
    var file := SaveWaveParams(Rfx, p).value;
    assert Window(file, 8, Zeros(96)) == file[8..];
    assert file[8..] == Image(p);
    FromImageImage(p);
  }

  /**
   * A wrong signature, or any version but 120 (the refused 100 included), loads
   * as the all-zero record; so does a file that ends before the record starts.
   */
  lemma RfxRejects(file: seq<Byte>)
    ensures 8 <= |file| && (file[..4] != Signature || Signed(WordOf(file[4..8])) != RfxVersion as int)
      ==> RfxContents(file) == Zero
    ensures |file| <= 8 ==> RfxContents(file) == Zero
  {
    if |file| <= 8 {
      ImageZero();
      FromImageImage(Zero);
    }
  }

  /**
   * A saved file cut short after `n` bytes still loads: the words it holds
   * completely come back as saved, and the words it lost entirely read as 0.
   */
  lemma RfxTruncated(p: ParamsImage, n: nat, j: nat)
    requires 8 <= n <= 8 + 96 && j < 24
    ensures 8 + 4 * j + 4 <= n ==> Words(RfxContents(SaveWaveParams(Rfx, p).value[..n]))[j] == Words(p)[j]
    ensures n <= 8 + 4 * j ==> Words(RfxContents(SaveWaveParams(Rfx, p).value[..n]))[j] == 0
  {
    var file := SaveWaveParams(Rfx, p).value[..n];
    var bs := Window(file, 8, Zeros(96));
    TruncatedHeader(p, n);
    ChunksAt(bs, j);
    var slot := bs[4 * j..4 * j + 4];
    if 8 + 4 * j + 4 <= n {
      TruncatedSlot(p, n, j);
      WordOfWordBytes(Words(p)[j]);
    } else if n <= 8 + 4 * j {
      assert slot == Zeros(4);
    }
  }

  /** A saved file cut after its header still passes the header checks. */
  lemma TruncatedHeader(p: ParamsImage, n: nat)
    requires 8 <= n <= 8 + 96
    ensures var file := SaveWaveParams(Rfx, p).value[..n];
      RfxContents(file) == FromImage(Window(file, 8, Zeros(96)))
  {
    var saved := SaveWaveParams(Rfx, p).value;
    var file := saved[..n];
    assert saved == Signature + WordBytes(RfxVersion) + Image(p);
    assert file[4..8] == WordBytes(RfxVersion);
    WordOfWordBytes(RfxVersion);
  }

  /** A word the cut file holds completely is read from the saved image. */
  lemma TruncatedSlot(p: ParamsImage, n: nat, j: nat)
    requires 8 <= n <= 8 + 96 && j < 24 && 8 + 4 * j + 4 <= n
    ensures Window(SaveWaveParams(Rfx, p).value[..n], 8, Zeros(96))[4 * j..4 * j + 4] == WordBytes(Words(p)[j])
  {
    var saved := SaveWaveParams(Rfx, p).value;
    var header, image := Signature + WordBytes(RfxVersion), Image(p);
    assert saved == header + image && |header| == 8;
    var w := Window(saved[..n], 8, Zeros(96));
    var got, stored := w[4 * j..4 * j + 4], image[4 * j..4 * j + 4];
    forall k | 0 <= k < 4
      ensures got[k] == stored[k]
    {
      var file := saved[..n];
      assert got[k] == w[4 * j + k];
      assert 8 + (4 * j + k) < |file|;
      assert w[4 * j + k] == file[8 + (4 * j + k)];
    }
    assert got == stored;
    FlattenAt(Words(p), j);
  }

  /** The bytes `fread` would place into a buffer holding `fill`, and where the cursor ends. */
  method Read(file: seq<Byte>, pos: nat, fill: seq<Byte>) returns (bytes: seq<Byte>, next: nat)
    ensures bytes == Window(file, pos, fill) && next == pos + |fill|
    ensures pos + |fill| <= |file| ==> bytes == file[pos..next]
    ensures |file| <= pos ==> bytes == fill
    ensures pos <= |file| <= next ==> bytes == file[pos..] + fill[|file| - pos..]
  {
    bytes := Window(file, pos, fill);
    next := pos + |fill|;
  }

  /** `fread(&x, 1, 4, file)` into a 4-byte variable whose bit pattern is `prior`. */
  method ReadWord(file: seq<Byte>, pos: nat, prior: Word) returns (w: Word, next: nat)
    ensures w == Overlay(file, pos, prior) && next == pos + 4
  {
    var bytes;
    bytes, next := Read(file, pos, WordBytes(prior));
    w := WordOf(bytes);
  }

  /** The `.rfx` branch of LoadWaveParams for a file that opens. */
  method LoadRfx(file: seq<Byte>) returns (params: ParamsImage)
    ensures params == RfxContents(file)
  {
    params := Zero;
    var pos := 0;
    var signature;
    signature, pos := Read(file, pos, Zeros(4));
    if signature == Signature {
      var version;
      version, pos := ReadWord(file, pos, 0);
      if Signed(version) == OldRfxVersion {
        // refused with a message; the record stays zero
      } else if Signed(version) == RfxVersion as int {
        var image;
        ImageZero();
        image, pos := Read(file, pos, Image(params));
        params := FromImage(image);
      }
    }
  }

  /* ---------------------------------------------------------------- .sfs */

  /** The sfxr versions the reader accepts. */
  predicate SfsVersion(version: int)
  {
    version == 100 || version == 101 || version == 102
  }

  /** The volume an `.sfs` file that does not store one sets: 0.5f. */
  const HalfVolume: Word := 0x3F00_0000

  /** The word index of the frequency block: after the version, the wave type and, from version 102 on, the volume. */
  function FrequencyIndex(version: int): nat
  {
    if version == 102 then 3 else 2
  }

  /** The word index of the duty block: after start, min and slide, and from version 101 on the delta slide. */
  function DutyIndex(version: int): nat
  {
    FrequencyIndex(version) + (if version >= 101 then 4 else 3)
  }

  function FrequencyOffset(version: int): nat
  {
    4 * FrequencyIndex(version)
  }

  function DutyOffset(version: int): nat
  {
    4 * DutyIndex(version)
  }

  /**
   * Where the filter block starts: after duty, duty sweep, vibrato depth and
   * speed, the discarded vibrato phase delay, attack, sustain, decay, punch
   * (9 words) and the discarded one-byte filterOn flag.
   */
  function FilterOffset(version: int): nat
  {
    DutyOffset(version) + 9 * 4 + 1
  }

  /** A loaded record together with the global volume afterwards. */
  datatype Loaded = Loaded(params: ParamsImage, volume: Word)

  /**
   * What the `.sfs` branch of LoadWaveParams returns for a file that opens,
   * and what it leaves in the global volume, which held `volume` before.
   */
  function SfsContents(file: seq<Byte>, volume: Word): Loaded
  {
    var version := Signed(WordAt(file, 0));
    if !SfsVersion(version) then Loaded(Zero, volume)
    else
      var f, d, q := FrequencyOffset(version), DutyOffset(version), FilterOffset(version);
      var extended := version >= 101;
      var params := Zero.(
        waveTypeValue := Signed(WordAt(file, 4)),
        startFrequencyValue := WordAt(file, f),
        minFrequencyValue := WordAt(file, f + 4),
        slideValue := WordAt(file, f + 8),
        deltaSlideValue := if extended then WordAt(file, f + 12) else 0,
        squareDutyValue := WordAt(file, d),
        dutySweepValue := WordAt(file, d + 4),
        vibratoDepthValue := WordAt(file, d + 8),
        vibratoSpeedValue := WordAt(file, d + 12),
        attackTimeValue := WordAt(file, d + 20),
        sustainTimeValue := WordAt(file, d + 24),
        decayTimeValue := WordAt(file, d + 28),
        sustainPunchValue := WordAt(file, d + 32),
        lpfResonanceValue := WordAt(file, q),
        lpfCutoffValue := WordAt(file, q + 4),
        lpfCutoffSweepValue := WordAt(file, q + 8),
        hpfCutoffValue := WordAt(file, q + 12),
        hpfCutoffSweepValue := WordAt(file, q + 16),
        phaserOffsetValue := WordAt(file, q + 20),
        phaserSweepValue := WordAt(file, q + 24),
        repeatSpeedValue := WordAt(file, q + 28),
        changeSpeedValue := if extended then WordAt(file, q + 32) else 0,
        changeAmountValue := if extended then WordAt(file, q + 36) else 0);
      Loaded(params, if version == 102 then Overlay(file, 8, HalfVolume) else HalfVolume)
  }

  /**
   * The words of an sfxr file of the given version up to the one-byte filterOn
   * flag: the version, the wave type, the volume (from 102 on), the frequency
   * block (with the delta slide from 101 on), duty and vibrato with the vibrato
   * phase delay, and the envelope.
   */
  function SfsHead(version: Int32, p: ParamsImage, volume: Word, phaseDelay: Word): seq<Word>
  {
    SfsHeader(version, p, volume) + SfsFrequencyWords(version, p) + SfsDutyWords(p, phaseDelay)
  }

  function SfsHeader(version: Int32, p: ParamsImage, volume: Word): seq<Word>
  {
    [Unsigned(version), Unsigned(p.waveTypeValue)] + (if version == 102 then [volume] else [])
  }

  function SfsFrequencyWords(version: Int32, p: ParamsImage): seq<Word>
  {
    [p.startFrequencyValue, p.minFrequencyValue, p.slideValue] + (if version >= 101 then [p.deltaSlideValue] else [])
  }

  function SfsDutyWords(p: ParamsImage, phaseDelay: Word): seq<Word>
  {
    [p.squareDutyValue, p.dutySweepValue, p.vibratoDepthValue, p.vibratoSpeedValue, phaseDelay,
     p.attackTimeValue, p.sustainTimeValue, p.decayTimeValue, p.sustainPunchValue]
  }

  /** The words after the filterOn flag: filters, phaser, repeat and (from 101 on) the tone change. */
  function SfsTail(version: Int32, p: ParamsImage): seq<Word>
  {
    SfsFilterWords(p) + (if version >= 101 then [p.changeSpeedValue, p.changeAmountValue] else [])
  }

  function SfsFilterWords(p: ParamsImage): seq<Word>
  {
    [p.lpfResonanceValue, p.lpfCutoffValue, p.lpfCutoffSweepValue, p.hpfCutoffValue, p.hpfCutoffSweepValue,
     p.phaserOffsetValue, p.phaserSweepValue, p.repeatSpeedValue]
  }

  /** An sfxr file as the sfxr tool writes it. */
  function SfsFile(version: Int32, p: ParamsImage, volume: Word, phaseDelay: Word, filterOn: Byte): seq<Byte>
  {
    Flatten(SfsHead(version, p, volume, phaseDelay)) + [filterOn] + Flatten(SfsTail(version, p))
  }

  /** The record an sfxr file of the given version can carry: no seed, and no delta slide or tone change before 101. */
  function SfsFields(version: int, p: ParamsImage): ParamsImage
  {
    var extended := version >= 101;
    p.(randSeed := 0,
       deltaSlideValue := if extended then p.deltaSlideValue else 0,
       changeSpeedValue := if extended then p.changeSpeedValue else 0,
       changeAmountValue := if extended then p.changeAmountValue else 0)
  }

  /** Word `j` before the filterOn flag sits at byte 4j. */
  lemma SfsHeadAt(version: Int32, p: ParamsImage, volume: Word, phaseDelay: Word, filterOn: Byte, j: nat)
    requires j < |SfsHead(version, p, volume, phaseDelay)|
    ensures WordAt(SfsFile(version, p, volume, phaseDelay, filterOn), 4 * j) == SfsHead(version, p, volume, phaseDelay)[j]
  {
    var head, tail := SfsHead(version, p, volume, phaseDelay), SfsTail(version, p);
    assert SfsFile(version, p, volume, phaseDelay, filterOn) == [] + Flatten(head) + ([filterOn] + Flatten(tail));
    WordAtFlatten([], head, [filterOn] + Flatten(tail), j);
  }

  /** Word `j` after the filterOn flag sits at byte FilterOffset + 4j. */
  lemma SfsTailAt(version: Int32, p: ParamsImage, volume: Word, phaseDelay: Word, filterOn: Byte, j: nat)
    requires SfsVersion(version) && j < |SfsTail(version, p)|
    ensures WordAt(SfsFile(version, p, volume, phaseDelay, filterOn), FilterOffset(version) + 4 * j) == SfsTail(version, p)[j]
  {
    var head, tail := SfsHead(version, p, volume, phaseDelay), SfsTail(version, p);
    var pre := Flatten(head) + [filterOn];
    assert |pre| == FilterOffset(version);
    assert SfsFile(version, p, volume, phaseDelay, filterOn) == pre + Flatten(tail) + [];
    WordAtFlatten(pre, tail, [], j);
  }

  /** The words at the offsets the reader uses hold the fields of `p` that the version stores. */
  predicate Stores(file: seq<Byte>, version: Int32, p: ParamsImage, volume: Word)
    requires SfsVersion(version)
  {
    && Signed(WordAt(file, 0)) == version && Signed(WordAt(file, 4)) == p.waveTypeValue
    && (version == 102 ==> 12 <= |file| && WordAt(file, 8) == volume)
    && StoresFrequency(file, version, p) && StoresDuty(file, version, p) && StoresFilter(file, version, p)
  }

  predicate StoresFrequency(file: seq<Byte>, version: Int32, p: ParamsImage)
  {
    var f := FrequencyOffset(version);
    && WordAt(file, f) == p.startFrequencyValue && WordAt(file, f + 4) == p.minFrequencyValue
    && WordAt(file, f + 8) == p.slideValue
    && (version >= 101 ==> WordAt(file, f + 12) == p.deltaSlideValue)
  }

  predicate StoresDuty(file: seq<Byte>, version: Int32, p: ParamsImage)
  {
    var d := DutyOffset(version);
    && WordAt(file, d) == p.squareDutyValue && WordAt(file, d + 4) == p.dutySweepValue
    && WordAt(file, d + 8) == p.vibratoDepthValue && WordAt(file, d + 12) == p.vibratoSpeedValue
    && WordAt(file, d + 20) == p.attackTimeValue && WordAt(file, d + 24) == p.sustainTimeValue
    && WordAt(file, d + 28) == p.decayTimeValue && WordAt(file, d + 32) == p.sustainPunchValue
  }

  predicate StoresFilter(file: seq<Byte>, version: Int32, p: ParamsImage)
  {
    var q := FilterOffset(version);
    && WordAt(file, q) == p.lpfResonanceValue && WordAt(file, q + 4) == p.lpfCutoffValue
    && WordAt(file, q + 8) == p.lpfCutoffSweepValue && WordAt(file, q + 12) == p.hpfCutoffValue
    && WordAt(file, q + 16) == p.hpfCutoffSweepValue && WordAt(file, q + 20) == p.phaserOffsetValue
    && WordAt(file, q + 24) == p.phaserSweepValue && WordAt(file, q + 28) == p.repeatSpeedValue
    && (version >= 101 ==> WordAt(file, q + 32) == p.changeSpeedValue && WordAt(file, q + 36) == p.changeAmountValue)
  }

  lemma SfsFileStores(version: Int32, p: ParamsImage, volume: Word, phaseDelay: Word, filterOn: Byte)
    requires SfsVersion(version)
    ensures Stores(SfsFile(version, p, volume, phaseDelay, filterOn), version, p, volume)
  {
    FileStoresHeader(version, p, volume, phaseDelay, filterOn);
    FileStoresFrequency(version, p, volume, phaseDelay, filterOn);
    FileStoresDuty(version, p, volume, phaseDelay, filterOn);
    FileStoresFilter(version, p, volume, phaseDelay, filterOn);
  }

  lemma FileStoresHeader(version: Int32, p: ParamsImage, volume: Word, phaseDelay: Word, filterOn: Byte)
    requires SfsVersion(version)
    ensures var file := SfsFile(version, p, volume, phaseDelay, filterOn);
      && Signed(WordAt(file, 0)) == version && Signed(WordAt(file, 4)) == p.waveTypeValue
      && (version == 102 ==> 12 <= |file| && WordAt(file, 8) == volume)
  {
    SfsHeadAt(version, p, volume, phaseDelay, filterOn, 0);
    SfsHeadAt(version, p, volume, phaseDelay, filterOn, 1);
    if version == 102 {
      SfsHeadAt(version, p, volume, phaseDelay, filterOn, 2);
    }
  }

  lemma FileStoresFrequency(version: Int32, p: ParamsImage, volume: Word, phaseDelay: Word, filterOn: Byte)
    requires SfsVersion(version)
    ensures StoresFrequency(SfsFile(version, p, volume, phaseDelay, filterOn), version, p)
  {
    var file, head := SfsFile(version, p, volume, phaseDelay, filterOn), SfsHead(version, p, volume, phaseDelay);
    forall j | 0 <= j < |head|
      ensures WordAt(file, 4 * j) == head[j]
    {
      SfsHeadAt(version, p, volume, phaseDelay, filterOn, j);
    }
    HeadStoresFrequency(file, version, p, volume, phaseDelay);
  }

  lemma FileStoresDuty(version: Int32, p: ParamsImage, volume: Word, phaseDelay: Word, filterOn: Byte)
    requires SfsVersion(version)
    ensures StoresDuty(SfsFile(version, p, volume, phaseDelay, filterOn), version, p)
  {
    var file, head := SfsFile(version, p, volume, phaseDelay, filterOn), SfsHead(version, p, volume, phaseDelay);
    forall j | 0 <= j < |head|
      ensures WordAt(file, 4 * j) == head[j]
    {
      SfsHeadAt(version, p, volume, phaseDelay, filterOn, j);
    }
    HeadStoresDuty(file, version, p, volume, phaseDelay);
  }

  lemma FileStoresFilter(version: Int32, p: ParamsImage, volume: Word, phaseDelay: Word, filterOn: Byte)
    requires SfsVersion(version)
    ensures StoresFilter(SfsFile(version, p, volume, phaseDelay, filterOn), version, p)
  {
    var file, tail := SfsFile(version, p, volume, phaseDelay, filterOn), SfsTail(version, p);
    forall j | 0 <= j < |tail|
      ensures WordAt(file, FilterOffset(version) + 4 * j) == tail[j]
    {
      SfsTailAt(version, p, volume, phaseDelay, filterOn, j);
    }
    TailStoresFilter(file, version, p);
  }

  lemma HeadStoresFrequency(file: seq<Byte>, version: Int32, p: ParamsImage, volume: Word, phaseDelay: Word)
    requires SfsVersion(version)
    requires forall j | 0 <= j < |SfsHead(version, p, volume, phaseDelay)| ::
      WordAt(file, 4 * j) == SfsHead(version, p, volume, phaseDelay)[j]
    ensures StoresFrequency(file, version, p)
  {
    var head := SfsHead(version, p, volume, phaseDelay);
    var h := FrequencyIndex(version);
    assert WordAt(file, 4 * h) == head[h] && WordAt(file, 4 * (h + 1)) == head[h + 1];
    assert WordAt(file, 4 * (h + 2)) == head[h + 2];
    if version >= 101 {
      assert WordAt(file, 4 * (h + 3)) == head[h + 3];
    }
  }

  lemma HeadStoresDuty(file: seq<Byte>, version: Int32, p: ParamsImage, volume: Word, phaseDelay: Word)
    requires SfsVersion(version)
    requires forall j | 0 <= j < |SfsHead(version, p, volume, phaseDelay)| ::
      WordAt(file, 4 * j) == SfsHead(version, p, volume, phaseDelay)[j]
    ensures StoresDuty(file, version, p)
  {
    HeadStoresVibrato(file, version, p, volume, phaseDelay);
    HeadStoresEnvelope(file, version, p, volume, phaseDelay);
  }

  lemma HeadStoresVibrato(file: seq<Byte>, version: Int32, p: ParamsImage, volume: Word, phaseDelay: Word)
    requires SfsVersion(version)
    requires forall j | 0 <= j < |SfsHead(version, p, volume, phaseDelay)| ::
      WordAt(file, 4 * j) == SfsHead(version, p, volume, phaseDelay)[j]
    ensures var d := DutyOffset(version);
      && WordAt(file, d) == p.squareDutyValue && WordAt(file, d + 4) == p.dutySweepValue
      && WordAt(file, d + 8) == p.vibratoDepthValue && WordAt(file, d + 12) == p.vibratoSpeedValue
  {
    var head := SfsHead(version, p, volume, phaseDelay);
    var e := DutyIndex(version);
    assert WordAt(file, 4 * e) == head[e] && WordAt(file, 4 * (e + 1)) == head[e + 1];
    assert WordAt(file, 4 * (e + 2)) == head[e + 2] && WordAt(file, 4 * (e + 3)) == head[e + 3];
  }

  lemma HeadStoresEnvelope(file: seq<Byte>, version: Int32, p: ParamsImage, volume: Word, phaseDelay: Word)
    requires SfsVersion(version)
    requires forall j | 0 <= j < |SfsHead(version, p, volume, phaseDelay)| ::
      WordAt(file, 4 * j) == SfsHead(version, p, volume, phaseDelay)[j]
    ensures var d := DutyOffset(version);
      && WordAt(file, d + 20) == p.attackTimeValue && WordAt(file, d + 24) == p.sustainTimeValue
      && WordAt(file, d + 28) == p.decayTimeValue && WordAt(file, d + 32) == p.sustainPunchValue
  {
    var head := SfsHead(version, p, volume, phaseDelay);
    var e := DutyIndex(version);
    assert WordAt(file, 4 * (e + 5)) == head[e + 5] && WordAt(file, 4 * (e + 6)) == head[e + 6];
    assert WordAt(file, 4 * (e + 7)) == head[e + 7] && WordAt(file, 4 * (e + 8)) == head[e + 8];
  }

  lemma TailStoresFilter(file: seq<Byte>, version: Int32, p: ParamsImage)
    requires SfsVersion(version)
    requires forall j | 0 <= j < |SfsTail(version, p)| ::
      WordAt(file, FilterOffset(version) + 4 * j) == SfsTail(version, p)[j]
    ensures StoresFilter(file, version, p)
  {
    var tail, q := SfsTail(version, p), FilterOffset(version);
    forall j | 0 <= j < 8
      ensures WordAt(file, q + 4 * j) == SfsFilterWords(p)[j]
    {
      assert tail[j] == SfsFilterWords(p)[j];
    }
    FilterWordsStored(file, q, p);
    if version >= 101 {
      assert WordAt(file, q + 4 * 8) == tail[8] && WordAt(file, q + 4 * 9) == tail[9];
    }
  }

  lemma FilterWordsStored(file: seq<Byte>, q: nat, p: ParamsImage)
    requires forall j | 0 <= j < 8 :: WordAt(file, q + 4 * j) == SfsFilterWords(p)[j]
    ensures && WordAt(file, q) == p.lpfResonanceValue && WordAt(file, q + 4) == p.lpfCutoffValue
      && WordAt(file, q + 8) == p.lpfCutoffSweepValue && WordAt(file, q + 12) == p.hpfCutoffValue
      && WordAt(file, q + 16) == p.hpfCutoffSweepValue && WordAt(file, q + 20) == p.phaserOffsetValue
      && WordAt(file, q + 24) == p.phaserSweepValue && WordAt(file, q + 28) == p.repeatSpeedValue
  {
    var words := SfsFilterWords(p);
    assert WordAt(file, q + 4 * 0) == words[0] && WordAt(file, q + 4 * 1) == words[1];
    assert WordAt(file, q + 4 * 2) == words[2] && WordAt(file, q + 4 * 3) == words[3];
    assert WordAt(file, q + 4 * 4) == words[4] && WordAt(file, q + 4 * 5) == words[5];
    assert WordAt(file, q + 4 * 6) == words[6] && WordAt(file, q + 4 * 7) == words[7];
  }

  /** A file that stores `p` at the reader's offsets loads as the fields of `p` that the version carries. */
  lemma SfsContentsStored(file: seq<Byte>, version: Int32, p: ParamsImage, volume: Word, prior: Word)
    requires SfsVersion(version) && Stores(file, version, p, volume)
    ensures SfsContents(file, prior) == Loaded(SfsFields(version, p), if version == 102 then volume else HalfVolume)
  {
  }

  /**
   * Reading an sfxr file recovers every field that version stores, skipping
   * the discarded phase delay and filterOn byte whatever they hold, and sets
   * the volume to the stored one at 102 and to 0.5 before.
   */
  lemma SfsRoundTrip(version: Int32, p: ParamsImage, volume: Word, phaseDelay: Word, filterOn: Byte, prior: Word)
    requires SfsVersion(version)
    ensures SfsContents(SfsFile(version, p, volume, phaseDelay, filterOn), prior)
         == Loaded(SfsFields(version, p), if version == 102 then volume else HalfVolume)
  {
    SfsFileStores(version, p, volume, phaseDelay, filterOn);
    SfsContentsStored(SfsFile(version, p, volume, phaseDelay, filterOn), version, p, volume, prior);
  }

  /** The `.sfs` branch of LoadWaveParams for a file that opens. */
  method LoadSfs(file: seq<Byte>, volume: Word) returns (params: ParamsImage, vol: Word)
    ensures Loaded(params, vol) == SfsContents(file, volume)
  {
    params := Zero;
    vol := volume;
    var pos := 0;
    var w;
    w, pos := ReadWord(file, pos, 0);
    var version := Signed(w);
    if version == 100 || version == 101 || version == 102 {
      w, pos := ReadWord(file, pos, Unsigned(params.waveTypeValue));
      params := params.(waveTypeValue := Signed(w));

      vol := HalfVolume;
      if version == 102 {
        vol, pos := ReadWord(file, pos, vol);
      }

      params, pos := ReadSfsFrequency(file, pos, version, params);
      params, pos := ReadSfsDuty(file, pos, version, params);
      params, pos := ReadSfsFilter(file, pos, version, params);
    }
  }

  /** The `.sfs` frequency block, read into `params` from its offset: start, min, slide and, from 101 on, delta slide. */
  method ReadSfsFrequency(file: seq<Byte>, pos: nat, version: Int32, params: ParamsImage) returns (p: ParamsImage, next: nat)
    requires pos == FrequencyOffset(version)
    ensures p == params.(
      startFrequencyValue := Overlay(file, pos, params.startFrequencyValue),
      minFrequencyValue := Overlay(file, pos + 4, params.minFrequencyValue),
      slideValue := Overlay(file, pos + 8, params.slideValue),
      deltaSlideValue := if version >= 101 then Overlay(file, pos + 12, params.deltaSlideValue) else params.deltaSlideValue)
    ensures next == DutyOffset(version)
  {
    p, next := params, pos;
    var w;
    w, next := ReadWord(file, next, p.startFrequencyValue);
    p := p.(startFrequencyValue := w);
    w, next := ReadWord(file, next, p.minFrequencyValue);
    p := p.(minFrequencyValue := w);
    w, next := ReadWord(file, next, p.slideValue);
    p := p.(slideValue := w);

    if version >= 101 {
      w, next := ReadWord(file, next, p.deltaSlideValue);
      p := p.(deltaSlideValue := w);
    }
  }

  /**
   * The `.sfs` duty block, read into `params` from its offset: duty, duty
   * sweep, vibrato depth and speed, the vibrato phase delay (read and
   * dropped), the envelope, and the one-byte filterOn flag (read and dropped).
   */
  method ReadSfsDuty(file: seq<Byte>, pos: nat, version: Int32, params: ParamsImage) returns (p: ParamsImage, next: nat)
    requires pos == DutyOffset(version)
    ensures p == params.(
      squareDutyValue := Overlay(file, pos, params.squareDutyValue),
      dutySweepValue := Overlay(file, pos + 4, params.dutySweepValue),
      vibratoDepthValue := Overlay(file, pos + 8, params.vibratoDepthValue),
      vibratoSpeedValue := Overlay(file, pos + 12, params.vibratoSpeedValue),
      attackTimeValue := Overlay(file, pos + 20, params.attackTimeValue),
      sustainTimeValue := Overlay(file, pos + 24, params.sustainTimeValue),
      decayTimeValue := Overlay(file, pos + 28, params.decayTimeValue),
      sustainPunchValue := Overlay(file, pos + 32, params.sustainPunchValue))
    ensures next == FilterOffset(version)
  {
    p, next := params, pos;
    var w;
    w, next := ReadWord(file, next, p.squareDutyValue);
    p := p.(squareDutyValue := w);
    w, next := ReadWord(file, next, p.dutySweepValue);
    p := p.(dutySweepValue := w);

    w, next := ReadWord(file, next, p.vibratoDepthValue);
    p := p.(vibratoDepthValue := w);
    w, next := ReadWord(file, next, p.vibratoSpeedValue);
    p := p.(vibratoSpeedValue := w);

    var vibratoPhaseDelay;
    vibratoPhaseDelay, next := ReadWord(file, next, 0);

    w, next := ReadWord(file, next, p.attackTimeValue);
    p := p.(attackTimeValue := w);
    w, next := ReadWord(file, next, p.sustainTimeValue);
    p := p.(sustainTimeValue := w);
    w, next := ReadWord(file, next, p.decayTimeValue);
    p := p.(decayTimeValue := w);
    w, next := ReadWord(file, next, p.sustainPunchValue);
    p := p.(sustainPunchValue := w);

    var filterOn;
    filterOn, next := Read(file, next, [0]);
  }

  /** The `.sfs` filter block, read into `params` from its offset: filters, phaser, repeat and, from 101 on, the tone change. */
  method ReadSfsFilter(file: seq<Byte>, pos: nat, version: Int32, params: ParamsImage) returns (p: ParamsImage, next: nat)
    requires pos == FilterOffset(version)
    ensures p == params.(
      lpfResonanceValue := Overlay(file, pos, params.lpfResonanceValue),
      lpfCutoffValue := Overlay(file, pos + 4, params.lpfCutoffValue),
      lpfCutoffSweepValue := Overlay(file, pos + 8, params.lpfCutoffSweepValue),
      hpfCutoffValue := Overlay(file, pos + 12, params.hpfCutoffValue),
      hpfCutoffSweepValue := Overlay(file, pos + 16, params.hpfCutoffSweepValue),
      phaserOffsetValue := Overlay(file, pos + 20, params.phaserOffsetValue),
      phaserSweepValue := Overlay(file, pos + 24, params.phaserSweepValue),
      repeatSpeedValue := Overlay(file, pos + 28, params.repeatSpeedValue),
      changeSpeedValue := if version >= 101 then Overlay(file, pos + 32, params.changeSpeedValue) else params.changeSpeedValue,
      changeAmountValue := if version >= 101 then Overlay(file, pos + 36, params.changeAmountValue) else params.changeAmountValue)
  {
    p, next := params, pos;
    var w;
    w, next := ReadWord(file, next, p.lpfResonanceValue);
    p := p.(lpfResonanceValue := w);
    w, next := ReadWord(file, next, p.lpfCutoffValue);
    p := p.(lpfCutoffValue := w);
    w, next := ReadWord(file, next, p.lpfCutoffSweepValue);
    p := p.(lpfCutoffSweepValue := w);
    w, next := ReadWord(file, next, p.hpfCutoffValue);
    p := p.(hpfCutoffValue := w);
    w, next := ReadWord(file, next, p.hpfCutoffSweepValue);
    p := p.(hpfCutoffSweepValue := w);

    w, next := ReadWord(file, next, p.phaserOffsetValue);
    p := p.(phaserOffsetValue := w);
    w, next := ReadWord(file, next, p.phaserSweepValue);
    p := p.(phaserSweepValue := w);
    w, next := ReadWord(file, next, p.repeatSpeedValue);
    p := p.(repeatSpeedValue := w);

    if version >= 101 {
      w, next := ReadWord(file, next, p.changeSpeedValue);
      p := p.(changeSpeedValue := w);
      w, next := ReadWord(file, next, p.changeAmountValue);
      p := p.(changeAmountValue := w);
    }
  }

  /**
   * LoadWaveParams: the extension selects the reader; a file that cannot be
   * opened, or a name with neither extension, gives the all-zero record.
   * Only the `.sfs` reader touches the global volume.
   */
  method LoadWaveParams(kind: FileKind, file: Option<seq<Byte>>, volume: Word) returns (params: ParamsImage, vol: Word)
    ensures kind == Sfs && file.Some? ==> Loaded(params, vol) == SfsContents(file.value, volume)
    ensures kind == Rfx && file.Some? ==> params == RfxContents(file.value) && vol == volume
    ensures kind == Other || file.None? ==> params == Zero && vol == volume
  {
    params, vol := Zero, volume;
    if kind == Sfs {
      if file.None? {
        return;
      }
      params, vol := LoadSfs(file.value, volume);
    } else if kind == Rfx {
      if file.Some? {
        params := LoadRfx(file.value);
      }
    }
  }
}
