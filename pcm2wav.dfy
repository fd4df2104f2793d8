/**
  process_audio/pcm2wav.cc: wraps a raw 16-bit mono PCM file in the canonical 44-byte RIFF/WAVE
  header (a `RIFF` chunk of form `WAVE` holding a 16-byte `fmt ` chunk with format tag 1,
  WAVE_FORMAT_PCM, and a `data` chunk), as the WAVE form of the Microsoft/IBM Multimedia Programming
  Interface and Data Specifications 1.0 lays it out. The `WavHeader` struct has no padding (every
  field sits at a multiple of its size) and is written as its bytes, little-endian.
*/
module Pcm2Wav {
  import opened Wrappers
  import opened PyStr
  import opened Digits

  newtype byte = b: int | 0 <= b < 256

  const Two32: nat := 0x1_0000_0000
  const Two16: nat := 0x1_0000

  /** Conversion to `uint32_t` / `uint16_t`: modulo 2^32 / 2^16. */
  function U32(x: int): (r: nat)
    ensures r < Two32 && (0 <= x < Two32 ==> r == x)
  {
    x % Two32
  }

  function U16(x: int): (r: nat)
    ensures r < Two16 && (0 <= x < Two16 ==> r == x)
  {
    x % Two16
  }

  // ---------------------------------------------------------------------------------------------
  // little-endian fields

  function Pow256(n: nat): (p: nat)
    ensures p >= 1
  {
    if n == 0 then 1 else 256 * Pow256(n - 1)
  }

  /** The `n` bytes of an unsigned field, least significant first. */
  function LE(x: nat, n: nat): (r: seq<byte>)
    ensures |r| == n
  {
    if n == 0 then [] else [(x % 256) as byte] + LE(x / 256, n - 1)
  }

  /** The value of little-endian bytes. */
  function FromLE(bs: seq<byte>): (v: nat)
    ensures v < Pow256(|bs|)
  {
    if bs == [] then 0 else bs[0] as nat + 256 * FromLE(bs[1..])
  }

  lemma {:induction false} FromLEOfLE(x: nat, n: nat)
    requires x < Pow256(n)
    ensures FromLE(LE(x, n)) == x
  {
    if n > 0 {
      Div256Below(x, n);
      FromLEOfLE(x / 256, n - 1);
      assert LE(x, n)[1..] == LE(x / 256, n - 1);
    }
  }

  lemma WidthsSum()
    ensures SumW(Widths) == HeaderSize
  {
    assert Widths == [4, 4, 4, 4, 4, 2, 2, 4, 4, 2, 2, 4, 4];
  }

  lemma PowWidths()
    ensures Pow256(2) == Two16 && Pow256(4) == Two32
  {
    assert Pow256(1) == 256;
  }

  lemma Div256Below(x: nat, n: nat)
    requires n > 0 && x < Pow256(n)
    ensures x / 256 < Pow256(n - 1)
  {
  }

  lemma {:induction false} LEOfFromLE(bs: seq<byte>)
    ensures LE(FromLE(bs), |bs|) == bs
  {
    if bs != [] {
      var v := FromLE(bs[1..]);
      assert (bs[0] as nat + 256 * v) % 256 == bs[0] as nat;
      assert (bs[0] as nat + 256 * v) / 256 == v;
      LEOfFromLE(bs[1..]);
    }
  }

  // ---------------------------------------------------------------------------------------------
  // the header

  /** The numeric fields of `WavHeader`; the four chunk tags are fixed. */
  datatype WavHeader = WavHeader(
    fileSize: nat, fmtSize: nat, audioFormat: nat, numChannels: nat, sampleRate: nat,
    byteRate: nat, blockAlign: nat, bitsPerSample: nat, dataSize: nat)

  /** Every field fits its C type: `uint32_t` or `uint16_t`. */
  predicate FieldsFit(h: WavHeader) {
    h.fileSize < Two32 && h.fmtSize < Two32 && h.audioFormat < Two16 && h.numChannels < Two16 &&
    h.sampleRate < Two32 && h.byteRate < Two32 && h.blockAlign < Two16 && h.bitsPerSample < Two16 &&
    h.dataSize < Two32
  }

  const Riff: seq<byte> := [0x52, 0x49, 0x46, 0x46]    // "RIFF"
  const Wave: seq<byte> := [0x57, 0x41, 0x56, 0x45]    // "WAVE"
  const Fmt: seq<byte> := [0x66, 0x6d, 0x74, 0x20]     // "fmt "
  const Data: seq<byte> := [0x64, 0x61, 0x74, 0x61]    // "data"

  /** The byte width of each member of the struct, in declaration order. */
  const Widths: seq<nat> := [4, 4, 4, 4, 4, 2, 2, 4, 4, 2, 2, 4, 4]

  const HeaderSize: nat := 44

  /** The struct's members as byte strings, in declaration order. */
  function Pieces(h: WavHeader): (ps: seq<seq<byte>>)
    requires FieldsFit(h)
    ensures |ps| == |Widths| && forall i :: 0 <= i < |ps| ==> |ps[i]| == Widths[i]
  {
    [Riff, LE(h.fileSize, 4), Wave, Fmt, LE(h.fmtSize, 4), LE(h.audioFormat, 2), LE(h.numChannels, 2),
     LE(h.sampleRate, 4), LE(h.byteRate, 4), LE(h.blockAlign, 2), LE(h.bitsPerSample, 2), Data,
     LE(h.dataSize, 4)]
  }

  function Flatten(ps: seq<seq<byte>>): seq<byte>
  {
    if ps == [] then [] else ps[0] + Flatten(ps[1..])
  }

  function SumW(ws: seq<nat>): nat
  {
    if ws == [] then 0 else ws[0] + SumW(ws[1..])
  }

  /** Cut bytes into consecutive pieces of the given widths. */
  function Chop(b: seq<byte>, ws: seq<nat>): (ps: seq<seq<byte>>)
    requires |b| == SumW(ws)
    ensures |ps| == |ws| && forall i :: 0 <= i < |ps| ==> |ps[i]| == ws[i]
  {
    if ws == [] then [] else [b[..ws[0]]] + Chop(b[ws[0]..], ws[1..])
  }

  lemma {:induction false} ChopFlatten(ps: seq<seq<byte>>, ws: seq<nat>)
    requires |ps| == |ws| && forall i :: 0 <= i < |ps| ==> |ps[i]| == ws[i]
    ensures |Flatten(ps)| == SumW(ws) && Chop(Flatten(ps), ws) == ps
  {
    if ps != [] {
      ChopFlatten(ps[1..], ws[1..]);
      var b := Flatten(ps);
      assert b[..ws[0]] == ps[0];
      assert b[ws[0]..] == Flatten(ps[1..]);
      assert ps == [ps[0]] + ps[1..];
    }
  }

  lemma {:induction false} FlattenChop(b: seq<byte>, ws: seq<nat>)
    requires |b| == SumW(ws)
    ensures Flatten(Chop(b, ws)) == b
  {
    if ws != [] {
      FlattenChop(b[ws[0]..], ws[1..]);
      var ps := Chop(b, ws);
      assert ps[1..] == Chop(b[ws[0]..], ws[1..]);
      assert b == b[..ws[0]] + b[ws[0]..];
    }
  }

  /** `wav.write(reinterpret_cast<char*>(&header), sizeof(WavHeader))`: the struct's 44 bytes. */
  function Serialize(h: WavHeader): (r: seq<byte>)
    requires FieldsFit(h)
    ensures |r| == HeaderSize
  {
    ChopFlatten(Pieces(h), Widths);
    Flatten(Pieces(h))
  }

  /** Reading a header back: the tags must be the four fixed ones. */
  function Parse(b: seq<byte>): (r: Option<WavHeader>)
    ensures r.Some? ==> FieldsFit(r.value)
  {
    if |b| != HeaderSize then None
    else
      WidthsSum();
      var ps := Chop(b, Widths);
      if !Tagged(ps) then None else Some(Decode(ps))
  }

  /** The four chunk tags sit in their places. */
  predicate Tagged(ps: seq<seq<byte>>)
    requires |ps| == |Widths|
  {
    ps[0] == Riff && ps[2] == Wave && ps[3] == Fmt && ps[11] == Data
  }

  /** The header whose members are the given pieces. */
  function Decode(ps: seq<seq<byte>>): (h: WavHeader)
    requires |ps| == |Widths| && forall i :: 0 <= i < |ps| ==> |ps[i]| == Widths[i]
    ensures FieldsFit(h)
  {
    PowWidths();
    WavHeader(FromLE(ps[1]), FromLE(ps[4]), FromLE(ps[5]), FromLE(ps[6]), FromLE(ps[7]),
              FromLE(ps[8]), FromLE(ps[9]), FromLE(ps[10]), FromLE(ps[12]))
  }

  lemma DecodePieces(h: WavHeader)
    requires FieldsFit(h)
    ensures Tagged(Pieces(h)) && Decode(Pieces(h)) == h
  {
    var ps := Pieces(h);
    FromLEOfLE(h.fileSize, 4);
    FromLEOfLE(h.fmtSize, 4);
    FromLEOfLE(h.audioFormat, 2);
    FromLEOfLE(h.numChannels, 2);
    FromLEOfLE(h.sampleRate, 4);
    FromLEOfLE(h.byteRate, 4);
    FromLEOfLE(h.blockAlign, 2);
    FromLEOfLE(h.bitsPerSample, 2);
    FromLEOfLE(h.dataSize, 4);
    assert FromLE(ps[1]) == h.fileSize && FromLE(ps[4]) == h.fmtSize && FromLE(ps[5]) == h.audioFormat;
    assert FromLE(ps[6]) == h.numChannels && FromLE(ps[7]) == h.sampleRate && FromLE(ps[8]) == h.byteRate;
    assert FromLE(ps[9]) == h.blockAlign && FromLE(ps[10]) == h.bitsPerSample && FromLE(ps[12]) == h.dataSize;
  }

  lemma PiecesDecode(ps: seq<seq<byte>>)
    requires |ps| == |Widths| && forall i :: 0 <= i < |ps| ==> |ps[i]| == Widths[i]
    requires Tagged(ps)
    ensures Pieces(Decode(ps)) == ps
  {
    var qs := Pieces(Decode(ps));
    forall i | 0 <= i < |Widths| ensures qs[i] == ps[i] {
      if i !in {0, 2, 3, 11} {
        LEOfFromLE(ps[i]);
      }
    }
  }

  /** The serialised header reads back as the same header. */
  lemma ParseSerialize(h: WavHeader)
    requires FieldsFit(h)
    ensures Parse(Serialize(h)) == Some(h)
  {
    ChopFlatten(Pieces(h), Widths);
    DecodePieces(h);
  }

  /** Every 44 bytes that read as a header are that header's serialisation. */
  lemma SerializeParse(b: seq<byte>)
    requires Parse(b).Some?
    ensures Serialize(Parse(b).value) == b
  {
    WidthsSum();
    var ps := Chop(b, Widths);
    assert Parse(b) == Some(Decode(ps));
    PiecesDecode(ps);
    FlattenChop(b, Widths);
    assert Serialize(Decode(ps)) == Flatten(ps);
  }

  const BitsPerSample: nat := 16
  const NumChannels: nat := 1

  /** The header `main` fills for a sample rate and a PCM size, both already `uint32_t`. */
  function MakeHeader(sampleRate: nat, pcmSize: nat): (h: WavHeader)
    requires sampleRate < Two32 && pcmSize < Two32
  {
    var blockAlign := U16(NumChannels * BitsPerSample / 8);
    WavHeader(
      fileSize := U32(36 + pcmSize), fmtSize := 16, audioFormat := 1, numChannels := NumChannels,
      sampleRate := sampleRate, byteRate := U32(sampleRate * blockAlign), blockAlign := blockAlign,
      bitsPerSample := BitsPerSample, dataSize := pcmSize)
  }

  /** `main`'s assignments to `header`, one member at a time, over the struct's initialisers. */
  method BuildHeader(sampleRate: nat, pcmSize: nat) returns (h: WavHeader)
    requires sampleRate < Two32 && pcmSize < Two32
    ensures h == MakeHeader(sampleRate, pcmSize) && FieldsFit(h)
  {
    h := WavHeader(fileSize := 0, fmtSize := 16, audioFormat := 1, numChannels := NumChannels,
                   sampleRate := 0, byteRate := 0, blockAlign := 0, bitsPerSample := BitsPerSample,
                   dataSize := 0);
    h := h.(sampleRate := sampleRate);
    h := h.(blockAlign := U16(h.numChannels * h.bitsPerSample / 8));
    h := h.(byteRate := U32(sampleRate * h.blockAlign));
    h := h.(dataSize := pcmSize);
    h := h.(fileSize := U32(36 + h.dataSize));
  }

  /** The header fields: a mono 16-bit PCM stream whose frames are 2 bytes, whose byte rate is twice
      the sample rate, and whose RIFF size is 36 past the data size, all in 32-bit arithmetic. */
  lemma HeaderFields(sampleRate: nat, pcmSize: nat)
    requires sampleRate < Two32 && pcmSize < Two32
    ensures FieldsFit(MakeHeader(sampleRate, pcmSize))
    ensures MakeHeader(sampleRate, pcmSize).blockAlign == 2
    ensures MakeHeader(sampleRate, pcmSize).byteRate == (2 * sampleRate) % Two32
    ensures MakeHeader(sampleRate, pcmSize).dataSize == pcmSize
    ensures (MakeHeader(sampleRate, pcmSize).fileSize + 8) % Two32 == (HeaderSize + pcmSize) % Two32
    ensures MakeHeader(sampleRate, pcmSize).fmtSize == 16 && MakeHeader(sampleRate, pcmSize).audioFormat == 1
    ensures MakeHeader(sampleRate, pcmSize).numChannels == 1 && MakeHeader(sampleRate, pcmSize).bitsPerSample == 16
  {
  }

  // ---------------------------------------------------------------------------------------------
  // the output file

  /** The WAV file written for a PCM file: the header, then the first `pcmSize` bytes of the input,
      `pcmSize` being the file length as a `uint32_t`. */
  function WavFile(pcm: seq<byte>, sampleRate: nat): (r: seq<byte>)
    requires sampleRate < Two32
  {
    var n := U32(|pcm|);
    Serialize(MakeHeader(sampleRate, n)) + pcm[..n]
  }

  /** The file begins with the header describing it and continues with the PCM bytes verbatim; its
      RIFF size plus the 8 bytes of the RIFF chunk header is its length, modulo 2^32. */
  lemma WavFileLayout(pcm: seq<byte>, sampleRate: nat)
    requires sampleRate < Two32
    ensures |WavFile(pcm, sampleRate)| == HeaderSize + U32(|pcm|)
    ensures Parse(WavFile(pcm, sampleRate)[..HeaderSize]) == Some(MakeHeader(sampleRate, U32(|pcm|)))
    ensures WavFile(pcm, sampleRate)[HeaderSize..] == pcm[..U32(|pcm|)]
    ensures (MakeHeader(sampleRate, U32(|pcm|)).fileSize + 8) % Two32 == |WavFile(pcm, sampleRate)| % Two32
    ensures |pcm| + HeaderSize <= Two32 ==> MakeHeader(sampleRate, |pcm|).fileSize + 8 == |WavFile(pcm, sampleRate)|
  {
    var n := U32(|pcm|);
    var h := MakeHeader(sampleRate, n);
    var w := WavFile(pcm, sampleRate);
    assert w == Serialize(h) + pcm[..n];
    assert |w| == HeaderSize + n;
    assert w[..HeaderSize] == Serialize(h);
    ParseSerialize(h);
    HeaderFields(sampleRate, n);
    if |pcm| + HeaderSize <= Two32 {
      assert n == |pcm| && h.fileSize == 36 + n;
    }
  }

  /** The two `write` calls into a fresh output buffer: the header bytes, then the PCM buffer. */
  method WriteWav(pcm: seq<byte>, sampleRate: nat) returns (out: array<byte>)
    requires sampleRate < Two32
    ensures fresh(out) && out[..] == WavFile(pcm, sampleRate)
  {
    var pcmSize := U32(|pcm|);
    var header := BuildHeader(sampleRate, pcmSize);
    var hb := Serialize(header);
    out := new byte[HeaderSize + pcmSize];
    WriteAt(out, 0, hb);
    WriteAt(out, HeaderSize, pcm[..pcmSize]);
    ghost var w := hb + pcm[..pcmSize];
    assert forall k | 0 <= k < out.Length :: out[k] == w[k];
    assert out[..] == w;
  }

  /** One `write` call: the bytes land at the stream position, everything else stays. */
  method WriteAt(out: array<byte>, at: nat, bytes: seq<byte>)
    requires at + |bytes| <= out.Length
    modifies out
    ensures forall k :: 0 <= k < out.Length ==> out[k] == if at <= k < at + |bytes| then bytes[k - at] else old(out[k])
  {
    var i := 0;
    while i < |bytes|
      invariant 0 <= i <= |bytes|
      invariant forall k :: 0 <= k < out.Length ==> out[k] == if at <= k < at + i then bytes[k - at] else old(out[k])
    {
      out[at + i] := bytes[i];
      i := i + 1;
    }
  }

  // ---------------------------------------------------------------------------------------------
  // std::stoi and main

  /** The white space `strtol` skips. */
  predicate CSpace(c: char) {
    c == ' ' || c == '\t' || c == '\n' || c == '\U{B}' || c == '\U{C}' || c == '\r'
  }

  function SkipCSpace(s: String): (r: String)
    ensures |r| <= |s| && (r != [] ==> !CSpace(r[0]))
  {
    if s != [] && CSpace(s[0]) then SkipCSpace(s[1..]) else s
  }

  /** The longest prefix of ASCII digits. */
  function DigitPrefix(s: String): (r: String)
    ensures AllDigits(r) && r <= s
    ensures |r| < |s| ==> !IsDigit(s[|r|])
  {
    if s != [] && IsDigit(s[0]) then [s[0]] + DigitPrefix(s[1..]) else []
  }

  const IntMin: int := -0x8000_0000
  const IntMax: int := 0x7FFF_FFFF

  /** `std::stoi`: leading white space, an optional sign, then the longest run of digits; no digits
      throws `std::invalid_argument` and a value outside `int` throws `std::out_of_range` (both
      reported as ValueError here). Anything after the digits is ignored. */
  function Stoi(s: String): (r: Result<int>)
    ensures r.Ok? ==> IntMin <= r.value <= IntMax
  {
    var t := SkipCSpace(s);
    var neg := t != [] && t[0] == '-';
    var body := if t != [] && (t[0] == '-' || t[0] == '+') then t[1..] else t;
    var ds := DigitPrefix(body);
    if ds == [] then Err(ValueError)
    else
      var v: int := if neg then -(Value(ds) as int) else Value(ds);
      if v < IntMin || v > IntMax then Err(ValueError) else Ok(v)
  }

  lemma {:induction false} DigitPrefixOfDigits(ds: String, rest: String)
    requires AllDigits(ds) && (rest != [] ==> !IsDigit(rest[0]))
    ensures DigitPrefix(ds + rest) == ds
  {
    if ds != [] {
      assert (ds + rest)[1..] == ds[1..] + rest;
      DigitPrefixOfDigits(ds[1..], rest);
    } else {
      assert ds + rest == rest;
    }
  }

  /** `std::stoi(std::to_string(n))` is `n` for every `n` an `int` holds. */
  lemma StoiOfNat(n: nat)
    requires n <= IntMax
    ensures Stoi(NatToString(n)) == Ok(n)
  {
    StoiOfDigits(NatToString(n));
  }

  lemma StoiOfDigits(s: String)
    requires s != [] && AllDigits(s) && Value(s) <= IntMax
    ensures Stoi(s) == Ok(Value(s))
  {
    assert IsDigit(s[0]);
    assert SkipCSpace(s) == s;
    var none: String := [];
    assert s + none == s;
    DigitPrefixOfDigits(s, none);
  }

  /** Stoi rejects a string with no digits after the optional sign. */
  lemma StoiNoDigits(s: String)
    requires forall i :: 0 <= i < |s| ==> !IsDigit(s[i])
    ensures Stoi(s).Err?
  {
    var t := SkipCSpace(s);
    SkipCSpaceSuffix(s);
    var body := if t != [] && (t[0] == '-' || t[0] == '+') then t[1..] else t;
    assert body != [] ==> body[0] in s;
  }

  lemma {:induction false} SkipCSpaceSuffix(s: String)
    ensures SkipCSpace(s) == s[|s| - |SkipCSpace(s)|..]
  {
    if s != [] && CSpace(s[0]) {
      SkipCSpaceSuffix(s[1..]);
    }
  }

  /** What `main` does. */
  datatype Outcome =
    | Usage                                  // fewer than two arguments
    | Terminated                             // `std::stoi` threw: the program ends abnormally
    | OpenFailed(input: String)              // the PCM file cannot be opened
    | CreateFailed(output: String)           // the WAV file cannot be created
    | Converted(output: String, wav: seq<byte>)

  /** The exit status `main` returns, when it returns. */
  function ExitCode(o: Outcome): (r: Option<int>)
    ensures r == None <==> o.Terminated?
    ensures r == Some(0) <==> o.Converted?
  {
    match o
    case Usage => Some(1)
    case Terminated => None
    case OpenFailed(_) => Some(1)
    case CreateFailed(_) => Some(1)
    case Converted(_, _) => Some(0)
  }

  const DefaultOutput: String := "output.wav"
  const DefaultRate: nat := 16000

  /** `main(argc, argv)`, with `args` the whole of `argv`; `files` gives the contents of each file that
      can be opened for reading and `creatable` says which output paths can be created. */
  function Run(args: seq<String>, files: String -> Option<seq<byte>>, creatable: String -> bool): (o: Outcome)
    ensures o.Converted? ==> |args| >= 2 && files(args[1]).Some? && creatable(o.output)
  {
    if |args| < 2 then Usage
    else
      var output := if |args| >= 3 then args[2] else DefaultOutput;
      var rate: Result<int> := if |args| >= 4 then Stoi(args[3]) else Ok(DefaultRate);
      if rate.Err? then Terminated
      else if files(args[1]).None? then OpenFailed(args[1])
      else if !creatable(output) then CreateFailed(output)
      else Converted(output, WavFile(files(args[1]).value, U32(rate.value)))
  }

  /** Without an input file `main` prints its usage and returns 1. */
  lemma RunUsage(args: seq<String>, files: String -> Option<seq<byte>>, creatable: String -> bool)
    requires |args| < 2
    ensures Run(args, files, creatable) == Usage && ExitCode(Run(args, files, creatable)) == Some(1)
  {
  }

  /** With only the input named, the output is `output.wav` at 16000 Hz. */
  lemma RunDefaults(args: seq<String>, files: String -> Option<seq<byte>>, creatable: String -> bool)
    requires |args| == 2 && files(args[1]).Some? && creatable(DefaultOutput)
    ensures Run(args, files, creatable) == Converted(DefaultOutput, WavFile(files(args[1]).value, 16000))
  {
  }

  /** An input that cannot be opened, or an output that cannot be created, returns 1 and writes no
      WAV. */
  lemma RunFileErrors(args: seq<String>, files: String -> Option<seq<byte>>, creatable: String -> bool)
    requires |args| >= 2 && (|args| >= 4 ==> Stoi(args[3]).Ok?)
    requires files(args[1]).None? || !creatable(if |args| >= 3 then args[2] else DefaultOutput)
    ensures !Run(args, files, creatable).Converted? && ExitCode(Run(args, files, creatable)) == Some(1)
  {
  }

  /** A sample rate argument is read by `std::stoi` and stored as `uint32_t`. */
  lemma RunRate(args: seq<String>, files: String -> Option<seq<byte>>, creatable: String -> bool, rate: int)
    requires |args| >= 4 && Stoi(args[3]) == Ok(rate) && files(args[1]).Some? && creatable(args[2])
    ensures Run(args, files, creatable) == Converted(args[2], WavFile(files(args[1]).value, U32(rate)))
    ensures MakeHeader(U32(rate), U32(|files(args[1]).value|)).sampleRate == rate % Two32
  {
  }
}
