/** `detect_audio_format` of routes/facebook.py and routes/whatsapp.py (the two
    copies are identical): the container of an audio buffer guessed from its
    leading magic bytes. */
module Audio {
  import opened Text

  newtype byte = x: int | 0 <= x < 256

  datatype AudioFormat = Wav | Ogg | Mp3 | Flac | Mp4

  // The magic numbers, as ASCII bytes.
  const RIFF: seq<byte> := [0x52, 0x49, 0x46, 0x46]       // "RIFF"
  const WAVE: seq<byte> := [0x57, 0x41, 0x56, 0x45]       // "WAVE"
  const OGGS: seq<byte> := [0x4F, 0x67, 0x67, 0x53]       // "OggS"
  const ID3: seq<byte> := [0x49, 0x44, 0x33]              // "ID3"
  const MPEG_SYNC_FB: seq<byte> := [0xFF, 0xFB]           // MPEG-1 layer III frame sync
  const MPEG_SYNC_F3: seq<byte> := [0xFF, 0xF3]           // MPEG-2 layer III frame sync
  const FLAC: seq<byte> := [0x66, 0x4C, 0x61, 0x43]       // "fLaC"
  const FTYP: seq<byte> := [0x66, 0x74, 0x79, 0x70]       // "ftyp"

  /** Shorter buffers are never classified. */
  const MIN_HEADER: int := 12

  /** The signature tests, each on its own. */
  predicate IsWav(d: seq<byte>) requires |d| >= MIN_HEADER { d[..4] == RIFF && d[8..12] == WAVE }
  predicate IsOgg(d: seq<byte>) requires |d| >= MIN_HEADER { d[..4] == OGGS }
  predicate IsMp3(d: seq<byte>) requires |d| >= MIN_HEADER
  {
    d[..3] == ID3 || d[..2] == MPEG_SYNC_FB || d[..2] == MPEG_SYNC_F3
  }
  predicate IsFlac(d: seq<byte>) requires |d| >= MIN_HEADER { d[..4] == FLAC }
  predicate IsMp4(d: seq<byte>) requires |d| >= MIN_HEADER { d[..4] == FTYP || d[4..8] == FTYP }

  /** Whether `d` carries the signature of format `f`. */
  predicate Carries(d: seq<byte>, f: AudioFormat)
    requires |d| >= MIN_HEADER
  {
    match f
    case Wav => IsWav(d)
    case Ogg => IsOgg(d)
    case Mp3 => IsMp3(d)
    case Flac => IsFlac(d)
    case Mp4 => IsMp4(d)
  }

  /** The position of a format's test in the chain. */
  function Rank(f: AudioFormat): nat
  {
    match f
    case Wav => 0
    case Ogg => 1
    case Mp3 => 2
    case Flac => 3
    case Mp4 => 4
  }

  /** The tests run in the order wav, ogg, mp3, flac, mp4; the first that
      matches decides. A result is always a signature the buffer carries and
      no signature tried earlier matched, and no result means no signature
      matched. */
  function DetectAudioFormat(d: seq<byte>): (r: Option<AudioFormat>)
    ensures |d| < MIN_HEADER ==> r == None
    ensures r.Some? ==> |d| >= MIN_HEADER && Carries(d, r.value)
    ensures r.Some? ==> forall g: AudioFormat :: Rank(g) < Rank(r.value) ==> !Carries(d, g)
    ensures r == None && |d| >= MIN_HEADER ==>
      forall f: AudioFormat :: !Carries(d, f)
  {
    if |d| < MIN_HEADER then None
    else if IsWav(d) then Some(Wav)
    else if IsOgg(d) then Some(Ogg)
    else if IsMp3(d) then Some(Mp3)
    else if IsFlac(d) then Some(Flac)
    else if IsMp4(d) then Some(Mp4)
    else None
  }

  /** A file as each format's encoder writes it: a RIFF/WAVE header, an Ogg
      page, an ID3 tag or frame sync, a FLAC stream marker, and an ISO base
      media file whose first box (size below 2^24, so a leading zero byte) is
      `ftyp`. */
  predicate Canonical(d: seq<byte>, f: AudioFormat)
    requires |d| >= MIN_HEADER
  {
    match f
    case Wav => IsWav(d)
    case Ogg => IsOgg(d)
    case Mp3 => IsMp3(d)
    case Flac => IsFlac(d)
    case Mp4 => d[0] == 0 && d[4..8] == FTYP
  }

  /** The magic numbers do not overlap, so the test order never hides a
      well-formed file: each is recognised as its own format. */
  lemma DetectsCanonical(d: seq<byte>, f: AudioFormat)
    requires |d| >= MIN_HEADER && Canonical(d, f)
    ensures DetectAudioFormat(d) == Some(f)
  {
    match f {
      case Wav =>
      case Ogg =>
        assert d[0] == OGGS[0];
      case Mp3 =>
        if d[..3] == ID3 { assert d[0] == ID3[0]; } else { assert d[0] == 0xFF; }
      case Flac =>
        assert d[0] == FLAC[0] && d[1] == FLAC[1];
      case Mp4 =>
        assert d[..4][0] == 0;
    }
  }

  /** A RIFF header whose bytes 4-8 read `ftyp` and 8-12 `WAVE` carries both
      the wav and the mp4 signature; wav is tried first and wins. */
  lemma WavPrecedesMp4()
    ensures Carries(RIFF + FTYP + WAVE, Mp4)
    ensures DetectAudioFormat(RIFF + FTYP + WAVE) == Some(Wav)
  {
    var d := RIFF + FTYP + WAVE;
    assert d[..4] == RIFF && d[4..8] == FTYP && d[8..12] == WAVE;
  }

  /** Beyond the first twelve bytes nothing is looked at. */
  lemma OnlyHeaderMatters(d: seq<byte>, e: seq<byte>)
    requires |d| >= MIN_HEADER && |e| >= MIN_HEADER && d[..MIN_HEADER] == e[..MIN_HEADER]
    ensures DetectAudioFormat(d) == DetectAudioFormat(e)
  {
    assert d[..4] == d[..MIN_HEADER][..4] && e[..4] == e[..MIN_HEADER][..4];
    assert d[..3] == d[..MIN_HEADER][..3] && e[..3] == e[..MIN_HEADER][..3];
    assert d[..2] == d[..MIN_HEADER][..2] && e[..2] == e[..MIN_HEADER][..2];
    assert d[4..8] == d[..MIN_HEADER][4..8] && e[4..8] == e[..MIN_HEADER][4..8];
    assert d[8..12] == d[..MIN_HEADER][8..12] && e[8..12] == e[..MIN_HEADER][8..12];
  }
}
