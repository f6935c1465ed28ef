/** streamers/waveform.go: the waveform enumeration, its names, and the
    tone generator behind each known waveform. beep's five tone generators
    are foreign code; each is modelled by the graph leaf it builds and by
    the one failure the streamers package relies on, a frequency of half
    the sample rate or more. */
module Waveforms {
  import opened Common
  import opened Graphs

  /** `Waveform`, an `int` enumeration starting at -1. */
  type Waveform = int

  const Unknown: Waveform := -1
  const Sine: Waveform := 0
  const Triangle: Waveform := 1
  const Square: Waveform := 2
  const Sawtooth: Waveform := 3
  const ReversedSawtooth: Waveform := 4

  /** `StreamerGeneratorFunc`: builds a streamer for a sample rate and a
      frequency in Hz, or fails. */
  type GeneratorFunc = (int, real) -> Result<Graph, string>

  /** `AllWaveforms`: the five known waveforms in enumeration order. */
  function AllWaveforms(): (r: seq<Waveform>)
    ensures r == [0, 1, 2, 3, 4]
    ensures Unknown !in r
  {
    [Sine, Triangle, Square, Sawtooth, ReversedSawtooth]
  }

  /** `waveformToStr`. */
  function WaveformToStr(): map<Waveform, string>
  {
    map[Sine := "sine", Triangle := "triangle", Square := "square",
        Sawtooth := "sawtooth", ReversedSawtooth := "reversed sawtooth"]
  }

  function DigitChar(d: int): char
    requires 0 <= d < 10
  {
    "0123456789"[d]
  }

  function DigitValue(c: char): int
  {
    if '0' <= c <= '9' then c as int - '0' as int else 0
  }

  /** The decimal digits of a natural number, most significant first. */
  function Digits(n: nat): (s: string)
    ensures |s| > 0 && forall i :: 0 <= i < |s| ==> '0' <= s[i] <= '9'
    decreases n
  {
    if n < 10 then [DigitChar(n)] else Digits(n / 10) + [DigitChar(n % 10)]
  }

  /** `strconv.Itoa`: the decimal form, with a leading '-' when negative. */
  function Itoa(n: int): string
  {
    if n < 0 then "-" + Digits(-n) else Digits(n)
  }

  /** Reads back a run of decimal digits. */
  function ParseDigits(s: string): int
    decreases |s|
  {
    if |s| == 0 then 0 else ParseDigits(s[..|s| - 1]) * 10 + DigitValue(s[|s| - 1])
  }

  /** Reads back an optionally signed decimal number. */
  function ParseInt(s: string): int
  {
    if |s| > 0 && s[0] == '-' then -ParseDigits(s[1..]) else ParseDigits(s)
  }

  lemma {:induction false} DigitsRoundTrip(n: nat)
    ensures ParseDigits(Digits(n)) == n
    decreases n
  {
    if n >= 10 {
      DigitsRoundTrip(n / 10);
      var s := Digits(n);
      assert s[..|s| - 1] == Digits(n / 10);
    }
  }

  /** `Itoa` loses nothing: the number reads back from its decimal form. */
  lemma ItoaRoundTrip(n: int)
    ensures ParseInt(Itoa(n)) == n
  {
    if n < 0 {
      DigitsRoundTrip(-n);
      assert Itoa(n)[1..] == Digits(-n);
    } else {
      DigitsRoundTrip(n);
    }
  }

  /** `String`: the name of a known waveform, the decimal number of any
      other value. */
  function String(w: Waveform): (s: string)
    ensures w in AllWaveforms() ==> s == WaveformToStr()[w]
    ensures w !in AllWaveforms() ==> s == Itoa(w)
  {
    if w in WaveformToStr() then WaveformToStr()[w] else Itoa(w)
  }

  /** The names of the known waveforms, and "-1" for `Unknown`. */
  lemma StringValues()
    ensures String(Sine) == "sine" && String(Triangle) == "triangle" && String(Square) == "square"
    ensures String(Sawtooth) == "sawtooth" && String(ReversedSawtooth) == "reversed sawtooth"
    ensures String(Unknown) == "-1"
  {
    assert Digits(1) == "1";
  }

  /** A name starts with a letter, a number with a digit or '-'. */
  lemma NameIsNoNumber(w: Waveform, n: Waveform)
    requires w in AllWaveforms() && n !in AllWaveforms()
    ensures String(w) != String(n)
  {
    var c := Itoa(n)[0];
    assert c == '-' || '0' <= c <= '9';
    assert 'a' <= String(w)[0] <= 'z';
  }

  /** No two waveforms share a string: names are distinct, names are no
      numbers, and numbers read back. */
  lemma StringInjective(a: Waveform, b: Waveform)
    ensures String(a) == String(b) ==> a == b
  {
    if a in AllWaveforms() && b !in AllWaveforms() {
      NameIsNoNumber(a, b);
    } else if a !in AllWaveforms() && b in AllWaveforms() {
      NameIsNoNumber(b, a);
    } else if a !in AllWaveforms() && b !in AllWaveforms() {
      ItoaRoundTrip(a);
      ItoaRoundTrip(b);
    }
  }

  /** `waveformsToGenerator`, as a total lookup: the tone kind of each
      known waveform. */
  function ToneKindOf(w: Waveform): ToneKind
    requires w in AllWaveforms()
  {
    if w == Sine then SineTone
    else if w == Triangle then TriangleTone
    else if w == Square then SquareTone
    else if w == Sawtooth then SawtoothTone
    else SawtoothToneReversed
  }

  /** A beep tone generator: the tone at `hz` for the sample rate, refused
      when the sample rate is not more than twice the frequency. */
  function ToneGenerator(kind: ToneKind): GeneratorFunc
  {
    (sampleRate, hz) => ToneOrError(kind, sampleRate, hz)
  }

  function ToneOrError(kind: ToneKind, sampleRate: int, hz: real): Result<Graph, string>
  {
    if 2.0 * hz >= sampleRate as real then Err("samplerate must be at least 2 times greater than frequency")
    else Ok(Tone(kind, sampleRate, hz))
  }

  lemma ToneGeneratorAt(kind: ToneKind, sampleRate: int, hz: real)
    ensures ToneGenerator(kind)(sampleRate, hz) == ToneOrError(kind, sampleRate, hz)
  {
  }

  /** `streamerGenerator`: the generator of a known waveform, an error for
      any other value. */
  function StreamerGenerator(w: Waveform): (r: Result<GeneratorFunc, string>)
    ensures r.Ok? <==> w in AllWaveforms()
    ensures r.Err? ==> r.error == "waveform unknown"
  {
    if w in WaveformToStr() then Ok(ToneGenerator(ToneKindOf(w))) else Err("waveform unknown")
  }

  /** Each known waveform's generator builds its own kind of tone, at the
      requested rate and frequency, whenever the frequency is below half
      the sample rate; distinct waveforms give distinct tones. */
  lemma StreamerGeneratorTones(w: Waveform, v: Waveform, sampleRate: int, hz: real)
    requires w in AllWaveforms() && v in AllWaveforms()
    ensures 2.0 * hz < sampleRate as real ==>
      StreamerGenerator(w).value(sampleRate, hz) == Ok(Tone(ToneKindOf(w), sampleRate, hz))
    ensures 2.0 * hz >= sampleRate as real ==> StreamerGenerator(w).value(sampleRate, hz).Err?
    ensures ToneKindOf(w) == ToneKindOf(v) ==> w == v
  {
    ToneGeneratorAt(ToneKindOf(w), sampleRate, hz);
  }
}
