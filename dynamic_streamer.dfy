/** streamers/dynamic_streamer.go: a voice whose parameters can be changed
    while it plays. It keeps a parameter record, rebuilds its streamer tree
    from the record on every change (`update`), and rolls the record back
    when the rebuild fails. The pure part says what the tree is
    (`CreateStreamer`, `ChordVoices`, `OvertoneVoices`, `Build`) and what
    each operation does to the whole state (`Commit` and the `…Spec`
    functions); the `DynamicStreamer` class is proved to follow it.

    Outside inputs are parameters, gathered in `Env`: the pitch table and
    2^(n/12) for pitch shifts (frequency.go's package variables and
    math.Pow) and beep's linear and equal-power transitions. Durations are
    given as sample counts, i.e. after `sampleRate.N`. The atomic flag and
    the atomic streamer slot are plain fields. */
module DynamicStreamers {
  import opened Common
  import opened Pitch
  import opened Graphs
  import opened Waveforms
  import Frequencies
  import Chords
  import Tremolos
  import Envelopes
  import KnownFrequencies

  datatype TremoloArgs = TremoloArgs(isOn: bool, length: int, startGain: real, endGain: real, pulsing: bool)

  datatype EnvelopArgs = EnvelopArgs(isOn: bool, attack: int, decay: int, sustain: real, release: int)

  /** `streamerArgs`: everything `createStreamer` builds from. */
  datatype StreamerArgs = StreamerArgs(
    sampleRate: int,
    generator: Option<GeneratorFunc>,
    frequency: Frequency,
    pan: real,
    gain: real,
    tremolo: TremoloArgs,
    envelop: EnvelopArgs)

  /** The chord (nil when off) and arpeggio delay in nanoseconds. */
  datatype ChordOptions = ChordOptions(chord: Option<Chords.ChordType>, arpeggioDelay: int)

  datatype Overtones = Overtones(count: int, gain: real)

  /** The outside inputs: the pitch table and 2^(n/12) used by pitch
      shifts, and beep's linear and equal-power transitions. */
  datatype Env = Env(table: seq<Frequency>, semitonePow: int -> real, equalPower: TransitionFunc, linear: TransitionFunc)

  const GeneratorEmpty: string := "streamer generator is empty"
  const PanOutOfRange: string := "pan should be between -1 (left channel) to 1 (right channel)"

  /** `createStreamer`: no generator, or a pan outside [-1, 1], is an error
      before the generator is asked; a generator error is passed on;
      otherwise the generator's streamer is wrapped in turn by a pan (when
      not 0), a gain of `gain - 1` (when `gain` is not 1), the tremolo
      (when on) and the attack-decay-sustain envelope (when on). */
  function CreateStreamer(env: Env, args: StreamerArgs): (r: Result<Graph, string>)
    ensures r.Err? <==> args.generator.None? || args.pan < -1.0 || args.pan > 1.0 ||
                        args.generator.value(args.sampleRate, args.frequency.hz).Err?
    ensures args.generator.None? ==> r == Err(GeneratorEmpty)
    ensures args.generator.Some? && (args.pan < -1.0 || args.pan > 1.0) ==> r == Err(PanOutOfRange)
    ensures args.generator.Some? && -1.0 <= args.pan <= 1.0 ==>
      var base := args.generator.value(args.sampleRate, args.frequency.hz);
      base.Err? ==> r == Err(base.error)
  {
    if args.generator.None? then Err(GeneratorEmpty)
    else if args.pan < -1.0 || args.pan > 1.0 then Err(PanOutOfRange)
    else
      match args.generator.value(args.sampleRate, args.frequency.hz)
      case Err(e) => Err(e)
      case Ok(g0) =>
        Ok(WithEnvelop(WithTremolo(WithGain(WithPan(g0, args.pan), args.gain), args.tremolo, env.equalPower),
                       args.envelop, env.linear))
  }

  /** The pan stage, skipped at 0. */
  function WithPan(g: Graph, pan: real): Graph
  {
    if pan != 0.0 then Pan(g, pan) else g
  }

  /** The gain stage: beep's `Gain` adds its value to 1, so a gain of
      `gain` is `gain - 1`; skipped at 1. */
  function WithGain(g: Graph, gain: real): Graph
  {
    if gain != 1.0 then Gain(g, gain - 1.0) else g
  }

  /** The tremolo stage, skipped when off. */
  function WithTremolo(g: Graph, t: TremoloArgs, equalPower: TransitionFunc): Graph
  {
    if t.isOn then Tremolos.Tremolo(g, t.length, t.startGain, t.endGain, t.pulsing, equalPower) else g
  }

  /** The attack-decay-sustain stage, skipped when off. */
  function WithEnvelop(g: Graph, e: EnvelopArgs, linear: TransitionFunc): Graph
  {
    if e.isOn then Envelopes.SetAttackDecaySustain(g, e.attack, e.decay, e.sustain, linear) else g
  }

  /** One wrapper of a streamer tree, with the parameter that tells it
      apart. */
  datatype Layer = PanLayer(pan: real) | GainLayer(gain: real) | LoopLayer(length: int) | ChainLayer(stages: int)

  /** The wrappers of a tree from the outside in, down to the first node
      that wraps nothing (a generator, a mixer or silence). */
  function Layers(g: Graph): seq<Layer>
  {
    match g
    case Pan(inner, pan) => [PanLayer(pan)] + Layers(inner)
    case Gain(inner, gain) => [GainLayer(gain)] + Layers(inner)
    case EffectLoop(inner, length, _, _) => [LoopLayer(length)] + Layers(inner)
    case EffectsChain(inner, stages, _) => [ChainLayer(|stages|)] + Layers(inner)
    case _ => []
  }

  /** The node under all wrappers. */
  function Innermost(g: Graph): Graph
  {
    match g
    case Pan(inner, _) => Innermost(inner)
    case Gain(inner, _) => Innermost(inner)
    case EffectLoop(inner, _, _, _) => Innermost(inner)
    case EffectsChain(inner, _, _) => Innermost(inner)
    case _ => g
  }

  /** A layer when the condition holds, none otherwise. */
  function LayerIf(c: bool, l: Layer): seq<Layer>
  {
    if c then [l] else []
  }

  /** The neutral envelope that `SetAttackDecaySustain` passes through. */
  predicate NeutralEnvelop(e: EnvelopArgs)
  {
    e.attack == 0 && e.decay == 0 && e.sustain == 1.0
  }

  /** The stage order of `createStreamer`: from the outside in, envelope,
      tremolo, gain, pan, then the generator's own tree, which is kept
      whole at the bottom; each wrapper is there exactly under its
      condition and carries its parameter (the gain as `gain - 1`, the
      tremolo period doubled unless pulsing). */
  lemma CreateStreamerLayers(env: Env, args: StreamerArgs)
    requires CreateStreamer(env, args).Ok?
    ensures var g0 := args.generator.value(args.sampleRate, args.frequency.hz).value;
      var r := CreateStreamer(env, args).value;
      var t, e := args.tremolo, args.envelop;
      Innermost(r) == Innermost(g0) &&
      Layers(r) == LayerIf(e.isOn && !NeutralEnvelop(e), ChainLayer(2))
                 + (LayerIf(t.isOn, LoopLayer(if t.pulsing then t.length else 2 * t.length))
                 + (LayerIf(args.gain != 1.0, GainLayer(args.gain - 1.0))
                 + (LayerIf(args.pan != 0.0, PanLayer(args.pan))
                 + Layers(g0))))
  {
    var g0 := args.generator.value(args.sampleRate, args.frequency.hz).value;
    var g1 := WithPan(g0, args.pan);
    var g2 := WithGain(g1, args.gain);
    var g3 := WithTremolo(g2, args.tremolo, env.equalPower);
    assert CreateStreamer(env, args).value == WithEnvelop(g3, args.envelop, env.linear);
    PanLayers(g0, args.pan);
    GainLayers(g1, args.gain);
    TremoloLayers(g2, args.tremolo, env.equalPower);
    EnvelopLayers(g3, args.envelop, env.linear);
  }

  /** Each stage adds its one layer on top and keeps the bottom node. */
  lemma PanLayers(g: Graph, pan: real)
    ensures Layers(WithPan(g, pan)) == LayerIf(pan != 0.0, PanLayer(pan)) + Layers(g)
    ensures Innermost(WithPan(g, pan)) == Innermost(g)
  {
  }

  lemma GainLayers(g: Graph, gain: real)
    ensures Layers(WithGain(g, gain)) == LayerIf(gain != 1.0, GainLayer(gain - 1.0)) + Layers(g)
    ensures Innermost(WithGain(g, gain)) == Innermost(g)
  {
  }

  lemma TremoloLayers(g: Graph, t: TremoloArgs, equalPower: TransitionFunc)
    ensures Layers(WithTremolo(g, t, equalPower)) == LayerIf(t.isOn, LoopLayer(if t.pulsing then t.length else 2 * t.length)) + Layers(g)
    ensures Innermost(WithTremolo(g, t, equalPower)) == Innermost(g)
  {
  }

  lemma EnvelopLayers(g: Graph, e: EnvelopArgs, linear: TransitionFunc)
    ensures Layers(WithEnvelop(g, e, linear)) == LayerIf(e.isOn && !NeutralEnvelop(e), ChainLayer(2)) + Layers(g)
    ensures Innermost(WithEnvelop(g, e, linear)) == Innermost(g)
  {
  }

  /** The parameters with the frequency shifted by `semitone` semitones. */
  function ShiftedArgs(env: Env, args: StreamerArgs, semitone: int): StreamerArgs
  {
    args.(frequency := Frequencies.ShiftSemitone(env.table, args.frequency, semitone, env.semitonePow))
  }

  /** When the chord voice at index `i` enters: `min(i, 2)` delays after
      the mixer is built when there is a delay, at once otherwise. */
  function ArpeggioDelay(i: int, arpeggioDelay: int): int
  {
    if arpeggioDelay > 0 then Min(i, 2) * arpeggioDelay else 0
  }

  /** What `addChord` adds for semitone `semitone` at index `i`: the root
      streamer for 0, otherwise the streamer built at the shifted pitch,
      or nothing when that build fails. */
  function ChordVoice(env: Env, args: StreamerArgs, i: int, semitone: int, arpeggioDelay: int, root: Graph): seq<Voice>
  {
    if semitone == 0 then [Voice(0, root)]
    else
      match CreateStreamer(env, ShiftedArgs(env, args, semitone))
      case Ok(g) => [Voice(ArpeggioDelay(i, arpeggioDelay), g)]
      case Err(_) => []
  }

  /** The voices of `addChord`'s mixer, one pass over the semitones. */
  function ChordVoices(env: Env, args: StreamerArgs, semitones: seq<int>, arpeggioDelay: int, root: Graph): (r: seq<Voice>)
    ensures |r| <= |semitones|
    decreases |semitones|
  {
    if |semitones| == 0 then []
    else
      var n := |semitones| - 1;
      ChordVoices(env, args, semitones[..n], arpeggioDelay, root) + ChordVoice(env, args, n, semitones[n], arpeggioDelay, root)
  }

  /** A voice is in the chord mixer exactly when some semitone of the
      chord gives it: the root for 0, the shifted streamer otherwise. */
  lemma {:induction false} ChordVoicesMembers(env: Env, args: StreamerArgs, semitones: seq<int>, arpeggioDelay: int,
                                              root: Graph, v: Voice)
    ensures v in ChordVoices(env, args, semitones, arpeggioDelay, root) <==>
      exists i :: 0 <= i < |semitones| && v in ChordVoice(env, args, i, semitones[i], arpeggioDelay, root)
    decreases |semitones|
  {
    if |semitones| > 0 {
      var n := |semitones| - 1;
      var front := semitones[..n];
      ChordVoicesMembers(env, args, front, arpeggioDelay, root, v);
      assert forall i :: 0 <= i < n ==> front[i] == semitones[i];
    }
  }

  /** Arpeggio: with a positive delay every voice enters within two
      delays, the voice of index `i` after min(i, 2) delays; with none,
      all enter at once; the root always enters at once. */
  lemma ChordVoiceDelay(env: Env, args: StreamerArgs, i: int, semitone: int, arpeggioDelay: int, root: Graph, v: Voice)
    requires 0 <= i && v in ChordVoice(env, args, i, semitone, arpeggioDelay, root)
    ensures arpeggioDelay <= 0 || semitone == 0 ==> v.delay == 0
    ensures arpeggioDelay > 0 && semitone != 0 ==> v.delay == Min(i, 2) * arpeggioDelay
    ensures arpeggioDelay > 0 ==> 0 <= v.delay <= 2 * arpeggioDelay
    ensures semitone == 0 ==> v == Voice(0, root)
  {
  }

  /** A chord that starts on semitone 0 (every catalog chord does) has the
      root streamer itself as its first voice, entering at once. */
  lemma {:induction false} ChordRootFirst(env: Env, args: StreamerArgs, semitones: seq<int>, arpeggioDelay: int, root: Graph)
    requires |semitones| > 0 && semitones[0] == 0
    ensures var r := ChordVoices(env, args, semitones, arpeggioDelay, root);
      |r| > 0 && r[0] == Voice(0, root)
    decreases |semitones|
  {
    var n := |semitones| - 1;
    var front := semitones[..n];
    if n == 0 {
      assert ChordVoices(env, args, front, arpeggioDelay, root) == [];
    } else {
      ChordRootFirst(env, args, front, arpeggioDelay, root);
    }
  }

  /** The parameters of overtone `i`: `i` octaves up, at the voice's gain
      times the overtone gain (not compounded from one overtone to the
      next). */
  function OvertoneArgs(env: Env, args: StreamerArgs, i: int, overtoneGain: real): StreamerArgs
  {
    args.(frequency := Frequencies.ShiftOctave(env.table, args.frequency, i, env.semitonePow),
          gain := args.gain * overtoneGain)
  }

  /** Overtone `i`, or nothing when its streamer cannot be built (for
      instance beyond half the sample rate). */
  function Overtone(env: Env, args: StreamerArgs, i: int, overtoneGain: real): seq<Voice>
  {
    match CreateStreamer(env, OvertoneArgs(env, args, i, overtoneGain))
    case Ok(g) => [Voice(0, g)]
    case Err(_) => []
  }

  /** The voices of `addOvertones`'s mixer: the root, then overtones 1 to
      `count`. */
  function OvertoneVoices(env: Env, args: StreamerArgs, overtoneGain: real, root: Graph, count: nat): (r: seq<Voice>)
    ensures 1 <= |r| <= count + 1 && r[0] == Voice(0, root)
    decreases count
  {
    if count == 0 then [Voice(0, root)]
    else OvertoneVoices(env, args, overtoneGain, root, count - 1) + Overtone(env, args, count, overtoneGain)
  }

  /** A voice is in the overtone mixer exactly when it is the root or an
      overtone from 1 to `count` that could be built, all entering at
      once. */
  lemma {:induction false} OvertoneVoicesMembers(env: Env, args: StreamerArgs, overtoneGain: real, root: Graph,
                                                 count: nat, v: Voice)
    ensures v in OvertoneVoices(env, args, overtoneGain, root, count) <==>
      v == Voice(0, root) || exists i :: 1 <= i <= count && v in Overtone(env, args, i, overtoneGain)
    decreases count
  {
    if count > 0 {
      OvertoneVoicesMembers(env, args, overtoneGain, root, count - 1, v);
    }
  }

  /** With every overtone buildable the mixer has all `count + 1`
      voices, overtone `i` at index `i`. */
  lemma {:induction false} OvertoneVoicesComplete(env: Env, args: StreamerArgs, overtoneGain: real, root: Graph, count: nat)
    requires forall i :: 1 <= i <= count ==> CreateStreamer(env, OvertoneArgs(env, args, i, overtoneGain)).Ok?
    ensures var r := OvertoneVoices(env, args, overtoneGain, root, count);
      |r| == count + 1 &&
      forall i :: 1 <= i <= count ==> r[i] == Voice(0, CreateStreamer(env, OvertoneArgs(env, args, i, overtoneGain)).value)
    decreases count
  {
    if count > 0 {
      OvertoneVoicesComplete(env, args, overtoneGain, root, count - 1);
    }
  }

  /** `update`'s tree: the voice, under the chord mixer when a chord is
      set, then under the overtone mixer when there are overtones. Only
      the voice itself can fail; chord and overtone voices that fail are
      left out. */
  function Build(env: Env, args: StreamerArgs, chord: ChordOptions, overtones: Overtones): (r: Result<Graph, string>)
    ensures r.Err? <==> CreateStreamer(env, args).Err?
    ensures r.Err? ==> r.error == CreateStreamer(env, args).error
  {
    match CreateStreamer(env, args)
    case Err(e) => Err(e)
    case Ok(g) =>
      var g1 := if chord.chord.Some? then Mixer(ChordVoices(env, args, chord.chord.value.semitones, chord.arpeggioDelay, g)) else g;
      var g2 := if overtones.count > 0 then Mixer(OvertoneVoices(env, args, overtones.gain, g1, overtones.count)) else g1;
      Ok(g2)
  }

  /** The chord mixer is inside the overtone mixer, each only when on. */
  lemma BuildNesting(env: Env, args: StreamerArgs, chord: ChordOptions, overtones: Overtones)
    requires CreateStreamer(env, args).Ok?
    ensures var g := CreateStreamer(env, args).value;
      var withChord := if chord.chord.Some? then Mixer(ChordVoices(env, args, chord.chord.value.semitones, chord.arpeggioDelay, g)) else g;
      var r := Build(env, args, chord, overtones).value;
      (overtones.count <= 0 ==> r == withChord) &&
      (overtones.count > 0 ==> r.Mixer? && r.voices[0] == Voice(0, withChord)) &&
      (chord.chord.None? && overtones.count <= 0 ==> r == g)
  {
  }

  /** The whole state of a dynamic streamer. `streamer` is the installed
      tree. */
  datatype DynState = DynState(
    args: StreamerArgs,
    waveform: Waveform,
    silenced: bool,
    isReleased: bool,
    streamer: Graph,
    chord: ChordOptions,
    overtones: Overtones)

  /** Stage-and-rebuild, the pattern every setter follows: rebuild from
      the staged state; on failure the state is exactly as before the
      setter (the staged value rolled back) and the error is returned; on
      success the staged state holds with the new tree installed, and a
      released voice is silenced. */
  function Commit(env: Env, st: DynState, staged: DynState): (r: (DynState, Option<string>))
    ensures var b := Build(env, staged.args, staged.chord, staged.overtones);
      (r.1.Some? <==> b.Err?) &&
      (b.Err? ==> r == (st, Some(b.error))) &&
      (b.Ok? ==> r.0 == staged.(streamer := b.value, silenced := staged.silenced || staged.isReleased))
  {
    match Build(env, staged.args, staged.chord, staged.overtones)
    case Err(e) => (st, Some(e))
    case Ok(g) => (staged.(streamer := g, silenced := staged.silenced || staged.isReleased), None)
  }

  function SetPanSpec(env: Env, st: DynState, pan: real): (DynState, Option<string>)
  {
    if pan == st.args.pan then (st, None)
    else Commit(env, st, st.(args := st.args.(pan := pan)))
  }

  function SetGainSpec(env: Env, st: DynState, gain: real): (DynState, Option<string>)
  {
    if gain == st.args.gain then (st, None)
    else Commit(env, st, st.(args := st.args.(gain := gain)))
  }

  function SetTremoloSpec(env: Env, st: DynState, length: int, startGain: real, endGain: real, pulsing: bool)
    : (DynState, Option<string>)
  {
    var t := TremoloArgs(true, length, startGain, endGain, pulsing);
    if t == st.args.tremolo then (st, None)
    else Commit(env, st, st.(args := st.args.(tremolo := t)))
  }

  function SetTremoloOffSpec(env: Env, st: DynState): (DynState, Option<string>)
  {
    if !st.args.tremolo.isOn then (st, None)
    else Commit(env, st, st.(args := st.args.(tremolo := st.args.tremolo.(isOn := false))))
  }

  function SetEnvelopSpec(env: Env, st: DynState, attack: int, decay: int, sustain: real, release: int)
    : (DynState, Option<string>)
  {
    var e := EnvelopArgs(true, attack, decay, sustain, release);
    if e == st.args.envelop then (st, None)
    else Commit(env, st, st.(args := st.args.(envelop := e)))
  }

  function SetChordSpec(env: Env, st: DynState, chord: Option<Chords.ChordType>, arpeggioDelay: int)
    : (DynState, Option<string>)
  {
    if Chords.EqualsNil(st.chord.chord, chord) && st.chord.arpeggioDelay == arpeggioDelay then (st, None)
    else Commit(env, st, st.(chord := ChordOptions(chord, arpeggioDelay)))
  }

  function SetChordOffSpec(env: Env, st: DynState): (DynState, Option<string>)
  {
    if st.chord.chord.None? then (st, None)
    else Commit(env, st, st.(chord := st.chord.(chord := None)))
  }

  function SetOvertonesSpec(env: Env, st: DynState, count: int, gain: real): (DynState, Option<string>)
  {
    if st.overtones.count == count && st.overtones.gain == gain then (st, None)
    else Commit(env, st, st.(overtones := Overtones(count, gain)))
  }

  function SetFrequencySpec(env: Env, st: DynState, freq: Frequency): (DynState, Option<string>)
  {
    if freq.hz == st.args.frequency.hz then (st, None)
    else Commit(env, st, st.(args := st.args.(frequency := freq)))
  }

  /** `setGenerator`: the generator staged; the waveform recorded only
      once the rebuild has succeeded. */
  function SetGeneratorAsSpec(env: Env, st: DynState, waveform: Waveform, generator: Option<GeneratorFunc>)
    : (DynState, Option<string>)
  {
    Commit(env, st, st.(args := st.args.(generator := generator), waveform := waveform))
  }

  function SetGeneratorSpec(env: Env, st: DynState, generator: Option<GeneratorFunc>): (DynState, Option<string>)
  {
    SetGeneratorAsSpec(env, st, Unknown, generator)
  }

  function SetWaveformSpec(env: Env, st: DynState, waveform: Waveform): (DynState, Option<string>)
  {
    if waveform == st.waveform then (st, None)
    else
      match StreamerGenerator(waveform)
      case Err(e) => (st, Some(e))
      case Ok(generator) => SetGeneratorAsSpec(env, st, waveform, Some(generator))
  }

  /** `TriggerAttack`: not released, rebuilt (restarting the envelope and
      tremolo; a failure is ignored), and unsilenced. */
  function TriggerAttackSpec(env: Env, st: DynState): DynState
  {
    var st1 := st.(isReleased := false);
    Commit(env, st1, st1).0.(silenced := false)
  }

  /** `TriggerRelease`: released, and the installed tree wrapped in the
      release stage of the configured sustain and release (configured
      even when the envelope is off). */
  function TriggerReleaseSpec(env: Env, st: DynState): DynState
  {
    st.(isReleased := true,
        streamer := Envelopes.SetRelease(st.streamer, st.args.envelop.sustain, st.args.envelop.release, env.linear))
  }

  /** The streamer `Stream` reads: the silence generator while silenced,
      the installed tree otherwise. */
  function Source(st: DynState): Graph
  {
    if st.silenced then Silence else st.streamer
  }

  /** The setters that stage a new parameter value: the three outcomes of
      every one of them. An unchanged value is a no-op with no rebuild; a
      failed rebuild leaves the whole state as it was and reports the
      error; a successful one installs the tree built from the new value,
      and silences a released voice. */
  lemma SetterOutcomes(env: Env, st: DynState, pan: real, gain: real, freq: Frequency, count: int, overtoneGain: real)
    ensures pan == st.args.pan ==> SetPanSpec(env, st, pan) == (st, None)
    ensures SetPanSpec(env, st, pan).1.Some? ==> SetPanSpec(env, st, pan).0 == st
    ensures pan != st.args.pan && SetPanSpec(env, st, pan).1.None? ==>
      var st' := SetPanSpec(env, st, pan).0;
      st'.args == st.args.(pan := pan) && st'.streamer == Build(env, st'.args, st.chord, st.overtones).value &&
      st'.silenced == (st.silenced || st.isReleased) && st'.waveform == st.waveform
    ensures gain == st.args.gain ==> SetGainSpec(env, st, gain) == (st, None)
    ensures SetGainSpec(env, st, gain).1.Some? ==> SetGainSpec(env, st, gain).0 == st
    ensures freq.hz == st.args.frequency.hz ==> SetFrequencySpec(env, st, freq) == (st, None)
    ensures SetFrequencySpec(env, st, freq).1.Some? ==> SetFrequencySpec(env, st, freq).0 == st
    ensures st.overtones == Overtones(count, overtoneGain) ==> SetOvertonesSpec(env, st, count, overtoneGain) == (st, None)
    ensures SetOvertonesSpec(env, st, count, overtoneGain).1.Some? ==> SetOvertonesSpec(env, st, count, overtoneGain).0 == st
    ensures SetChordOffSpec(env, st).1.Some? ==> SetChordOffSpec(env, st).0 == st
    ensures SetTremoloOffSpec(env, st).1.Some? ==> SetTremoloOffSpec(env, st).0 == st
  {
  }

  /** The tremolo and envelope setters compare the whole record they
      would install, so setting the same values again is a no-op; and a
      failed rebuild rolls the record back. */
  lemma RecordSetterOutcomes(env: Env, st: DynState, length: int, startGain: real, endGain: real, pulsing: bool,
                             attack: int, decay: int, sustain: real, release: int)
    ensures st.args.tremolo == TremoloArgs(true, length, startGain, endGain, pulsing) ==>
      SetTremoloSpec(env, st, length, startGain, endGain, pulsing) == (st, None)
    ensures SetTremoloSpec(env, st, length, startGain, endGain, pulsing).1.Some? ==>
      SetTremoloSpec(env, st, length, startGain, endGain, pulsing).0 == st
    ensures SetTremoloSpec(env, st, length, startGain, endGain, pulsing).1.None? ==>
      SetTremoloSpec(env, st, length, startGain, endGain, pulsing).0.args.tremolo == TremoloArgs(true, length, startGain, endGain, pulsing)
    ensures st.args.envelop == EnvelopArgs(true, attack, decay, sustain, release) ==>
      SetEnvelopSpec(env, st, attack, decay, sustain, release) == (st, None)
    ensures SetEnvelopSpec(env, st, attack, decay, sustain, release).1.Some? ==>
      SetEnvelopSpec(env, st, attack, decay, sustain, release).0 == st
    ensures SetEnvelopSpec(env, st, attack, decay, sustain, release).1.None? ==>
      SetEnvelopSpec(env, st, attack, decay, sustain, release).0.args.envelop == EnvelopArgs(true, attack, decay, sustain, release)
  {
  }

  /** A chord equal by semitones (nil-aware) with the same delay is a
      no-op; otherwise the chord options are staged and rolled back on
      failure. */
  lemma SetChordOutcomes(env: Env, st: DynState, chord: Option<Chords.ChordType>, arpeggioDelay: int)
    ensures (st.chord.chord.None? && chord.None?) && st.chord.arpeggioDelay == arpeggioDelay ==>
      SetChordSpec(env, st, chord, arpeggioDelay) == (st, None)
    ensures st.chord.chord.Some? && chord.Some? && st.chord.chord.value.semitones == chord.value.semitones &&
            st.chord.arpeggioDelay == arpeggioDelay ==>
      SetChordSpec(env, st, chord, arpeggioDelay) == (st, None)
    ensures SetChordSpec(env, st, chord, arpeggioDelay).1.Some? ==> SetChordSpec(env, st, chord, arpeggioDelay).0 == st
    ensures SetChordSpec(env, st, chord, arpeggioDelay).1.None? && !Chords.EqualsNil(st.chord.chord, chord) ==>
      SetChordSpec(env, st, chord, arpeggioDelay).0.chord == ChordOptions(chord, arpeggioDelay)
  {
  }

  /** `SetWaveform`: the current waveform is a no-op; a waveform without a
      generator is an error that changes nothing; otherwise the waveform
      changes exactly when the rebuild with its generator succeeds.
      `SetGenerator` records `Unknown` on success. */
  lemma WaveformOutcomes(env: Env, st: DynState, w: Waveform, generator: Option<GeneratorFunc>)
    ensures w == st.waveform ==> SetWaveformSpec(env, st, w) == (st, None)
    ensures w != st.waveform && w !in AllWaveforms() ==> SetWaveformSpec(env, st, w) == (st, Some("waveform unknown"))
    ensures SetWaveformSpec(env, st, w).1.Some? ==> SetWaveformSpec(env, st, w).0 == st
    ensures w != st.waveform && SetWaveformSpec(env, st, w).1.None? ==>
      SetWaveformSpec(env, st, w).0.waveform == w &&
      SetWaveformSpec(env, st, w).0.args.generator == Some(StreamerGenerator(w).value)
    ensures SetGeneratorSpec(env, st, generator).1.None? ==>
      SetGeneratorSpec(env, st, generator).0.waveform == Unknown &&
      SetGeneratorSpec(env, st, generator).0.args.generator == generator
    ensures SetGeneratorSpec(env, st, generator).1.Some? ==> SetGeneratorSpec(env, st, generator).0 == st
  {
  }

  /** Silence and release: an attack plays the freshly built tree (or the
      old one, unsilenced, if the rebuild fails); a release keeps playing
      the old tree under the release stage; any successful rebuild while
      released is silent. */
  lemma AttackReleaseOutcomes(env: Env, st: DynState, pan: real)
    ensures var a := TriggerAttackSpec(env, st);
      var b := Build(env, st.args, st.chord, st.overtones);
      !a.isReleased && !a.silenced && a.args == st.args &&
      Source(a) == (if b.Ok? then b.value else st.streamer)
    ensures var r := TriggerReleaseSpec(env, st);
      r.isReleased && r.silenced == st.silenced && r.args == st.args &&
      (st.args.envelop.release == 0 ==> r.streamer == Silence) &&
      (st.args.envelop.release != 0 ==> r.streamer.EffectsChain? && r.streamer.inner == st.streamer)
    ensures st.isReleased && pan != st.args.pan && SetPanSpec(env, st, pan).1.None? ==>
      Source(SetPanSpec(env, st, pan).0) == Silence
  {
  }

  /** Initial parameters of `NewDynamicStreamer`: tremolo and envelope off
      with zero fields. */
  function InitialArgs(sampleRate: int, freq: Frequency, pan: real, gain: real, generator: Option<GeneratorFunc>): StreamerArgs
  {
    StreamerArgs(sampleRate, generator, freq, pan, gain,
                 TremoloArgs(false, 0, 0.0, 0.0, false), EnvelopArgs(false, 0, 0, 0.0, 0))
  }

  /** The state before the first `update`: zero values throughout, so the
      waveform reads `Sine`. The tree is not set yet; `Silence` stands for
      the empty streamer slot, which no caller sees. */
  function InitialState(args: StreamerArgs): DynState
  {
    DynState(args, Sine, false, false, Silence, ChordOptions(None, 0), Overtones(0, 0.0))
  }

  /** `NewDynamicStreamer`: the initial state after a first `update`, or
      that update's error. */
  function NewSpec(env: Env, sampleRate: int, freq: Frequency, pan: real, gain: real, generator: Option<GeneratorFunc>)
    : (r: Result<DynState, string>)
    ensures r.Err? <==> CreateStreamer(env, InitialArgs(sampleRate, freq, pan, gain, generator)).Err?
    ensures r.Ok? ==> (r.value.waveform == Sine && !r.value.silenced && !r.value.isReleased &&
      r.value.args == InitialArgs(sampleRate, freq, pan, gain, generator) &&
      r.value.streamer == CreateStreamer(env, InitialArgs(sampleRate, freq, pan, gain, generator)).value)
  {
    var st0 := InitialState(InitialArgs(sampleRate, freq, pan, gain, generator));
    var (st1, err) := Commit(env, st0, st0);
    if err.Some? then Err(err.value) else Ok(st1)
  }

  /** `NewWaveformDynamicStreamer` as written: the waveform's generator is
      used but the waveform itself is never stored. */
  function NewWaveformSpec(env: Env, sampleRate: int, freq: Frequency, pan: real, gain: real, waveform: Waveform)
    : (r: Result<DynState, string>)
    ensures waveform !in AllWaveforms() ==> r == Err("waveform unknown")
    ensures r.Ok? ==> r.value.waveform == Sine && r.value.args.generator == Some(StreamerGenerator(waveform).value)
  {
    match StreamerGenerator(waveform)
    case Err(e) => Err(e)
    case Ok(generator) => NewSpec(env, sampleRate, freq, pan, gain, Some(generator))
  }

  /** The consequence: a streamer made for `Square` reports `Sine`, and
      asking it for `Sine` is taken as no change, so it goes on playing a
      square wave. */
  lemma NewWaveformForgetsWaveform(env: Env)
    ensures var r := NewWaveformSpec(env, 44100, KnownFrequencies.A4(), 0.0, 1.0, Square);
      r.Ok? && r.value.waveform == Sine && r.value.args.generator == Some(ToneGenerator(SquareTone)) &&
      SetWaveformSpec(env, r.value, Sine) == (r.value, None)
  {
    ToneGeneratorAt(SquareTone, 44100, 440.0);
  }

  /** `NewWaveformDynamicStreamer` as intended: the waveform recorded. */
  function NewWaveformFixedSpec(env: Env, sampleRate: int, freq: Frequency, pan: real, gain: real, waveform: Waveform)
    : (r: Result<DynState, string>)
    ensures waveform !in AllWaveforms() ==> r == Err("waveform unknown")
  {
    match StreamerGenerator(waveform)
    case Err(e) => Err(e)
    case Ok(generator) =>
      match NewSpec(env, sampleRate, freq, pan, gain, Some(generator))
      case Err(e) => Err(e)
      case Ok(st) => Ok(st.(waveform := waveform))
  }

  /** With the waveform recorded, the streamer reports the waveform it
      plays, and asking for another known waveform rebuilds with that
      waveform's generator. */
  lemma NewWaveformFixedReports(env: Env, sampleRate: int, freq: Frequency, pan: real, gain: real, w: Waveform, v: Waveform)
    requires NewWaveformFixedSpec(env, sampleRate, freq, pan, gain, w).Ok? && v in AllWaveforms() && v != w
    ensures var st := NewWaveformFixedSpec(env, sampleRate, freq, pan, gain, w).value;
      st.waveform == w && st.args.generator == Some(StreamerGenerator(w).value) &&
      SetWaveformSpec(env, st, v) == SetGeneratorAsSpec(env, st, v, Some(StreamerGenerator(v).value))
  {
  }

  /** `dynamicStreamer`. */
  class DynamicStreamer {
    const env: Env
    var args: StreamerArgs
    var waveform: Waveform
    var silenced: bool
    var isReleased: bool
    var streamer: Graph
    var chordOptions: ChordOptions
    var overtones: Overtones

    function State(): DynState
      reads this
    {
      DynState(args, waveform, silenced, isReleased, streamer, chordOptions, overtones)
    }

    /** The record literal of `NewDynamicStreamer`, before its first
        update. */
    constructor (env: Env, args: StreamerArgs)
      ensures this.env == env && State() == InitialState(args)
    {
      this.env := env;
      this.args := args;
      waveform := Sine;
      silenced := false;
      isReleased := false;
      streamer := Graphs.Silence;
      chordOptions := ChordOptions(None, 0);
      overtones := Overtones(0, 0.0);
    }

    /** The getters read the state the operations below are specified by. */
    function Pan(): (p: real) reads this ensures p == State().args.pan { args.pan }
    function Gain(): (g: real) reads this ensures g == State().args.gain { args.gain }
    function Frequency(): (f: Pitch.Frequency) reads this ensures f == State().args.frequency { args.frequency }
    function Waveform(): (w: Waveforms.Waveform) reads this ensures w == State().waveform { waveform }
    function IsSilenced(): (b: bool) reads this ensures b == State().silenced { silenced }

    /** `Stream`'s choice of streamer. */
    function Current(): (g: Graph)
      reads this
      ensures g == Source(State())
    {
      if silenced then Graphs.Silence else streamer
    }

    method Silence()
      modifies this`silenced
      ensures silenced
    {
      silenced := true;
    }

    method Unsilence()
      modifies this`silenced
      ensures !silenced
    {
      silenced := false;
    }

    method ToggleSilence()
      modifies this`silenced
      ensures silenced == !old(silenced)
    {
      if silenced {
        Unsilence();
      } else {
        Silence();
      }
    }

    /** `addChord`: one pass over a fresh copy of the chord's semitones. */
    method AddChord(root: Graph) returns (g: Graph)
      requires chordOptions.chord.Some?
      ensures g == Mixer(ChordVoices(env, args, chordOptions.chord.value.semitones, chordOptions.arpeggioDelay, root))
    {
      var semitones := Chords.Semitones(chordOptions.chord.value);
      var voices: seq<Voice> := [];
      for i := 0 to semitones.Length
        invariant voices == ChordVoices(env, args, semitones[..i], chordOptions.arpeggioDelay, root)
      {
        var semitone := semitones[i];
        assert semitones[..i + 1][..i] == semitones[..i];
        if semitone == 0 {
          voices := voices + [Voice(0, root)];
          continue;
        }
        var built := CreateStreamer(env, ShiftedArgs(env, args, semitone));
        if built.Ok? {
          if chordOptions.arpeggioDelay > 0 {
            var delay := Min(i, 2) * chordOptions.arpeggioDelay;
            voices := voices + [Voice(delay, built.value)];
          } else {
            voices := voices + [Voice(0, built.value)];
          }
        }
      }
      assert semitones[..semitones.Length] == chordOptions.chord.value.semitones;
      g := Mixer(voices);
    }

    /** `addOvertones`: the root, then overtones 1 to `count`. */
    method AddOvertones(root: Graph) returns (g: Graph)
      requires overtones.count > 0
      ensures g == Mixer(OvertoneVoices(env, args, overtones.gain, root, overtones.count))
    {
      var voices := [Voice(0, root)];
      var i := 1;
      while i <= overtones.count
        invariant 1 <= i <= overtones.count + 1
        invariant voices == OvertoneVoices(env, args, overtones.gain, root, i - 1)
      {
        var argsCopy := args.(frequency := Frequencies.ShiftOctave(env.table, args.frequency, i, env.semitonePow));
        argsCopy := argsCopy.(gain := argsCopy.gain * overtones.gain);
        assert argsCopy == OvertoneArgs(env, args, i, overtones.gain);
        var overtone := CreateStreamer(env, argsCopy);
        if overtone.Ok? {
          voices := voices + [Voice(0, overtone.value)];
        }
        assert voices == OvertoneVoices(env, args, overtones.gain, root, i - 1) + Overtone(env, args, i, overtones.gain);
        i := i + 1;
      }
      g := Mixer(voices);
    }

    /** `update`. */
    method Update() returns (err: Option<string>)
      modifies this
      ensures (State(), err) == Commit(env, old(State()), old(State()))
    {
      var built := CreateStreamer(env, args);
      if built.Err? {
        return Some(built.error);
      }
      var g := built.value;
      if chordOptions.chord.Some? {
        g := AddChord(g);
      }
      if overtones.count > 0 {
        g := AddOvertones(g);
      }
      if isReleased {
        Silence();
      }
      streamer := g;
      return None;
    }

    method SetPan(pan: real) returns (err: Option<string>)
      modifies this
      ensures (State(), err) == SetPanSpec(env, old(State()), pan)
    {
      if pan == args.pan {
        return None;
      }
      var orig := args.pan;
      args := args.(pan := pan);
      err := Update();
      if err.Some? {
        args := args.(pan := orig);
      }
    }

    method SetGain(gain: real) returns (err: Option<string>)
      modifies this
      ensures (State(), err) == SetGainSpec(env, old(State()), gain)
    {
      if gain == args.gain {
        return None;
      }
      var orig := args.gain;
      args := args.(gain := gain);
      err := Update();
      if err.Some? {
        args := args.(gain := orig);
      }
    }

    /** `SetTremolo`, with the duration already converted to samples. */
    method SetTremolo(length: int, startGain: real, endGain: real, pulsing: bool) returns (err: Option<string>)
      modifies this
      ensures (State(), err) == SetTremoloSpec(env, old(State()), length, startGain, endGain, pulsing)
    {
      var orig := args.tremolo;
      args := args.(tremolo := TremoloArgs(true, length, startGain, endGain, pulsing));
      if orig == args.tremolo {
        return None;
      }
      err := Update();
      if err.Some? {
        args := args.(tremolo := orig);
      }
    }

    method SetTremoloOff() returns (err: Option<string>)
      modifies this
      ensures (State(), err) == SetTremoloOffSpec(env, old(State()))
    {
      if !args.tremolo.isOn {
        return None;
      }
      args := args.(tremolo := args.tremolo.(isOn := false));
      err := Update();
      if err.Some? {
        args := args.(tremolo := args.tremolo.(isOn := true));
      }
    }

    /** `SetEnvelop`, with the durations already converted to samples. */
    method SetEnvelop(attack: int, decay: int, sustain: real, release: int) returns (err: Option<string>)
      modifies this
      ensures (State(), err) == SetEnvelopSpec(env, old(State()), attack, decay, sustain, release)
    {
      var orig := args.envelop;
      args := args.(envelop := EnvelopArgs(true, attack, decay, sustain, release));
      if orig == args.envelop {
        return None;
      }
      err := Update();
      if err.Some? {
        args := args.(envelop := orig);
      }
    }

    method SetChord(chord: Option<Chords.ChordType>, arpeggioDelay: int) returns (err: Option<string>)
      modifies this
      ensures (State(), err) == SetChordSpec(env, old(State()), chord, arpeggioDelay)
    {
      if Chords.EqualsNil(chordOptions.chord, chord) && chordOptions.arpeggioDelay == arpeggioDelay {
        return None;
      }
      var orig := chordOptions;
      chordOptions := ChordOptions(chord, arpeggioDelay);
      err := Update();
      if err.Some? {
        chordOptions := orig;
      }
    }

    method SetChordOff() returns (err: Option<string>)
      modifies this
      ensures (State(), err) == SetChordOffSpec(env, old(State()))
    {
      if chordOptions.chord.None? {
        return None;
      }
      var orig := chordOptions;
      chordOptions := chordOptions.(chord := None);
      err := Update();
      if err.Some? {
        chordOptions := orig;
      }
    }

    method SetOvertones(count: int, gain: real) returns (err: Option<string>)
      modifies this
      ensures (State(), err) == SetOvertonesSpec(env, old(State()), count, gain)
    {
      if overtones.count == count && overtones.gain == gain {
        return None;
      }
      var orig := overtones;
      overtones := Overtones(count, gain);
      err := Update();
      if err.Some? {
        overtones := orig;
      }
    }

    method SetFrequency(freq: Pitch.Frequency) returns (err: Option<string>)
      modifies this
      ensures (State(), err) == SetFrequencySpec(env, old(State()), freq)
    {
      if freq.hz == args.frequency.hz {
        return None;
      }
      var orig := args.frequency;
      args := args.(frequency := freq);
      err := Update();
      if err.Some? {
        args := args.(frequency := orig);
      }
    }

    method SetWaveform(w: Waveforms.Waveform) returns (err: Option<string>)
      modifies this
      ensures (State(), err) == SetWaveformSpec(env, old(State()), w)
    {
      if w == waveform {
        return None;
      }
      var generator := StreamerGenerator(w);
      if generator.Err? {
        return Some(generator.error);
      }
      err := SetGeneratorAs(w, Some(generator.value));
    }

    method SetGenerator(generator: Option<GeneratorFunc>) returns (err: Option<string>)
      modifies this
      ensures (State(), err) == SetGeneratorSpec(env, old(State()), generator)
    {
      err := SetGeneratorAs(Unknown, generator);
    }

    /** `setGenerator`. */
    method SetGeneratorAs(w: Waveforms.Waveform, generator: Option<GeneratorFunc>) returns (err: Option<string>)
      modifies this
      ensures (State(), err) == SetGeneratorAsSpec(env, old(State()), w, generator)
    {
      var orig := args.generator;
      args := args.(generator := generator);
      err := Update();
      if err.Some? {
        args := args.(generator := orig);
        return;
      }
      waveform := w;
    }

    method TriggerAttack()
      modifies this
      ensures State() == TriggerAttackSpec(env, old(State()))
    {
      isReleased := false;
      var _ := Update();
      Unsilence();
    }

    method TriggerRelease()
      modifies this
      ensures State() == TriggerReleaseSpec(env, old(State()))
    {
      isReleased := true;
      streamer := Envelopes.SetRelease(streamer, args.envelop.sustain, args.envelop.release, env.linear);
    }
  }

  /** `NewDynamicStreamer`: a new streamer after its first update, or that
      update's error. */
  method NewDynamicStreamer(env: Env, sampleRate: int, freq: Frequency, pan: real, gain: real,
                            generator: Option<GeneratorFunc>) returns (r: Result<DynamicStreamer, string>)
    ensures var spec := NewSpec(env, sampleRate, freq, pan, gain, generator);
      (r.Err? <==> spec.Err?) && (r.Err? ==> r.error == spec.error) &&
      (r.Ok? ==> fresh(r.value) && r.value.env == env && r.value.State() == spec.value)
  {
    var s := new DynamicStreamer(env, InitialArgs(sampleRate, freq, pan, gain, generator));
    var err := s.Update();
    if err.Some? {
      return Err(err.value);
    }
    return Ok(s);
  }

  /** `NewWaveformDynamicStreamer` as written (see `NewWaveformSpec`). */
  method NewWaveformDynamicStreamer(env: Env, sampleRate: int, freq: Frequency, pan: real, gain: real, w: Waveform)
    returns (r: Result<DynamicStreamer, string>)
    ensures var spec := NewWaveformSpec(env, sampleRate, freq, pan, gain, w);
      (r.Err? <==> spec.Err?) && (r.Err? ==> r.error == spec.error) &&
      (r.Ok? ==> fresh(r.value) && r.value.env == env && r.value.State() == spec.value)
  {
    var generator := StreamerGenerator(w);
    if generator.Err? {
      return Err(generator.error);
    }
    r := NewDynamicStreamer(env, sampleRate, freq, pan, gain, Some(generator.value));
  }

  /** `NewWaveformDynamicStreamer` as intended (see `NewWaveformFixedSpec`). */
  method NewWaveformDynamicStreamerFixed(env: Env, sampleRate: int, freq: Frequency, pan: real, gain: real, w: Waveform)
    returns (r: Result<DynamicStreamer, string>)
    ensures var spec := NewWaveformFixedSpec(env, sampleRate, freq, pan, gain, w);
      (r.Err? <==> spec.Err?) && (r.Err? ==> r.error == spec.error) &&
      (r.Ok? ==> fresh(r.value) && r.value.env == env && r.value.State() == spec.value)
  {
    var generator := StreamerGenerator(w);
    if generator.Err? {
      return Err(generator.error);
    }
    r := NewDynamicStreamer(env, sampleRate, freq, pan, gain, Some(generator.value));
    if r.Ok? {
      r.value.waveform := w;
    }
  }
}
