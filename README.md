# synth streamers and widgets, modelled in Dafny

This project models the signal-graph core of the synth terminal
synthesizer (Go, built on the beep audio library), together with the value
logic of its widgets.

The core is the `streamers` package. It keeps a table of 144 pitches in
scientific pitch notation, from C-1 to B10, and shifts pitches by semitones
and octaves. Its dynamic streamer is the object behind one voice of the
synthesizer. That object holds the voice parameters: generator, frequency,
pan, gain, tremolo, ADSR envelope, chord and overtones. Every setter stages a
new value, rebuilds the streamer tree and rolls back when the rebuild fails.
The tree wraps a beep tone generator in pan, gain, a tremolo (an *effect
loop*, a stage that repeats every `length` samples) and an envelope (an
*effect chain*, stages played one after another). Chord and overtone mixers
hold copies of that tree at shifted pitches.

The widgets are the slider, the spinner, the two option pickers and the
tremolo panel. The model covers their cursor and value logic.

Foreign code is a node or a parameter of the model:
- beep's generators, `effects.Pan`, `effects.Gain`, `beep.Mixer` and the
  silence generator are constructors of the `Graphs.Graph` datatype;
- `math.Pow`, `effects.TransitionLinear` and `effects.TransitionEqualPower`
  are function parameters;
- bubblezone hit tests are input predicates (`hit`, `zone`).

Modules, file by file:
- `common.dfy`: `Common`. `Option`, `Result`, Go's `min` and Go's truncating `%`.
- `pitch.dfy`: `Pitch`. The `frequency` record and the table operations both
  revisions of the frequencies package share.
- `known_frequencies.dfy`: `KnownFrequencies`.
- `frequency.dfy`: `Frequencies`.
- `graph.dfy`: `Graphs`. The streamer tree.
- `effect_loops.dfy`: `EffectLoops`.
- `effect_chain.dfy`: `EffectChains`.
- `composers.dfy`: `Composers`.
- `tremolo.dfy`: `Tremolos`.
- `adsr.dfy`: `Envelopes`.
- `chords.dfy`: `Chords`.
- `waveform.dfy`: `Waveforms`.
- `dynamic_streamer.dfy`: `DynamicStreamers`.
- `mouse.dfy`: `Mouse`. The mouse messages the widgets react to.
- `slider.dfy`: `Sliders`.
- `spinner.dfy`: `Spinners`.
- `options.dfy`: `OptionPickers`.
- `options_legacy.dfy`: `LegacyOptionPickers`.
- `tremolo_control.dfy`: `TremoloControls`.

How the source's form is kept:
- Objects whose methods update fields are classes with `modifies` clauses:
  `DynamicStreamer`, `EffectsChain` and `EffectLoop`.
  - `EffectsChain` is proved against the pure step function
    `EffectChains.Step` and its iterate `EffectChains.Run`.
  - `DynamicStreamer` is proved against one specification function per
    setter.
- Value-receiver widgets are datatypes with functions. A widget operation
  that loops in Go is a method with a loop, proved against a function.

Three behaviours of the code worth noting:
- Effect-loop progress is the plain ratio up to and including the end of the
  first period, so a position equal to the length reads progress 1, not 0.
  Only beyond the first period are whole periods dropped
  (`EffectLoops.ProgressFirstPeriod`, `EffectLoops.ProgressLaterPeriods`).
- `TriggerRelease` releases from the configured sustain level, not from the
  level the envelope has reached.
- The slider's `Update` reacts to any left-button action (press, release or
  motion), not only to a click.

## Model

| member | source | states |
|---|---|---|
| Common.Min | streamers/dynamic_streamer.go:385 | Go's `min`: at most both arguments and equal to one of them |
| Common.GoRem | streamers/effect_loop.go:52-53 | Go's `%` truncates toward zero: it agrees with the Euclidean remainder on non-negative dividends and is non-positive with magnitude below the divisor on negative ones |
| Common.Frac | streamers/effect_loop.go:44-46 | `math.Modf`'s fractional part of a non-negative value lies in [0, 1) and leaves a whole number behind |
| Pitch.IndexOf | streamers/frequencies/known_frequencies.go:39 | `slices.Index`: -1 exactly when absent; otherwise a position holding the value with no earlier one holding it |
| Pitch.IndexOfIncreasing | streamers/frequencies/known_frequencies.go:39-45 | in a table without repeated Hz, `slices.Index` of an entry is its position |
| Pitch.HzIndexInverts | streamers/frequencies/known_frequencies.go:30-36 | over a table rising in Hz the Hz map sends every entry's Hz to that entry's index |
| Pitch.HzIndexSound | streamers/frequencies/known_frequencies.go:30-36 | every key of the Hz map indexes a table entry with that Hz |
| Pitch.HzIndexKeys | streamers/frequencies/known_frequencies.go:30-36 | the Hz map's keys are exactly the table's Hz values |
| Pitch.IndexByHz | streamers/frequencies/known_frequencies.go:30-36 | the index-filling loop builds exactly the map `HzIndex` describes |
| Pitch.Reversed | streamers/frequencies/known_frequencies.go:56-57 | a reversal keeps the length |
| Pitch.ReversedAt | streamers/frequencies/known_frequencies.go:56-57 | entry k of the reversal is entry len-1-k of the original |
| Pitch.SpanShape | streamers/frequencies/known_frequencies.go:47-59 | a span runs from entry i to entry j, has length abs(i-j)+1, and its k-th entry is k steps from i towards j |
| Pitch.SpanMonotone | streamers/frequencies/known_frequencies.go:47-59 | over a table rising in Hz, a span rises when it runs upward and falls strictly when it runs downward |
| Pitch.SpanIsRange | streamers/frequencies/known_frequencies.go:38-59 | the span between two members' first indices meets the definition of their inclusive range |
| Pitch.RangeMonotone | streamers/frequencies/known_frequencies.go:47-59 | a range rises in Hz when `from` is the lower pitch and falls when it is the higher |
| Pitch.RangeOf | streamers/frequencies/known_frequencies.go:38-59 | the shared `GetRange` body: nil exactly when an endpoint is missing, otherwise the fresh copy of the span, reversed when `from` lies above `to` |
| Pitch.ReverseInPlace | streamers/frequencies/known_frequencies.go:56-57 | `slices.Reverse` in place: entry k becomes old entry len-1-k |
| KnownFrequencies.TableFacts | streamers/frequencies/known_frequencies.go:12-25 | the table holds 144 pitches from C-1, strictly rising in Hz, all above 0 Hz; midi id equals the index for the first 128 entries and is -999 after |
| KnownFrequencies.Silence | streamers/frequencies/known_frequencies.go:62 | the silence pitch is 0 Hz and carries no midi id (-999) |
| KnownFrequencies.SilenceNotInTable | streamers/frequencies/known_frequencies.go:62 | `Silence` is 0 Hz with midi id -999, is no table entry, and its Hz is no key of the index |
| KnownFrequencies.EnharmonicAliases | streamers/frequencies/known_frequencies.go:64-277 | every sharp alias function returns the same record as its flat partner, in every octave |
| KnownFrequencies.InitKnownFrequencyIndexes | streamers/frequencies/known_frequencies.go:30-36 | the map's keys are the table's Hz values and each maps to its entry's index |
| KnownFrequencies.GetRange | streamers/frequencies/known_frequencies.go:38-60 | nil exactly when an endpoint is no table member; otherwise the inclusive run between them, rising when `from` is lower and strictly falling when it is higher |
| Frequencies.PackageTableRises | streamers/frequencies/frequency.go:232-250 | the package table has 144 entries strictly rising in Hz, the one assumption the lemmas make of `table` |
| Frequencies.InitFrequencyIndexes | streamers/frequencies/frequency.go:252-258 | for a table rising in Hz, the map knows exactly the table's Hz values and sends each to its entry's index |
| Frequencies.New | streamers/frequencies/frequency.go:269-280 | the pitch returned has the Hz asked for |
| Frequencies.NewCases | streamers/frequencies/frequency.go:269-280 | a table Hz gives that table entry itself; any other Hz gives a fresh pitch named after its Hz with midi id -999 |
| Frequencies.ShiftHz | streamers/frequencies/frequency.go:346-348 | the formula fallback lands on Hz times 2^(n/12) |
| Frequencies.ShiftSemitone | streamers/frequencies/frequency.go:328-340 | the shifted pitch is a table entry, or has the Hz of the formula, Hz times 2^(n/12) |
| Frequencies.ShiftOctave | streamers/frequencies/frequency.go:342-344 | the shifted pitch is a table entry, or has Hz times 2^(12k/12) |
| Frequencies.ShiftOnTable | streamers/frequencies/frequency.go:328-340 | from entry i, a shift by n with i+n on the table returns exactly entry i+n |
| Frequencies.ShiftOffTable | streamers/frequencies/frequency.go:328-340 | an off-table pitch, or a shift leaving the table, goes through the formula and `New` |
| Frequencies.ShiftSemitoneZero | streamers/frequencies/frequency.go:328-340 | shifting a table entry by 0 semitones returns it |
| Frequencies.ShiftSemitoneCompose | streamers/frequencies/frequency.go:328-340 | two on-table shifts by n then m are one shift by n+m |
| Frequencies.ShiftSemitoneRoundTrip | streamers/frequencies/frequency.go:328-340 | up n and back down n semitones from a table entry returns the entry |
| Frequencies.ShiftOctaveOnTable | streamers/frequencies/frequency.go:342-344 | an on-table shift by k octaves lands 12k entries along |
| Frequencies.GetRange | streamers/frequencies/frequency.go:282-304 | nil exactly when an endpoint is not in the table; otherwise the inclusive run, rising or strictly falling with the endpoints' order |
| EffectLoops.TransitionLoopShape | streamers/effect_loop.go:12-17 | the ping-pong curve maps 0, 0.5 and 1 to 0, 1 and 0, stays in [0, 1] and is symmetric on [0, 1] |
| EffectLoops.ProgressFirstPeriod | streamers/effect_loop.go:42-46 | within the first period the progress is pos/length, up to and including 1 |
| EffectLoops.ProgressLaterPeriods | streamers/effect_loop.go:42-46 | beyond the first period, k periods plus r samples read r/length |
| EffectLoops.TransitionLoop | streamers/effect_loop.go:12-17 | a progress in [0, 1] is mapped into [0, 1] |
| EffectLoops.Progress | streamers/effect_loop.go:41-46 | for 0 <= pos <= length the progress is pos/length (so 1 at pos == length); for any pos >= 0 it lies in [0, 1] |
| EffectLoops.EffectLoop.constructor | streamers/effect_loop.go:29-36 | a new loop is at position 0 with the given streamer, length, transition and effect |
| EffectLoops.EffectLoop.Stream | streamers/effect_loop.go:38-56 | the first n samples are rewritten by the effect at the transition of their position's progress, the rest are untouched, n and ok pass through, and pos becomes (pos+n) mod length |
| EffectChains.Advance | streamers/effect_chain.go:82-94 | `nextEffect`: one stage on, or back to 0 on the last stage when looping; no move and false exactly on the last stage of a chain that does not loop; the index stays a stage index |
| EffectChains.Step | streamers/effect_chain.go:55-74 | one sample keeps the stage index valid |
| EffectChains.Run | streamers/effect_chain.go:54-79 | any number of samples keeps the stage index valid |
| EffectChains.Rewrite | streamers/effect_chain.go:76 | one sample is replaced by the effect of its old value; the others stay |
| EffectChains.OutputInStage | streamers/effect_chain.go:56-76 | inside a stage the sample gets the stage's effect at its transition of timePos/length |
| EffectChains.OutputAtRest | streamers/effect_chain.go:66-70 | at rest every sample gets the resting stage's effect at progress 1 |
| EffectChains.Output | streamers/effect_chain.go:66-79 | a chain at rest writes the resting stage's effect at progress 1 |
| EffectChains.StepTime | streamers/effect_chain.go:58-64 | within a stage the time grows by one; a stage switch restarts it at 1 on the stage `nextEffect` picks |
| EffectChains.StepFinal | streamers/effect_chain.go:56-70 | at rest nothing moves and progress is 1; rest is reached only on the last stage of a chain that does not loop |
| EffectChains.StepStageEnd | streamers/effect_chain.go:60-70 | at a stage's end the next sample starts the next stage, wraps to the first when looping, or comes to rest with the transition of 1 |
| EffectChains.RunFrozen | streamers/effect_chain.go:56-58 | once at rest, always at rest in the same place |
| EffectChains.RunLoopNeverFinal | streamers/effect_chain.go:61-70 | a looping chain never comes to rest |
| EffectChains.RunAdd | streamers/effect_chain.go:54-79 | running j then k samples is running j+k |
| EffectChains.RunInStage | streamers/effect_chain.go:58-64 | while inside a stage the chain only counts samples |
| EffectChains.EffectsChain.constructor | streamers/effect_chain.go:31-35 | a new chain has no stages, does not loop and starts at stage 0, time 0, not at rest |
| EffectChains.EffectsChain.Append | streamers/effect_chain.go:37-40 | the new stage goes after the others and the builder is the chain itself |
| EffectChains.EffectsChain.Loop | streamers/effect_chain.go:42-45 | sets the loop flag and returns the chain |
| EffectChains.EffectsChain.Build | streamers/effect_chain.go:47-49 | returns the chain itself |
| EffectChains.EffectsChain.NextEffect | streamers/effect_chain.go:82-94 | moves the stage index as `Advance` says and returns its flag |
| EffectChains.EffectsChain.Tick | streamers/effect_chain.go:56-70 | one pass of the sample loop moves the position as `Step` says |
| EffectChains.EffectsChain.StreamSample | streamers/effect_chain.go:54-77 | one pass steps the position and rewrites sample i as `Output` says, touching no other sample |
| EffectChains.EffectsChain.Stream | streamers/effect_chain.go:51-80 | the position after n samples is `Run` of n; sample i gets `Output` at `Run` of i; samples from n on are untouched; n and ok pass through |
| Composers.TransitionLoopRamp | streamers/composers/transition_funcs.go:21-28 | the combinator feeds f the ping-pong ramp, so applied to the identity it is the streamers package's own `TransitionLoop` |
| Composers.TransitionLoopShape | streamers/composers/transition_funcs.go:21-28 | maps 0, 0.5 and 1 to f(0), f(1) and f(0), is symmetric on [0, 1], and gives f arguments in [0, 1] |
| Composers.TransitionLoop | streamers/composers/transition_funcs.go:21-28 | the looped function gives f(0) at 0, f(1) at the middle of the period and f(0) again at its end |
| Composers.GainTransitionEffectAt | streamers/composers/effect_funcs.go:5-10 | both channels are scaled by the gain interpolated linearly from startGain to endGain |
| Composers.GainTransitionEffectShape | streamers/composers/effect_funcs.go:5-10 | startGain at progress 0, endGain at 1, one gain for both channels, constant when the ends agree, silence stays silent |
| Composers.GainTransitionEffect | streamers/composers/effect_funcs.go:5-10 | at progress 0 both channels are scaled by startGain, at progress 1 by endGain |
| Composers.NewEffectLoop | streamers/composers/effect_loop.go:17-24 | a fresh loop at position 0 over the given streamer, length, transition and effect |
| Tremolos.TransitionEffectFuncAt | streamers/tremolo.go:8-13 | the tremolo effect is the composers gain effect: linear gain, the same on both channels |
| Tremolos.TransitionEffectFuncEnds | streamers/tremolo.go:8-13 | gain startGain at progress 0 and endGain at progress 1 |
| Tremolos.TransitionEffectFunc | streamers/tremolo.go:8-13 | at progress 0 both channels are scaled by startGain, at progress 1 by endGain |
| Tremolos.Tremolo | streamers/tremolo.go:15-22 | the tremolo is an effect loop over the given streamer |
| Tremolos.TremoloModes | streamers/tremolo.go:15-22 | pulsing: period length on the equal-power curve; swinging: period 2*length on the ping-pong curve; both with the same gain effect |
| Tremolos.SwingingTremoloPeaks | streamers/tremolo.go:15-22 | a swinging tremolo scales by startGain at the start of each period and by endGain half way through |
| Envelopes.EnvelopeFuncsAt | streamers/adsr_envelope.go:8-18 | attack scales by p, decay by 1 + (sustain-1)p, release by sustain - sustain*p, on both channels |
| Envelopes.AttackFunc | streamers/adsr_envelope.go:8-10 | silence at progress 0, the input unchanged at progress 1 |
| Envelopes.DecayFunc | streamers/adsr_envelope.go:12-14 | the input unchanged at progress 0, scaled by the sustain level at progress 1 |
| Envelopes.ReleaseFunc | streamers/adsr_envelope.go:16-18 | the input scaled by the sustain level at progress 0, silence at progress 1 |
| Envelopes.SetAttackDecaySustain | streamers/adsr_envelope.go:20-30 | the input itself exactly when attack and decay are 0 and sustain is 1; otherwise a non-looping two-stage linear chain over it of lengths attack and decay |
| Envelopes.SetRelease | streamers/adsr_envelope.go:32-41 | silence exactly when release is 0; otherwise a non-looping one-stage linear chain over the input of length release |
| Envelopes.TwoStageSwitch | streamers/effect_chain.go:58-64 | a two-stage chain reaches the start of its second stage one sample after the end of the first |
| Envelopes.TwoStageRest | streamers/effect_chain.go:66-70 | a two-stage non-looping chain is at rest on its second stage one sample after the end of both |
| Envelopes.TwoStageRun | streamers/adsr_envelope.go:25-29 | where the attack-decay chain is after k samples: in attack, in decay, then at rest for good |
| Envelopes.SustainHolds | streamers/adsr_envelope.go:25-29 | after attack+decay samples every sample is the input scaled by the sustain level |
| Envelopes.AttackRamps | streamers/adsr_envelope.go:8-10 | sample k of the attack is the input scaled by the linear curve at (k+1)/attack |
| Envelopes.OneStageRest | streamers/effect_chain.go:66-70 | a one-stage non-looping chain is at rest from one sample past its stage's end |
| Envelopes.ReleaseSilences | streamers/adsr_envelope.go:32-41 | after release+1 samples a released note is silent for good |
| Chords.ChordTypes | streamers/chords/chords.go:68-70 | nine chords in menu order M, m, 4, 6, 7, maj7, m7, aug, dim |
| Chords.Semitones | streamers/chords/chords.go:41-45 | a freshly allocated array holding the chord's offsets |
| Chords.SlicesEqual | streamers/chords/chords.go:55 | same length and equal element by element |
| Chords.Equals | streamers/chords/chords.go:51-56 | false against nil; otherwise true exactly when the semitone sequences agree |
| Chords.EqualsNil | streamers/chords/chords.go:58-66 | two nils are equal, nil and a chord are not, two chords compare by semitones |
| Chords.EqualsNilEquivalence | streamers/chords/chords.go:58-66 | nil-aware equality is reflexive, symmetric and transitive |
| Chords.ClimbsStrictly | streamers/chords/chords.go:6-17 | offsets climbing step by step climb throughout |
| Chords.CatalogShape | streamers/chords/chords.go:6-17 | every catalog chord has at least three notes, starts on semitone 0 and climbs strictly |
| Chords.CatalogDistinct | streamers/chords/chords.go:6-17 | each catalog chord equals itself and no other |
| Waveforms.AllWaveforms | streamers/waveform.go:39-41 | the five known waveforms 0 to 4 in order, without Unknown |
| Waveforms.Digits | streamers/waveform.go:47 | the decimal form of a natural number is non-empty and all digits |
| Waveforms.DigitsRoundTrip | streamers/waveform.go:47 | a number reads back from its digits |
| Waveforms.ItoaRoundTrip | streamers/waveform.go:47 | `strconv.Itoa` loses nothing: the number reads back from its decimal form, signs included |
| Waveforms.String | streamers/waveform.go:43-48 | a known waveform's name, the decimal number of any other value |
| Waveforms.StringValues | streamers/waveform.go:21-29 | the five names, and "-1" for Unknown |
| Waveforms.NameIsNoNumber | streamers/waveform.go:43-48 | no name is the decimal form of an unknown value |
| Waveforms.StringInjective | streamers/waveform.go:43-48 | distinct waveforms print differently |
| Waveforms.StreamerGenerator | streamers/waveform.go:50-56 | a generator exactly for the known waveforms, "waveform unknown" otherwise |
| Waveforms.StreamerGeneratorTones | streamers/waveform.go:30-37 | each known waveform's generator builds its own tone kind at the requested rate and Hz below half the sample rate, fails above, and distinct waveforms give distinct kinds |
| DynamicStreamers.CreateStreamer | streamers/dynamic_streamer.go:414-425 | an error exactly when there is no generator, the pan is outside [-1, 1], or the generator fails, with each case's own message, checked in that order |
| DynamicStreamers.CreateStreamerLayers | streamers/dynamic_streamer.go:427-451 | the tree is, from outside in, envelope, tremolo, gain (as gain-1), pan, then the generator's tree whole; each layer exactly under its condition |
| DynamicStreamers.PanLayers | streamers/dynamic_streamer.go:427-432 | the pan stage adds a pan layer exactly when pan is not 0 |
| DynamicStreamers.GainLayers | streamers/dynamic_streamer.go:434-439 | the gain stage adds a gain layer of gain-1 exactly when gain is not 1 |
| DynamicStreamers.TremoloLayers | streamers/dynamic_streamer.go:443-445 | the tremolo stage adds a loop layer exactly when the tremolo is on, of period length when pulsing and 2*length otherwise |
| DynamicStreamers.EnvelopLayers | streamers/dynamic_streamer.go:447-449 | the envelope stage adds a two-stage chain exactly when the envelope is on and not neutral |
| DynamicStreamers.ChordVoices | streamers/dynamic_streamer.go:372-394 | the chord mixer has at most one voice per semitone |
| DynamicStreamers.ChordVoicesMembers | streamers/dynamic_streamer.go:374-391 | a voice is in the chord mixer exactly when some semitone gives it: the root for 0, a buildable shifted copy otherwise |
| DynamicStreamers.ChordVoiceDelay | streamers/dynamic_streamer.go:381-389 | with a positive arpeggio delay voice i enters after min(i, 2) delays, at most two delays; with none, at once; the root always at once |
| DynamicStreamers.ChordRootFirst | streamers/dynamic_streamer.go:376-378 | a chord starting on semitone 0 puts the root streamer first, entering at once |
| DynamicStreamers.OvertoneVoices | streamers/dynamic_streamer.go:396-412 | the overtone mixer has the root first and at most count+1 voices |
| DynamicStreamers.OvertoneVoicesMembers | streamers/dynamic_streamer.go:396-412 | a voice is in the overtone mixer exactly when it is the root or a buildable overtone 1 to count |
| DynamicStreamers.OvertoneVoicesComplete | streamers/dynamic_streamer.go:400-409 | with every overtone buildable the mixer has count+1 voices, overtone i at index i, shifted i octaves with gain times the overtone gain |
| DynamicStreamers.Build | streamers/dynamic_streamer.go:350-362 | the rebuild fails exactly when the voice itself fails, with its error |
| DynamicStreamers.BuildNesting | streamers/dynamic_streamer.go:356-362 | the chord mixer only when a chord is set, inside the overtone mixer only when count > 0, the plain voice otherwise |
| DynamicStreamers.Commit | streamers/dynamic_streamer.go:350-370 | on failure the state is the one before the setter and the error is returned; on success the staged state with the new tree, silenced when released |
| DynamicStreamers.SetterOutcomes | streamers/dynamic_streamer.go:150-303 | an unchanged value is a no-op; a failed rebuild leaves the state as it was; a successful pan change installs the tree built from the new pan and silences a released voice |
| DynamicStreamers.RecordSetterOutcomes | streamers/dynamic_streamer.go:184-236 | setting the same tremolo or envelope record is a no-op; failure rolls the record back; success stores it |
| DynamicStreamers.SetChordOutcomes | streamers/dynamic_streamer.go:238-252 | a chord equal by semitones (nil-aware) with the same delay is a no-op; failure rolls back; success stores the chord options |
| DynamicStreamers.WaveformOutcomes | streamers/dynamic_streamer.go:309-335 | the current waveform is a no-op; an unknown one errs without change; the waveform changes only with a successful rebuild; `SetGenerator` records Unknown |
| DynamicStreamers.AttackReleaseOutcomes | streamers/dynamic_streamer.go:337-366 | attack unreleases, unsilences and plays the rebuilt tree (or the old one if the rebuild fails); release wraps the old tree in the configured release or is silence; a rebuild while released is silent |
| DynamicStreamers.NewSpec | streamers/dynamic_streamer.go:97-113 | fails exactly when the first build fails; otherwise Sine, not silenced, not released, with the given parameters and the built tree |
| DynamicStreamers.NewWaveformSpec | streamers/dynamic_streamer.go:88-95 | as written: an unknown waveform errs; otherwise the waveform's generator is used but the recorded waveform is Sine |
| DynamicStreamers.NewWaveformForgetsWaveform | streamers/dynamic_streamer.go:88-95 | a Square streamer at 44100 Hz reports Sine, and asking it for Sine is taken as no change |
| DynamicStreamers.NewWaveformFixedSpec | streamers/dynamic_streamer.go:88-95 | corrected: an unknown waveform errs |
| DynamicStreamers.NewWaveformFixedReports | streamers/dynamic_streamer.go:309-320 | corrected: the streamer reports the waveform it plays, and another known waveform rebuilds with that waveform's generator |
| DynamicStreamers.DynamicStreamer.constructor | streamers/dynamic_streamer.go:98-106 | the record literal: the given parameters, Sine, not silenced, not released, the silence tree |
| DynamicStreamers.DynamicStreamer.Current | streamers/dynamic_streamer.go:115-120 | `Stream` plays silence when silenced and the installed tree otherwise |
| DynamicStreamers.DynamicStreamer.Pan | streamers/dynamic_streamer.go:146-148 | the pan of the state the setters are specified on |
| DynamicStreamers.DynamicStreamer.Gain | streamers/dynamic_streamer.go:165-167 | the gain of the state the setters are specified on |
| DynamicStreamers.DynamicStreamer.Frequency | streamers/dynamic_streamer.go:286-288 | the pitch of the state the setters are specified on |
| DynamicStreamers.DynamicStreamer.Waveform | streamers/dynamic_streamer.go:305-307 | the waveform of the state the setters are specified on, so after `NewWaveformDynamicStreamer` it reads what `NewWaveformSpec` records |
| DynamicStreamers.DynamicStreamer.IsSilenced | streamers/dynamic_streamer.go:126-128 | the silence flag of the state the silencing operations are specified on |
| DynamicStreamers.DynamicStreamer.Silence | streamers/dynamic_streamer.go:130-132 | sets the silenced flag |
| DynamicStreamers.DynamicStreamer.Unsilence | streamers/dynamic_streamer.go:134-136 | clears the silenced flag |
| DynamicStreamers.DynamicStreamer.ToggleSilence | streamers/dynamic_streamer.go:138-144 | flips the silenced flag |
| DynamicStreamers.DynamicStreamer.AddChord | streamers/dynamic_streamer.go:372-394 | the loop builds the mixer of `ChordVoices` |
| DynamicStreamers.DynamicStreamer.AddOvertones | streamers/dynamic_streamer.go:396-412 | the loop builds the mixer of `OvertoneVoices` |
| DynamicStreamers.DynamicStreamer.Update | streamers/dynamic_streamer.go:350-370 | the new state and error are `Commit` of the current state |
| DynamicStreamers.DynamicStreamer.SetPan | streamers/dynamic_streamer.go:150-163 | follows `SetPanSpec` |
| DynamicStreamers.DynamicStreamer.SetGain | streamers/dynamic_streamer.go:169-182 | follows `SetGainSpec` |
| DynamicStreamers.DynamicStreamer.SetTremolo | streamers/dynamic_streamer.go:184-202 | follows `SetTremoloSpec` |
| DynamicStreamers.DynamicStreamer.SetTremoloOff | streamers/dynamic_streamer.go:204-216 | follows `SetTremoloOffSpec` |
| DynamicStreamers.DynamicStreamer.SetEnvelop | streamers/dynamic_streamer.go:218-236 | follows `SetEnvelopSpec` |
| DynamicStreamers.DynamicStreamer.SetChord | streamers/dynamic_streamer.go:238-252 | follows `SetChordSpec` |
| DynamicStreamers.DynamicStreamer.SetChordOff | streamers/dynamic_streamer.go:254-267 | follows `SetChordOffSpec` |
| DynamicStreamers.DynamicStreamer.SetOvertones | streamers/dynamic_streamer.go:269-284 | follows `SetOvertonesSpec` |
| DynamicStreamers.DynamicStreamer.SetFrequency | streamers/dynamic_streamer.go:290-303 | follows `SetFrequencySpec`, comparing by Hz |
| DynamicStreamers.DynamicStreamer.SetWaveform | streamers/dynamic_streamer.go:309-320 | follows `SetWaveformSpec` |
| DynamicStreamers.DynamicStreamer.SetGenerator | streamers/dynamic_streamer.go:322-324 | follows `SetGeneratorSpec`: the generator with waveform Unknown |
| DynamicStreamers.DynamicStreamer.SetGeneratorAs | streamers/dynamic_streamer.go:326-335 | follows `SetGeneratorAsSpec`: stage, rebuild, roll both back on failure |
| DynamicStreamers.DynamicStreamer.TriggerAttack | streamers/dynamic_streamer.go:337-342 | follows `TriggerAttackSpec` |
| DynamicStreamers.DynamicStreamer.TriggerRelease | streamers/dynamic_streamer.go:344-348 | follows `TriggerReleaseSpec` |
| DynamicStreamers.NewDynamicStreamer | streamers/dynamic_streamer.go:97-113 | nil and the error exactly when `NewSpec` errs, otherwise a fresh streamer in the state `NewSpec` gives |
| DynamicStreamers.NewWaveformDynamicStreamer | streamers/dynamic_streamer.go:88-95 | as written: the state `NewWaveformSpec` gives |
| DynamicStreamers.NewWaveformDynamicStreamerFixed | streamers/dynamic_streamer.go:88-95 | corrected: the state `NewWaveformFixedSpec` gives, waveform recorded |
| Sliders.Validate | models/base/slider/slider_model.go:106-108 | legal exactly when within [min, max] and a whole number of steps below max |
| Sliders.Value | models/base/slider/slider_model.go:94-96 | the value of a valid slider lies in [min, max] a whole number of steps below max |
| Sliders.NewAsWritten | models/base/slider/slider_model.go:32-49 | as written: succeeds exactly when min < max, the span is a whole number of steps and the value is legal, whatever the step's sign |
| Sliders.MinAlwaysLegal | models/base/slider/slider_model.go:41-43 | the check of min never reports its error |
| Sliders.NegativeStepAccepted | models/base/slider/slider_model.go:32-49 | a negative step is accepted, and every grid point then stays at or below max, so the grid loops never end |
| Sliders.New | models/base/slider/slider_model.go:32-49 | corrected: succeeds exactly when the step is positive as well; each failure has its own message in the code's order; success is valid |
| Sliders.NewIgnoresMids | models/base/slider/slider_model.go:32-49 | the mid marks never decide whether `New` succeeds |
| Sliders.SetValue | models/base/slider/slider_model.go:98-104 | a legal value is set; any other leaves the slider and reports the error |
| Sliders.SetValueReadsBack | models/base/slider/slider_model.go:94-104 | setting keeps the slider valid and reads back; a failed set keeps the old value |
| Sliders.FirstHitOnGrid | models/base/slider/slider_model.go:62-68 | the first hit is a clicked grid point between the start and max |
| Sliders.FirstHitIsFirst | models/base/slider/slider_model.go:62-68 | no earlier grid point was clicked, and with no hit none up to max was |
| Sliders.Update | models/base/slider/slider_model.go:55-71 | the grid search loop computes `UpdateSpec` |
| Sliders.GridPointLegal | models/base/slider/slider_model.go:106-108 | a grid point of a valid slider is a legal value |
| Sliders.UpdateKeepsValid | models/base/slider/slider_model.go:55-71 | only a left-button message changes anything, only the value, to the first clicked grid point, so the slider stays valid |
| Sliders.View | models/base/slider/slider_model.go:73-92 | one cell per grid point from min up to max, each the cell of its point |
| Sliders.GridCount | models/base/slider/slider_model.go:75 | the number of grid points of a valid slider is (max-min)/step + 1 |
| Sliders.ValueGridIndex | models/base/slider/slider_model.go:77-78 | the value sits on the grid at index (value-min)/step, and max is the last grid point |
| Sliders.ViewCells | models/base/slider/slider_model.go:73-92 | (max-min)/step + 1 cells, exactly one value mark at the value's index, edge marks at both ends unless the value is there |
| Spinners.New | models/base/spinner/spinner_model.go:34-47 | cursor 0 on the given options; valid exactly when there is an option |
| Spinners.Value | models/base/spinner/spinner_model.go:49-51 | the value of a valid spinner is one of its options |
| Spinners.SetValue | models/base/spinner/spinner_model.go:53-58 | an index in range moves the cursor there; any other is ignored |
| Spinners.Prev | models/base/spinner/spinner_model.go:76-87 | keeps the options and the cyclic flag |
| Spinners.Next | models/base/spinner/spinner_model.go:89-100 | keeps the options and the cyclic flag |
| Spinners.Update | models/base/spinner/spinner_model.go:64-74 | anything but a left release on a button changes nothing |
| Spinners.MovesStayInRange | models/base/spinner/spinner_model.go:76-100 | both moves keep the cursor on an option; one step inside the list; wrap when cyclic, stay when not, at the ends |
| Spinners.CyclicInverse | models/base/spinner/spinner_model.go:76-100 | in cyclic mode prev undoes next and next undoes prev |
| Spinners.ClampedEnds | models/base/spinner/spinner_model.go:76-100 | without wrapping, next on the last and prev on the first change nothing |
| Spinners.UpdateKeepsValid | models/base/spinner/spinner_model.go:64-100 | every message keeps a valid spinner valid over the same options |
| OptionPickers.New | models/base/options/options_model.go:32-44 | starts on "none" exactly when it is allowed, else on the first option |
| OptionPickers.Value | models/base/options/options_model.go:46-52 | no value exactly when "none" is selected, else the selected option |
| OptionPickers.SetValue | models/base/options/options_model.go:54-61 | the last option equal to v is selected; with none equal the cursor stays |
| OptionPickers.ClearValue | models/base/options/options_model.go:63-68 | selects "none" when allowed, else changes nothing |
| OptionPickers.Update | models/base/options/options_model.go:74-92 | a left release applies the clicks option by option; anything else changes nothing |
| OptionPickers.ClicksKeepValid | models/base/options/options_model.go:74-92 | the cursor stays on an option or on an allowed "none" |
| OptionPickers.ClicksMissed | models/base/options/options_model.go:80-89 | clicks outside every option change nothing |
| OptionPickers.ClickOnOne | models/base/options/options_model.go:80-89 | a click on the selected option deselects it when "none" is allowed; on any other option it selects that option |
| OptionPickers.ClicksFrom | models/base/options/options_model.go:80-89 | options after the last hit leave the cursor alone |
| LegacyOptionPickers.New | models/base/options/options-model.go:24-29 | cursor 0; valid exactly when there is an option |
| LegacyOptionPickers.Value | models/base/options/options-model.go:31-33 | the value of a valid picker is one of its options |
| LegacyOptionPickers.SetValue | models/base/options/options-model.go:35-42 | the last occurrence of v is selected; when v is absent nothing changes |
| LegacyOptionPickers.Update | models/base/options/options-model.go:48-62 | a left release selects the last option hit, so the cursor stays on an option; with no hit, or any other message, nothing changes |
| TremoloControls.SpeedValues | models/base/tremolo/tremolo-control-model.go:27 | fifteen periods, all positive |
| TremoloControls.Gain | models/base/tremolo/tremolo-control-model.go:175-177 | a valid panel's gain lies in [-1, 2] |
| TremoloControls.StartGain | models/base/tremolo/tremolo-control-model.go:179-184 | 1 when reversed, the gain otherwise |
| TremoloControls.EndGain | models/base/tremolo/tremolo-control-model.go:186-191 | the gain when reversed, 1 otherwise |
| TremoloControls.ReverseSwaps | models/base/tremolo/tremolo-control-model.go:179-191 | flipping reverse swaps the start and end gains |
| TremoloControls.DurationSeconds | models/base/tremolo/tremolo-control-model.go:166-168 | a positive period taken from the table |
| TremoloControls.Duration | models/base/tremolo/tremolo-control-model.go:162-164 | the period in whole nanoseconds, truncated |
| TremoloControls.DurationInTable | models/base/tremolo/tremolo-control-model.go:55 | a valid panel's speed index is inside the period table |
| TremoloControls.New | models/base/tremolo/tremolo-control-model.go:52-70 | valid; off, not pulsing, not reversed; middle period 0.1 s (100000000 ns); gain 0.5, start 0.5, end 1; mids [7] and [0, 10] |
| TremoloControls.Update | models/base/tremolo/tremolo-control-model.go:76-116 | a message outside every widget, or no mouse message, changes nothing |
| TremoloControls.UpdateKeepsValid | models/base/tremolo/tremolo-control-model.go:76-116 | every message keeps the panel valid, so the gain stays in [-1, 2] and the period in the table |

## Left out

- beep itself: the tone generators, `effects.Pan`, `effects.Gain`, `beep.Mixer` and the silence generator produce no samples here. They are nodes of `Graphs.Graph`, and a generator is a function that may fail.
- Generators fail exactly when the frequency is at least half the sample rate. This is an assumption about beep, taken from the comment on overtones in dynamic_streamer.go.
- `math.Pow(semitoneMultiplier, n)` is the parameter `semitonePow`. `effects.TransitionLinear` and `effects.TransitionEqualPower` are parameters too. The `TransitionLinear`/`TransitionEqualPower` wrappers in composers are therefore not modelled separately.
- Floating point is modelled as `real`. Only the fractional-part reading of `math.Modf` is kept, as `Common.Frac`.
- `sampleRate.N(duration)`: tremolo and envelope durations reach the model as sample counts. Arpeggio delays stay in nanoseconds.
- Concurrency: the atomic flag and the atomic streamer slot are plain fields. Each `time.AfterFunc` arpeggio timer is the delay attached to its mixer voice.
- `Err` of the effect chain, the effect loops and the dynamic streamer delegates to the wrapped streamer. beep's errors are not modelled, so these methods are not modelled.
- Effect-chain stages or an effect loop of length 0 divide by zero (Inf/NaN in Go, or a panic for the loop modulo). The model requires non-zero lengths.
- Go's `int` is 64-bit. The model's integers are unbounded, so overflow of positions, durations or slider arithmetic is not modelled.
- `fmt.Sprintf("%vHz", hz)` names are kept symbolic as `HzLabel(hz)`. The tremolo panel's `timesPerSecond` text is not modelled.
- The pitch names in frequency.go are mis-encoded text. The model uses the proper names of known_frequencies.go for both revisions.
- The frequency.go package variables are the parameter `table` of the `Frequencies` operations. `Frequencies.PackageTableRises` discharges the lemmas' assumption for the 144-entry table.
- Facts about single landmark entries of the pitch table, such as "entry 69 is A4", are not stated. Each is too costly to prove over the 144-entry table.
- Rendering: the widgets' `View` strings, lipgloss styles and bubblezone marks. Only the slider's cell symbols are modelled (`Sliders.View`).
- Layout: which widget or cell a click lands on is an input (`hit`, `zone`). The zone id prefixes are not modelled.
- The checkbox is its boolean.
- `OptionPickers.Value`: Go's zero value of a reference option type is nil, modelled as `None`.
- `OptionPickers.SetValue`: the option's `Equals` method is the parameter `equals`.
- `TremoloControls.Update`: Go tries the zone handlers in map order. The model lets the layout pick the widget (`zone`), which assumes the zones do not overlap.
- `Init` methods return no command, and the tremolo panel's getters `IsOn`, `Pulsing` and `Reverse` are plain field reads. None of them is modelled separately.
- `LegacyOptionPickers` is the older revision of the options widget. It cannot be compiled with the newer one, so it is its own module.
- main.go, the keyboard, oscillator, envelope, chords and overtones control models, styles, messages and zone handlers are not part of this model. They are UI shell code that only forwards widget values.
- The Windows keyboard file is not part of this model; it is OS-specific system calls.

## Findings

| source | as written | input that shows it | evidently intended | confidence | as-written member | corrected member |
|---|---|---|---|---|---|---|
| streamers/dynamic_streamer.go:88-95 | `NewWaveformDynamicStreamer` uses the waveform's generator but never stores the waveform, so `Waveform()` reports Sine | Square at 44100 Hz on A4: the streamer plays a square wave, reports Sine, and `SetWaveform(Sine)` is taken as no change | the waveform is recorded with its generator | not executed | DynamicStreamers.NewWaveformForgetsWaveform | DynamicStreamers.NewWaveformFixedReports |
| models/base/slider/slider_model.go:32-49 | `New` never checks the sign of the step; with a negative step the grid loops of `Update` and `View` (lines 62 and 75) count down from min and never pass max | `New(0, 10, -1, 5)` succeeds, and every grid point 0 - k stays at or below 10 | the step must be positive | not executed | Sliders.NegativeStepAccepted | Sliders.New |
