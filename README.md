# PixelDrive signal-chain core, modelled in Dafny

PixelDrive is a JUCE guitar-effects plugin. Each channel runs through its own mono processor chain of stages: gain, distortion, cabinet convolution, reverb and a lowpass "noise gate". The project models the bookkeeping around that chain and proves what it promises. The DSP numerics are not modelled.

Sample values are `real`. `tanh`, the IIR filter arithmetic, the library's dB-to-gain conversion and a mono chain's stage processing are function parameters of the operations that use them. A coefficient-builder call is recorded as a `Dsp.Coefs` value holding its arguments (sample rate, frequency, Q, gain).

One module per source file:

- `Dsp` (`dsp.dfy`) holds the shared vocabulary:
  - recorded coefficient sets and waveshaper transfer functions;
  - `juce::dsp::ProcessorDuplicator` around an IIR filter: the coefficient object its `state` reference names, the one its filters were built with, and whether they are still shared;
  - `juce::jmap` and its lemmas;
  - `roundToInt` (nearest integer, an exact half to the even neighbour, wrapped to 32 bits), `std::ceil`, and the `size_t` cast, which sign-extends and wraps modulo 2^64;
  - buffer rows.
- `ChainSettings` (`chain_settings.dfy`) is the settings record and its member initialisers.
- `DelayClass` (`delay.dfy`) holds:
  - `DelayLine`, a class over an `array` with a ghost `History`: `History[k]` is what `get(k)` returns;
  - the multi-channel `Delay` class;
  - the per-sample algorithm of `process`, given as the recursive function `DelayRun`, which the in-place methods are proved against.
- `ClampOutput` (`clamp_output.dfy`) is `protectYourEars` over an `array2` buffer. It is specified by the function `Protect` on the buffer's contents.
- `DistortionClass` (`distortion.dfy`) holds:
  - the four-slot processor chain and its composition;
  - the deferred tone-change cache: `lastToneValue`, `toneChanged` and the pending lambda;
  - the `Distortion` class.
- `AmpSimClass` (`amp_sim.dfy`) holds the tone-stack knob mappings, the recorded filter calls and the `AmpSimulator` class.
- `ReverbClass` (`reverb.dfy`) is the mapping from settings to `juce::Reverb::Parameters`.
- `PresetManager` (`preset_manager.dfy`) holds:
  - the preset store as pure functions over a name-to-snapshot map and the current state;
  - next/previous index selection;
  - the `PresetManager` class, whose methods are proved against those functions.
- `PluginProcessor` (`plugin_processor.dfy`) holds:
  - the parameter layout and `getChainSettings`;
  - the `MonoChain` stage order and its composition;
  - the `Distortion` and `Reverb` classes of `PluginProcessor.h`, including the variant that installs the tone immediately;
  - the processor's `prepareToPlay` and `processBlock`.

What the processor actually runs:

- The `MonoChain` has five stages: pre-gain, distortion, cabinet, reverb, noise gate. The amp simulator and the delay are not in it.
- The parameter layout declares six parameters: pre-gain, the distortion's pre-gain, tone, post-gain and clarity, and the noise gate.
- The tone ranges over [0.01, 100].
- The noise gate ranges over [10000, 20000] Hz and is a single first-order lowpass.
- The distortion's highpass and the noise-gate lowpass are `ProcessorDuplicator`s. Their filters are built from `state` by the first `prepareToPlay`, as a 1 kHz highpass and a 10 kHz lowpass at that sample rate, and they keep running those. The later `state = ...` assignments only record new objects (see Findings).
- Each chain's pre-gain is a default `juce::dsp::Gain`, which has linear gain 0 (silence) until `prepareToPlay` sets it from the settings. The model writes this initial gain as `None`.
- The processor never calls `Reverb::setParams`, so its reverbs keep the library's default parameters. `Processor.Valid` records this.

Three hazards in the source are made explicit:

- `delayTimes` is never initialised before `prepare` reads it. The `Delay` constructor takes the indeterminate values as a parameter. `NegativeDelayTimeWraps` shows that a negative garbage value becomes an offset far beyond any line. `LongDelayTimeWraps` shows that a garbage value whose product with the sample rate is 2^31 or more wraps through the 32-bit `int` of `roundToInt` before the cast.
- At `MAX_DELAY_TIME` the rounded offset equals the line size, which breaks `get`'s precondition (`MaxDelayTimeFillsLine`). `Process` requires every offset to be below its line's size, as the source's `jassert` does.
- `isBusesLayoutSupported` accepts a mono layout, but `processBlock` always takes channel 1. `ProcessBlock` therefore requires at least two buffer channels.

## Model

| member | source | states |
|---|---|---|
| Dsp.RoundHalfEven | modules/DelayClass.h:195 | the nearest integer, strictly within half of its argument unless the argument is an exact half, and then the even neighbour |
| Dsp.ToInt32 | modules/DelayClass.h:195 | the 32-bit wrap lands in [-2^31, 2^31), differs from its argument by a multiple of 2^32, and keeps values already in range |
| Dsp.RoundToInt | modules/DelayClass.h:195 | roundToInt returns a 32-bit int; inside the int range it lands within half of its argument and sends an exact half to the even neighbour |
| Dsp.Ceil | modules/DelayClass.h:186 | ceil is the least integer at or above its argument |
| Dsp.ToSizeT | modules/DelayClass.h:195 | the size_t cast keeps values in [0, 2^64) and wraps negative ones by adding 2^64 |
| Dsp.JmapEndpoints | modules/AmpSimClass.h:124-128 | `Jmap`, the linear map of juce::jmap, sends the source range's ends to the destination range's ends |
| Dsp.JmapMonotone | modules/AmpSimClass.h:124-128 | jmap is increasing for an increasing destination range and decreasing for a reversed one |
| Dsp.JmapWithin | modules/AmpSimClass.h:136-140 | a value inside the source range maps inside the destination range |
| Dsp.AssignState | PluginProcessor.cpp:201-202 | `state = make...(...)` records the new coefficients, detaches `state` from the built filters and leaves the coefficients they run unchanged |
| Dsp.WriteState | modules/AmpSimClass.h:129-130 | `*state = *make...(...)` records the new coefficients, and filters that share the object run them |
| Dsp.PrepareDuplicator | PluginProcessor.cpp:105-106 | the first prepare builds the filters on the current state object and shares it; a later prepare leaves a built duplicator exactly as it was |
| Dsp.CallsKeepLinked | PluginProcessor.cpp:87-203 | any sequence of assignments, writes and prepares keeps "a shared object means the filters run the state" |
| Dsp.AssignmentsNeverReachFilter | PluginProcessor.cpp:201-202 | once the filters are built, no sequence of assignments and prepares changes the coefficients they run |
| Dsp.WritesReachFilter | modules/AmpSimClass.h:129-130 | after a building prepare, with writes instead of assignments the filters always run the state, and after a write they run what was written |
| DelayClass.SlotIsModulo | modules/DelayClass.h:29-31 | the wrap-free slot formula equals (leastRecentIndex + 1 + k) % size |
| DelayClass.PushHistory | modules/DelayClass.h:41-44 | writing the least recent slot and moving the index down one (wrapping at 0) puts the new sample at offset 0 and moves every other sample one offset older |
| DelayClass.SetHistory | modules/DelayClass.h:35-38 | writing the slot of offset k changes what get(k) returns and no other offset |
| DelayClass.BackIsOldest | modules/DelayClass.h:25-27 | back() reads the oldest sample, get(size - 1), which the next push overwrites |
| DelayClass.DelayLine.constructor | modules/DelayClass.h:47-48 | a new line is empty with index 0 |
| DelayClass.DelayLine.Clear | modules/DelayClass.h:12-14 | every offset reads 0 afterwards; storage, size and index are unchanged |
| DelayClass.DelayLine.Resize | modules/DelayClass.h:20-23 | the line has n samples (a kept prefix, zero-filled) and the index is reset to 0 |
| DelayClass.DelayLine.Back | modules/DelayClass.h:25-27 | returns the oldest sample |
| DelayClass.DelayLine.Get | modules/DelayClass.h:29-32 | for an offset below size (the jassert), returns the sample pushed that many pushes before the latest |
| DelayClass.DelayLine.Set | modules/DelayClass.h:35-38 | for an offset below size, get of that offset returns the new value and every other offset is unchanged |
| DelayClass.DelayLine.Push | modules/DelayClass.h:41-44 | get(0) returns the pushed value, get(k+1) returns the old get(k), the oldest sample is dropped and the index stays in range |
| DelayClass.OffsetOf | modules/DelayClass.h:195 | the offset is below 2^64; for a delay product in [0, 2^31 - 1] it is within half a sample of the product; a product below -0.5 inside the int range gives an offset of at least 2^64 - 2^31 |
| DelayClass.LineSize | modules/DelayClass.h:184-186 | the line capacity is maxDelayTime * sampleRate rounded up |
| DelayClass.OffsetFits | modules/DelayClass.h:30 | for a delay product inside the int range, an offset is in get's range exactly when the rounded delay is below the rounded-up capacity |
| DelayClass.MaxDelayTimeFillsLine | modules/DelayClass.h:6 | at 44.1 kHz and MAX_DELAY_TIME, offset and line size are both 88200, so the offset is one past get's range |
| DelayClass.NegativeDelayTimeWraps | modules/DelayClass.h:193-196 | an indeterminate delay time of -1 s becomes an offset of 2^64 - 44100 after the cast |
| DelayClass.HalfSampleRoundsToEven | modules/DelayClass.h:195 | a delay of 0.125 s at 44.1 kHz is 5512.5 samples and rounds to the even offset 5512 |
| DelayClass.LongDelayTimeWraps | modules/DelayClass.h:195 | a delay product of 2205000000 samples wraps to a negative int, which the cast turns into an offset near 2^64 |
| DelayClass.Step | modules/DelayClass.h:154-163 | one sample of the loop writes one output and keeps the line's length; what it writes is stated by OutputAt and ProcessSample |
| DelayClass.DelayRun | modules/DelayClass.h:146-164 | the specification of the sample loop: one output per sample and a line of unchanged length; its content is stated by OutputAt, LineIgnoresBypass, OnePushPerSample, RecentPushes and Echo |
| DelayClass.OutputAt | modules/DelayClass.h:153-163 | output sample i is the input (bypassed) or input + wetLevel times the filtered sample read from the line before sample i was pushed |
| DelayClass.BypassedIsDry | modules/DelayClass.h:158-159 | bypassed, the block is written back unchanged |
| DelayClass.LineIgnoresBypass | modules/DelayClass.h:154-157 | the line and the filter state evolve identically whether bypassed or not and whatever the wet level |
| DelayClass.OnePushPerSample | modules/DelayClass.h:157 | after n samples the old history sits n offsets further back: exactly one push per sample, bypassed or not |
| DelayClass.RecentPushes | modules/DelayClass.h:156-157 | without feedback the line holds tanh of the latest inputs, newest first |
| DelayClass.Echo | modules/DelayClass.h:153-163 | without feedback and with a pass-through filter, output i is input i plus wetLevel * tanh(input[i - 1 - offset]) |
| DelayClass.ProcessSample | modules/DelayClass.h:154-163 | one iteration of the sample loop does exactly one step of the specified algorithm on the line, the filter state and the output sample |
| DelayClass.RunChannel | modules/DelayClass.h:153-164 | the sample loop over a channel leaves the channel, line and filter state as DelayRun specifies; other channels are untouched |
| DelayClass.Delay.constructor | modules/DelayClass.h:56-58 | zeroed offsets, indeterminate delay times, zero feedback and wet level, 44.1 kHz, 2 s maximum, empty lines |
| DelayClass.Delay.UpdateDelayLineSize | modules/DelayClass.h:184-190 | every channel's line is resized to ceil(maxDelayTime * sampleRate) with index 0; nothing else changes |
| DelayClass.Delay.UpdateDelayTime | modules/DelayClass.h:193-196 | every channel's offset becomes size_t(roundToInt(delayTime * sampleRate)) |
| DelayClass.Delay.SetMaxDelayTime | modules/DelayClass.h:91-95 | requires a positive time; stores it and resizes every line to the new capacity |
| DelayClass.Delay.Prepare | modules/DelayClass.h:61-74 | sets the sample rate, sizes the lines twice (current maximum, then MAX_DELAY_TIME), recomputes the offsets and installs a 1 kHz highpass in reset filters |
| DelayClass.Delay.SetFeedback | modules/DelayClass.h:98-101 | requires a value in [0, 1] and stores it |
| DelayClass.Delay.SetWetLevel | modules/DelayClass.h:104-107 | requires a value in [0, 1] and stores it |
| DelayClass.Delay.SetBypassed | modules/DelayClass.h:123-125 | stores the flag |
| DelayClass.Delay.SetDelayTime | modules/DelayClass.h:110-120 | a channel out of range changes nothing; otherwise the time is stored and every offset recomputed |
| DelayClass.Delay.SetParams | modules/DelayClass.h:128-133 | delay time, wet level, feedback and bypass come from the settings, with the setters' preconditions |
| DelayClass.Delay.ProcessChannel | modules/DelayClass.h:147-164 | one channel runs through its own line, offset and filter state as DelayRun specifies |
| DelayClass.Delay.Process | modules/DelayClass.h:137-166 | every channel of the block is processed by its own line and filter; channels absent from the block leave their line and filter untouched; parameters, offsets, delay times, sample rate and maximum delay time are unchanged |
| ClampOutput.Clamp | ClampOutput.h:22-33 | hard clipping: in [-1, 1], the identity there, and -1 or 1 beyond |
| ClampOutput.Protect | ClampOutput.h:7-37 | the buffer protectYourEars leaves has the shape of the one it was given; its samples are stated by LoudClears, QuietClamps and QuietOutsideUntouched |
| ClampOutput.Magnitude | ClampOutput.h:11 | getMagnitude: the largest absolute sample of the region, attained by some sample, 0 when empty |
| ClampOutput.LoudClears | ClampOutput.h:11-15 | one sample above 2 in magnitude in the region zeroes the whole buffer, including channels already clipped and samples outside the region |
| ClampOutput.QuietClamps | ClampOutput.h:22-33 | otherwise samples below -1 become -1, above 1 become 1, and the rest keep their value |
| ClampOutput.QuietOutsideUntouched | ClampOutput.h:10-16 | without clearing, samples beyond sampleCount or in channels beyond numChannels are untouched |
| ClampOutput.RegionInRange | ClampOutput.h:16-36 | whichever way it returns, every sample of the region ends in [-1, 1] |
| ClampOutput.ProtectedIsQuiet | ClampOutput.h:10-15 | a protected buffer never triggers the clearing branch |
| ClampOutput.Idempotent | ClampOutput.h:7-37 | protecting twice equals protecting once |
| ClampOutput.Clear | ClampOutput.h:13 | buffer.clear() zeroes every sample |
| ClampOutput.ProtectYourEars | ClampOutput.h:7-37 | the nested loop with its early return leaves exactly Protect of the buffer it was given |
| DistortionClass.SlotIndex | modules/DistortionClass.h:80-86 | each enum value is its slot's position in the chain |
| DistortionClass.ChainComposition | modules/DistortionClass.h:95 | `RunSlots`, with the filter slot of `ApplySlot` running the coefficients its filter was built with, computes postGain * tanh(tone * preGain * highpass(x)): filter, pre-gain, waveshaper, post-gain in that order; the state last assigned to the duplicator plays no part |
| DistortionClass.Prepared | modules/DistortionClass.h:24-30 | prepare records a 1 kHz highpass; the first prepare builds the filter on it, a later one keeps the filter already built; gains and shaper unchanged |
| DistortionClass.FilterFixedAtFirstPrepare | modules/DistortionClass.h:24-30 | from a new duplicator, after the first prepare and any later clarity assignments and prepares, the filter runs the first prepare's 1 kHz highpass |
| DistortionClass.OutputBelowPostGain | modules/DistortionClass.h:52-55 | with tanh in (-1, 1), the stage's output is smaller in magnitude than the linear post-gain |
| DistortionClass.NoteTone | modules/DistortionClass.h:49-57 | the tone part of setParams never touches the installed waveshaper |
| DistortionClass.Install | modules/DistortionClass.h:70-77 | updateWaveShaper always leaves the flag cleared and the remembered tone and pending lambda as they were |
| DistortionClass.InitialIsConsistent | modules/DistortionClass.h:88-89 | initially lastToneValue is 1, nothing is pending and tanh(x) is installed |
| DistortionClass.NoteToneEffect | modules/DistortionClass.h:49-57 | a new tone raises the flag, becomes pending and is remembered; the same tone changes nothing |
| DistortionClass.NoteToneKeepsConsistent | modules/DistortionClass.h:49-57 | setParams keeps the invariant: without a pending change the installed tone is lastToneValue |
| DistortionClass.InstallKeepsConsistent | modules/DistortionClass.h:70-77 | updateWaveShaper keeps the invariant and installs the tone lastToneValue |
| DistortionClass.InstallIdempotent | modules/DistortionClass.h:72-76 | a second updateWaveShaper changes nothing |
| DistortionClass.NoteThenInstall | modules/DistortionClass.h:46-77 | setParams followed by updateWaveShaper runs the settings' tone |
| DistortionClass.NoteTones | modules/DistortionClass.h:46-57 | any number of setParams calls leave the installed waveshaper alone |
| DistortionClass.TonesKeepConsistent | modules/DistortionClass.h:46-57 | any sequence of setParams calls keeps the invariant |
| DistortionClass.Distortion.constructor | modules/DistortionClass.h:7-21 | tanh(x) installed, 50 dB pre-gain, 0 dB post-gain, consistent cache, filter not built |
| DistortionClass.Distortion.Prepare | modules/DistortionClass.h:24-30 | the chain becomes Prepared of the old one: a 1 kHz highpass recorded, the filter built on it if it was not yet; nothing else changes |
| DistortionClass.Distortion.SetParams | modules/DistortionClass.h:46-67 | the tone is noted but not installed; both gains are overwritten; the clarity highpass is recorded as the state while the filter keeps running what it ran |
| DistortionClass.Distortion.UpdateWaveShaper | modules/DistortionClass.h:70-77 | installs the pending waveshaper exactly when a change is flagged |
| AmpSimClass.PeakFilterCoefs | modules/AmpSimClass.h:53-66 | the mid filter is a peak at 1550 Hz, Q 0.1, with the given gain in dB |
| AmpSimClass.LowShelfCoefs | modules/AmpSimClass.h:146-166 | the low shelf at 1000 Hz, Q 0.7 with gain numerator / denominator; non-finite exactly when the denominator is 0 |
| AmpSimClass.LowCutRange | modules/AmpSimClass.h:124-128 | `LowCutFreq`: the low cut is 65 Hz at bass 0 and 1 Hz at 10, strictly decreasing |
| AmpSimClass.HighShelfGainRange | modules/AmpSimClass.h:136-140 | `HighShelfGain`: the high-shelf gain is 0.1 at treble 0 and 1 at 10, increasing, within [0.1, 1] on the knob |
| AmpSimClass.LowShelfDenominatorRange | modules/AmpSimClass.h:148-152 | `LowShelfDenominator`: the denominator runs from 10 to 1 and lies in [1, 10] on the knob, so the division is defined |
| AmpSimClass.LowShelfNumeratorRange | modules/AmpSimClass.h:156-160 | `LowShelfNumerator`: the numerator runs from 1 to 0.9 and lies in [0.9, 1] on the knob |
| AmpSimClass.LowShelfGainRange | modules/AmpSimClass.h:162-166 | with both knobs on [0, 10] the low shelf is finite with a gain factor in [0.09, 1] |
| AmpSimClass.MidGainRange | modules/AmpSimClass.h:171 | `MidGain`: the mid gain runs from -20 dB to -9 dB and is always a cut on the knob |
| AmpSimClass.DefaultTrebleExtrapolates | modules/AmpSimClass.h:136-166 | nothing is clamped: the settings' default treble 20000 gives numerator -199, high-shelf gain 1800.1 and low-shelf gain -19.9 |
| AmpSimClass.AmpSimulator.constructor | modules/AmpSimClass.h:50 | no coefficients, no gain and no waveshaper function yet, nothing bypassed |
| AmpSimClass.AmpSimulator.Prepare | modules/AmpSimClass.h:69-84 | 1 dB input gain, all four filters active, tanh(x) in the waveshaper; coefficients unchanged |
| AmpSimClass.AmpSimulator.SetParams | modules/AmpSimClass.h:100-176 | records each coefficient call from the knob mappings and the input gain; bypass flags and waveshaper unchanged |
| ReverbClass.DampingFallsWithIntensity | modules/ReverbClass.h:29-43 | `ReverbParams`, the parameters setParams builds: damping is 1 - intensity, so it strictly falls as intensity grows |
| ReverbClass.DryWetBalance | modules/ReverbClass.h:35-36 | dry is 1 - wet and wet is the wet mix, so they sum to 1 |
| ReverbClass.PassThrough | modules/ReverbClass.h:37-38 | room size and width are copied unchanged |
| ReverbClass.FreezeFollowsShimmer | modules/ReverbClass.h:40 | freeze mode is 1 exactly when shimmer is on, else 0 |
| ReverbClass.UnitRange | modules/ReverbClass.h:34-40 | settings in [0, 1] give parameters in [0, 1] |
| ReverbClass.DefaultParams | modules/ReverbClass.h:34-40 | the default settings give damping 0.5, wet 0.33, dry 0.67, room 0.5, width 1, no freeze |
| PresetManager.Save | Service/PresetManager.cpp:35-37 | an empty name changes nothing |
| PresetManager.Delete | Service/PresetManager.cpp:51-60 | an empty or missing name changes nothing |
| PresetManager.Load | Service/PresetManager.cpp:70-79 | loading never touches the directory; an empty or missing name changes nothing |
| PresetManager.EmptyNameChangesNothing | Service/PresetManager.cpp:36-37 | save, delete and load of the empty name all leave the store as it was |
| PresetManager.LoadSetsCurrent | Service/PresetManager.cpp:81-85 | loading an existing preset restores its parameters and makes it the current preset |
| PresetManager.SaveSetsCurrent | Service/PresetManager.cpp:39-47 | saving names the current preset even if the write fails, keeps the parameters, and stores the file when written |
| PresetManager.DeleteClearsCurrent | Service/PresetManager.cpp:55-66 | deleting an existing preset removes only its file and clears the current name |
| PresetManager.SaveThenLoad | Service/PresetManager.cpp:39-47 | loading a preset just saved restores exactly the saved state |
| PresetManager.IndexOf | Service/PresetManager.cpp:93 | indexOf returns the first position of the name, or -1 exactly when it is absent |
| PresetManager.NextIndex | Service/PresetManager.cpp:93-94 | next is current + 1, wrapping from the last index to 0, always in range |
| PresetManager.PreviousIndex | Service/PresetManager.cpp:104-105 | previous is current - 1, wrapping from 0 (or an absent current) to size - 1, always in range |
| PresetManager.LoadNext | Service/PresetManager.cpp:89-97 | -1 on an empty listing, else an index in range whose preset is loaded |
| PresetManager.LoadPrevious | Service/PresetManager.cpp:100-108 | -1 on an empty listing, else an index in range whose preset is loaded |
| PresetManager.MissingCurrentSelectsEnds | Service/PresetManager.cpp:93-94 | a current preset missing from the listing selects 0 for next and size - 1 for previous |
| PresetManager.IndexOfDistinct | Service/PresetManager.cpp:93 | in a listing without repeats indexOf finds each entry at its own position |
| PresetManager.NextThenPreviousIndex | Service/PresetManager.cpp:104-105 | over a listing without repeats, previous of next is the starting index |
| PresetManager.NextThenPrevious | Service/PresetManager.cpp:89-108 | when loads succeed, next then previous returns to the starting preset and its index |
| PresetManager.PresetManager.constructor | Service/PresetManager.cpp:15-28 | attaches to the directory and the state whose presetName the current preset refers to |
| PresetManager.PresetManager.GetCurrentPreset | Service/PresetManager.cpp:122-124 | the current preset is the state's presetName property |
| PresetManager.PresetManager.SavePreset | Service/PresetManager.cpp:35-48 | the manager's store becomes Save of the old one |
| PresetManager.PresetManager.DeletePreset | Service/PresetManager.cpp:51-67 | the manager's store becomes Delete of the old one |
| PresetManager.PresetManager.LoadPreset | Service/PresetManager.cpp:70-86 | the manager's store becomes Load of the old one |
| PresetManager.PresetManager.LoadNextPreset | Service/PresetManager.cpp:89-97 | store and returned index are LoadNext of the old store |
| PresetManager.PresetManager.LoadPreviousPreset | Service/PresetManager.cpp:100-108 | store and returned index are LoadPrevious of the old store |
| PluginProcessor.DefaultsWithinRanges | PluginProcessor.cpp:257-281 | every declared default lies within its declared, non-empty range |
| PluginProcessor.LayoutDeclaresEachParameterOnce | PluginProcessor.cpp:253-284 | `ParameterLayout`, the parameters createParameterLayout adds: the layout declares every parameter getChainSettings reads, once each, under distinct ID strings |
| PluginProcessor.DefaultValues | PluginProcessor.cpp:257-281 | a fresh state holds every parameter at its declared default |
| PluginProcessor.GetChainSettings | PluginProcessor.cpp:234-249 | copies preGain, the four distortion parameters and noiseGate; every other field keeps the struct default |
| PluginProcessor.DefaultSettings | PluginProcessor.cpp:234-281 | at the layout defaults the settings differ from the struct defaults in tone (5, not 1) and noise gate (17500, not 0) |
| PluginProcessor.SettingsWithinRanges | PluginProcessor.cpp:257-281 | in-range parameters give settings in those ranges: a positive tone and a 10-20 kHz noise-gate cutoff |
| PluginProcessor.StageIndex | PluginProcessor.h:247-254 | each ChainPositions value is its stage's position in MonoChain |
| PluginProcessor.StagesAppearOnce | PluginProcessor.h:259 | each stage occurs once in the chain |
| PluginProcessor.MonoChainComposition | PluginProcessor.h:259 | `RunStages` in chain order is noiseGate(reverb(cab(distortion(preGain(x))))), each stage given what processing reads from the chain |
| PluginProcessor.RunStagesKeepsLength | PluginProcessor.cpp:173-182 | stages that keep the block length give a chain that keeps it |
| PluginProcessor.Prepared | PluginProcessor.cpp:87-116 | after prepareToPlay the highpass runs 1 kHz and the lowpass 10 kHz at its sample rate if they were not built yet, and otherwise what they ran; the pre-gain is the settings' |
| PluginProcessor.WithParams | PluginProcessor.h:161-179 | setParams records the clarity highpass as the state; the filter keeps running what it ran |
| PluginProcessor.Configured | PluginProcessor.cpp:187-202 | the end of processBlock: what processing reads takes the settings' pre-gain, distortion gains and tone, but keeps the running highpass and lowpass; the clarity and noise-gate filters are only recorded as states |
| PluginProcessor.ConfiguredReadsSixFields | PluginProcessor.cpp:187-202 | only pre-gain, the four distortion settings and the noise gate reach the chains |
| PluginProcessor.ConfiguredDistortion | PluginProcessor.h:161-179 | after setParams the tone and gains apply at once: postGain * tanh(tone * preGain * highpass(x)), where the highpass is the one built before; below the post-gain in magnitude |
| PluginProcessor.BuiltFiltersStay | PluginProcessor.cpp:87-203 | once both filters are built, no sequence of prepareToPlay and processBlock calls changes what they run |
| PluginProcessor.FiltersFixedAtFirstPrepare | PluginProcessor.cpp:87-203 | from construction, after the first prepareToPlay at rate r, the filters run HP(r, 1 kHz) and LP(r, 10 kHz) whatever clarity, noise gate and rates follow |
| PluginProcessor.PreparedInPlace | PluginProcessor.cpp:99-106 | prepareToPlay writing the states in place: records the 1 kHz highpass and 10 kHz lowpass and leaves both filters built |
| PluginProcessor.ConfiguredInPlace | PluginProcessor.cpp:187-202 | processBlock's updates written in place: the states are the clarity highpass and the noise-gate lowpass of the settings |
| PluginProcessor.InPlaceKeepsSharing | PluginProcessor.cpp:87-203 | with in-place writes, both filters keep sharing their states through any sequence of calls |
| PluginProcessor.InPlaceSettingsRun | PluginProcessor.cpp:187-202 | with in-place writes the filters always run their states, and after a processBlock the settings' clarity highpass and noise-gate lowpass |
| PluginProcessor.Silenced | PluginProcessor.cpp:163-164 | an output channel without an input is all zeros; any other channel is unchanged |
| PluginProcessor.Distortion.constructor | PluginProcessor.h:122-136 | tanh(x) installed, 50 dB pre-gain, 0 dB post-gain, filter not built |
| PluginProcessor.Distortion.Prepare | PluginProcessor.h:139-145 | the chain becomes Prepared of the old one: a 1 kHz highpass recorded, and built if the filter was not yet |
| PluginProcessor.Distortion.SetParams | PluginProcessor.h:161-179 | installs tanh(tone * x) and both gains, whatever was there before; records the clarity highpass, which the built filter does not run |
| PluginProcessor.Reverb.constructor | PluginProcessor.h:20-21 | no parameters handed to the library reverb yet |
| PluginProcessor.Reverb.SetParams | PluginProcessor.h:43-59 | hands the library exactly the mapping of the reverb stage in modules/ReverbClass.h |
| PluginProcessor.ClearExtraOutputs | PluginProcessor.cpp:163-164 | output channels in [inputs, outputs) are zeroed and every other sample is untouched |
| PluginProcessor.ReplaceChannel | PluginProcessor.cpp:178-182 | a channel is replaced in place by its processed samples; other channels are untouched |
| PluginProcessor.Processor.constructor | PluginProcessor.h:259-261 | two separate, identically configured chains whose pre-gains are the library default (linear 0) and not yet set, and whose filters are not built |
| PluginProcessor.Processor.PrepareToPlay | PluginProcessor.cpp:87-116 | each chain becomes Prepared of the old one: noise-gate state a 10 kHz lowpass, distortion prepared, filters built if not yet, then both pre-gains from the settings; the chains stay alike |
| PluginProcessor.Processor.ProcessBlock | PluginProcessor.cpp:148-203 | clears unfed outputs, runs channel 0 and channel 1 through what the chains ran before the call (their built filters, not their recorded states), then each chain becomes Configured of the old one from the current parameters |
| PluginProcessor.Processor.ProcessChains | PluginProcessor.cpp:173-182 | the left chain processes channel 0 and the right chain channel 1; other channels are untouched |
| PluginProcessor.Processor.UpdateChains | PluginProcessor.cpp:184-202 | both chains become Configured of the old one from one settings snapshot: the same pre-gain, distortion settings and recorded noise-gate lowpass |

## Left out

- NaN and infinity checks in `protectYourEars` (ClampOutput.h:18-21): they only log, and reals have no NaN. `DBG` logging and the `firstWarning` flag are not modelled either.
- Floating point in general: every `float`/`double` is a real, so `0.33f`, `0.01f` and the like are exact decimals and rounding is not modelled.
- Dsp.RoundToInt: the magic-number addition of `roundToInt` agrees with rounding half to even only for magnitudes below 2^51; beyond that the model still rounds exactly and then wraps. The float product `delayTime * sampleRate` that feeds it is not rounded to `float` first.
- The coefficient formulas of the IIR builders, tanh, decibel-to-gain, and the per-sample arithmetic of the filters: library code, recorded by arguments or passed as parameters.
- DistortionClass.RunSlots: describes one sample with a stateless filter function of the running coefficients, so the highpass's memory across samples is not modelled.
- DistortionClass.ApplySlot: requires the filter to be built, since processing a duplicator before its first prepare is outside the library's contract.
- Dsp.PrepareDuplicator: a prepare with more channels than the first one would build the extra filters on the state current then; the processor always prepares one channel, so one running coefficient set stands for all the duplicator's filters.
- PluginProcessor.Processor.ProcessBlock: how each stage transforms a block (gain, distortion, convolution, library reverb, lowpass) is the `stage` parameter, computed from what processing reads from the chain (`ActiveChain`). The cabinet's and the reverb's own internal state is not modelled.
- DelayClass.Delay.Process: models a replacing context only. The source reads `getInputBlock` and writes `getOutputBlock`, which a non-replacing context may keep apart.
- `CabSimulator` and the amp simulator's cabinet: impulse-response file loading and convolution are file I/O and library FIR code.
- `AmpSimulator::process`, `reset` and `updateFilter`: forwarding to the library, and a no-op.
- The library defaults of a default-constructed `juce::dsp::Gain` (the chains' pre-gain and the amp simulator's input gain) and of `juce::Reverb`: the model writes each as `None`, "not set yet", rather than as the library's values.
- `reset` and `process` forwarding of the `Distortion` and `Reverb` stage classes: library calls.
- Preset file-system and XML work: directory creation, file naming and extensions, XML parsing, `getAllPresets`' directory scan and its order, and the value-tree listener. The directory is a map from name to snapshot; whether a write or delete succeeds is a parameter; the listing is a given sequence.
- The host shell of the processor: buses, programs, editor creation, the empty state save/restore, `ScopedNoDenormals`, and the atomic parameter loads. Host interaction and concurrency are not modelled. The host's sample rate is a parameter of `ProcessBlock`. The `spec` fields other than the sample rate are not used by the modelled stages.
- PluginProcessor.Processor.ProcessBlock: requires at least two buffer channels, which is what `getSingleChannelBlock(1)` needs; the model does not say what a mono buffer would do.
- DelayClass.Delay.Process: requires every channel's offset to be below its line's size (the `jassert` in `get`), so the case of a delay time of `MAX_DELAY_TIME` is excluded rather than modelled.
- Bypass of the processor's stages: the processor never sets one, so the model has none.
- The parameter ranges' interval (0.5) and skew (1): recorded in the layout but not applied. The model does not snap values to the interval.

## Findings

| source | as written | input that shows it | evidently intended | confidence | as-written member | corrected member |
|---|---|---|---|---|---|---|
| PluginProcessor.h:178, PluginProcessor.cpp:201-202 | `filter.state = make...(...)` points the duplicator's `state` at a new object; its mono filter kept the object it was built with at the first `prepareToPlay`, so the new coefficients never run | `prepareToPlay(44100)`, then a block with distortionClarity 3000 and noiseGate 12000: the filters still run a 1 kHz highpass and a 10 kHz lowpass at 44.1 kHz | the clarity highpass and the noise-gate lowpass follow the settings, as a write through the shared object (`*filter.state = *make...(...)`) would give | not executed | PluginProcessor.FiltersFixedAtFirstPrepare | PluginProcessor.InPlaceSettingsRun |

The same assignment is in modules/DistortionClass.h:66, where `DistortionClass.FilterFixedAtFirstPrepare` states its effect. The processor itself follows the source as written: `Processor.ProcessBlock` and `Configured` keep the built filters. The in-place variant (`PreparedInPlace`, `ConfiguredInPlace`, `Dsp.WriteState`) holds the intended behaviour and its proof.
