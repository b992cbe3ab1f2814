# A verified model of the validator plugins

The repository holds a set of CLAP plugins that watch how a host uses them. This
project models its stateful core in Dafny and proves what that core promises.

| part | files |
|---|---|
| the eight-voice sine engine, its sound, its queue, its NOTE_END ledger and its bounds | `Voices.dfy`, `SineEngine.dfy`, `Sounds.dfy`, `NoteEvents.dfy`, `SoundingQueue.dfy`, `NoteLedger.dfy`, `EngineBounds.dfy` |
| the sample-accurate block loop and the sidechain follower | `BlockRenderer.dfy`, `Synths.dfy`, `BlockFacts.dfy`, `ProcessRuns.dfy`, `Sidechain.dfy`, `SidechainBlocks.dfy` |
| the violation registry and the host-contract monitor | `Violations.dfy`, `Monitors.dfy`, `PrePass.dfy`, `Plugins.dfy` |
| whole host call sequences against the call history | `HostRuns.dfy`, `SteadyTimes.dfy`, `HistoryRules.dfy` |
| port negotiation | `PortConfigs.dfy` |
| concurrent protocols, one shared access at a time in any interleaving | `TransportSeqlock.dfy`, `ParamQueues.dfy`, `EntryPoints.dfy` |
| streams, saved states, the effect's tail, the GUI session | `Streams.dfy`, `PluginStates.dfy`, `EffectTails.dfy`, `GuiSessions.dfy` |

Code that works in place is a class whose methods are proved to have the effect
of a function on values (`Voices`, `Violations`, `Plugins.Step`, ...); the
theorems over runs are about these functions. Concurrent code is a state machine
with one step per shared access. What the host sends, what a subclass answers and
what the window system does are parameters.

## Where the code keeps less than one would expect

- The engine steals the oldest voice only until its 32-bit age clock wraps
  (`SoundingQueue.RunKeepsOrderIff`, `SoundingQueue.WrapIsReached`,
  `SoundingQueue.WrapStealsTheYoungest`).
- A NOTE_END is lost when its voice is stolen, when its slot is reused before the
  end was sent, and on reset; the ledger has a term for each.
- The gain is read once per block, so a block can be cut without changing the
  sound exactly where the volume is the one it began with
  (`BlockFacts.CutInaudibleIff`).
- `stop_processing()` on an inactive plugin reports L08 twice; `activate()` before
  `init()` is not a rule.
- `deinit()` tests and then decrements the init count, so overlapping calls can
  make it negative: i init() and d deinit() calls that have not come to the count c
  yet can do so exactly when d > c and either c >= 1, or i >= 1 and d >= 2
  (`EntryPoints.DeinitsCanGoNegativeIff`, and from any state
  `EntryPoints.CanGoNegativeIff`; `EntryPoints.TwoDeinitsGoBelowZero` is an
  instance). At a negative count neither E01 nor E03 is reported.
- Clearing the parameter queue on `deactivate()` drops a value when the last one
  queued for a parameter is not the stored one, and the parameter then keeps the
  older value until the GUI or the host sets it again, through any number of
  further activations; nothing else loses what the GUI set
  (`ParamQueues.GuiWinsIff`, `ParamQueues.ClearLosesNothingIff`,
  `ParamQueues.ClearLosesUpdate`).
- The sidechain synth reads its amount once per block, after the events, so cutting
  its blocks asks in addition that the later part leaves the amount alone
  (`SidechainBlocks.ProcessSplits`).
- Plugins that share a magic number, as the effect and the GUI plugin do, accept each
  other's states (`PluginStates.AcceptedIff`).
- The sequence lock is atomic until its 32-bit counter comes round during one read
  (`TransportSeqlock.ReadsAreAtomic`, `TransportSeqlock.TornWhenCounterComesRound`).

## Model

| member | source | states |
|---|---|---|
| `Voices.Target` | src/plugins/common/sine_engine.cpp:47-59 | the slot a note takes is free if any is; otherwise all are sounding and none is older |
| `Voices.AdvanceAdds` | src/plugins/common/sine_engine.cpp:133-152 | a voice rendered for a frames and then b is the voice rendered for a + b |
| `Voices.MixdownAdds` | src/plugins/common/sine_engine.cpp:124-154 | the samples of a + b frames are those of a frames followed by those of b frames from there |
| `Sounds.MixdownSounds` | src/plugins/common/sine_engine.cpp:124-154 | every sample of a render call in closed form over the voices at its start: the sum of sin(phase) * velocity * gain limited to [0, 1] * fade over the voices that sound and have not faded, the phase being phase + t * increment less the whole cycles reached, at most one per frame |
| `Sounds.RunSounds` | src/plugins/common/sine_engine.cpp:24-154 | after any operations the next samples are that formula over the voices then |
| `Sounds.PhaseWhole` | src/plugins/common/sine_engine.cpp:146-148 | for increments up to 2 pi the phase of the formula is in [0, 2 pi) and differs from phase + t * increment by whole cycles |
| `Sounds.NoteOnSounds` | src/plugins/common/sine_engine.cpp:46-69 | the note a note-on starts sounds from phase zero at 440 * 2^((key - 69) / 12) cycles a second, with its velocity or full velocity, modulated by the global amount only; all other slots sound as before |
| `Sounds.EqualTemperament` | src/plugins/common/sine_engine.cpp:14-16 | key 69 is 440 Hz and twelve keys up double the frequency |
| `NoteEvents.NoteOffExactly` | src/plugins/common/sine_engine.cpp:71-86 | slot by slot: a voice is released, or choked with a NOTE_END pending, if and only if it sounds and its key, channel and id each equal what is given or what is given is negative; any other slot keeps its value |
| `NoteEvents.ModulateExactly` | src/plugins/common/sine_engine.cpp:31-44 | slot by slot: without any address only the global amount changes, otherwise exactly the sounding voices that match in key, channel and id take it |
| `NoteEvents.MidiIsNotes` | src/plugins/common/sine_engine.cpp:107-117 | MIDI bytes 9n and 8n are note-ons and note-offs without an id on channel n, velocity 0 being a note-off |
| `NoteEvents.NoteEndsExactly` | src/plugins/common/sine_engine.cpp:166-184 | the NOTE_ENDs are those of exactly the pending slots, in slot order, each with the given time and its slot's key, channel and id |
| `SineEngines.SineEngine.SetSampleRate` | src/plugins/common/sine_engine.cpp:20-22 | only the sample rate of the engine changes |
| `SineEngines.SineEngine.Reset` | src/plugins/common/sine_engine.cpp:24-29 | the array of voices, the clock and the modulation become those of Voices.Reset, in place |
| `SineEngines.SineEngine.Modulate` | src/plugins/common/sine_engine.cpp:31-44 | in place, exactly the addressed voices take the amount; the all-wildcard address changes the global amount only |
| `SineEngines.SineEngine.PickSlot` | src/plugins/common/sine_engine.cpp:47-59 | both scans together find Voices.Target of the array |
| `SineEngines.SineEngine.NoteOn` | src/plugins/common/sine_engine.cpp:46-69 | in place, the engine value becomes Voices.NoteOn of the old one |
| `SineEngines.SineEngine.NoteOff` | src/plugins/common/sine_engine.cpp:71-86 | in place, exactly the addressed sounding voices are released or choked |
| `SineEngines.SineEngine.HandleEvent` | src/plugins/common/sine_engine.cpp:88-121 | event dispatch including MIDI bytes has the effect of Voices.Handle |
| `SineEngines.SineEngine.Render` | src/plugins/common/sine_engine.cpp:124-154 | the nested voice and frame loops add exactly the Mixdown of the old voices to both buffers, leave every other sample alone and advance every voice |
| `SineEngines.SineEngine.RenderVoice` | src/plugins/common/sine_engine.cpp:126-153 | one voice adds its samples up to the frame it ends on and stops there |
| `SineEngines.SineEngine.EmitNoteEnds` | src/plugins/common/sine_engine.cpp:166-184 | sends one NOTE_END per pending slot, in slot order, and clears the flags in place |
| `SineEngines.SineEngine.AnyVoiceActive` | src/plugins/common/sine_engine.cpp:186-191 | true if and only if some slot sounds |
| `SoundingQueue.QueueMembers` | src/plugins/common/sine_engine.cpp:46-59 | the queue is ordered by age and holds exactly the sounding voices |
| `SoundingQueue.NoteOnAppends` | src/plugins/common/sine_engine.cpp:46-69 | a note-on appends to the queue of sounding notes and drops its head only when eight sound |
| `SoundingQueue.WrapStealsTheYoungest` | src/plugins/common/sine_engine.cpp:54-65 | after the clock has wrapped, a note-on steals the newest voice although older ones sound |
| `SoundingQueue.WrapIsReached` | src/plugins/common/sine_engine.cpp:24-69 | 2^32 - 1 note-ons after a reset reach the state of WrapStealsTheYoungest |
| `SoundingQueue.ChokeDeletes` | src/plugins/common/sine_engine.cpp:79-81 | a choke deletes exactly the matching notes from the queue and keeps the order of the others |
| `SoundingQueue.NoteOffMarks` | src/plugins/common/sine_engine.cpp:82-84 | a note-off marks exactly the matching notes and moves none |
| `SoundingQueue.ApplyRefines` | src/plugins/common/sine_engine.cpp:24-154 | every engine operation on the array is the same operation on the queue |
| `SoundingQueue.RunRefines` | src/plugins/common/sine_engine.cpp:24-154 | over every run in which no note starts while the clock is at its last value, however many start in all, the array of slots behaves as a queue of at most eight notes |
| `SoundingQueue.RunKeepsOrderIff` | src/plugins/common/sine_engine.cpp:24-69 | a run keeps ages distinct and below the clock at every point if and only if no note of it starts while the clock is at its last value |
| `NoteLedger.RunBalances` | src/plugins/common/sine_engine.cpp:24-184 | after every run each note-on is in exactly one place, no voice is both sounding and pending, and slots carry the address of their note |
| `NoteLedger.NoteOnsAddUp` | src/plugins/common/sine_engine.cpp:46-86 | note-ons = NOTE_ENDs sent + sounding + pending + stolen + overwritten while pending + dropped by reset |
| `NoteLedger.OneEndPerNote` | src/plugins/common/sine_engine.cpp:166-184 | no note-on gets two NOTE_ENDs, and each NOTE_END has the address of its own note-on |
| `NoteLedger.LostForGood` | src/plugins/common/sine_engine.cpp:48-60 | a note that was stolen, overwritten or dropped never gets a NOTE_END later |
| `EngineBounds.HealthyRun` | src/plugins/common/sine_engine.cpp:24-154 | over every run a sounding voice has a gain in (0, 1], full gain until it is released, and the release step of the current rate |
| `EngineBounds.ReleaseIsExact` | src/plugins/common/sine_engine.cpp:135-141 | a voice released at gain 1 is sounding if and only if fewer than ceil(0.05 * sampleRate) frames were rendered, however rendering was cut and whatever other notes start, end, bend or are choked meanwhile, as long as no note takes its slot, no choke addresses it and nothing resets the engine |
| `EngineBounds.FallsSilent` | src/plugins/common/sine_engine.cpp:186-191 | once everything is released and no note starts, no voice sounds after one release time, whatever is choked, bent, reset or activated meanwhile |
| `EngineBounds.MixBounded` | src/plugins/common/sine_engine.cpp:131-151 | m voices of velocity at most 1 add at most m in absolute value |
| `EngineBounds.OutputBounded` | src/plugins/common/sine_engine.cpp:124-154 | after any operations with velocities at most 1 every rendered sample is in [-8, 8] |
| `EngineBounds.PhaseStays` | src/plugins/common/sine_engine.cpp:146-148 | rendering keeps the phase of a voice in [0, 2 pi) while its increment is at most 2 pi |
| `EngineBounds.PhaseRun` | src/plugins/common/sine_engine.cpp:46-69 | over every run of notes that turn by at most one cycle per frame every phase stays in [0, 2 pi) |
| `Synths.SynthPlugin.Activate` | src/plugins/synth/synth.cpp:55-59 | the engine is reset at the new sample rate |
| `Synths.SynthPlugin.HandleEvent` | src/plugins/synth/synth.cpp:157-174 | volume, modulation and note events have the effect of BlockRenderer.Dispatch |
| `Synths.SynthPlugin.ProcessTyped` | src/plugins/synth/synth.cpp:266-293 | from arbitrary buffer contents: the first frames of both channels are the block's output, the rest is untouched, the NOTE_ENDs are those pending after the block, and the status says whether a voice sounds |
| `Synths.SynthPlugin.RenderBlock` | src/plugins/synth/synth.cpp:277-288 | the moving-cursor event loop produces the output and state of the recursive block specification for every event list |
| `BlockRenderer.BlockSplits` | src/plugins/synth/synth.cpp:274-288 | if the first part ends at the volume it began with: processing n1 + n2 frames gives the samples of n1 frames followed by those of n2 with the later events shifted, and the same state up to pending NOTE_ENDs |
| `BlockRenderer.AnySplitSoundsTheSame` | src/plugins/synth/synth.cpp:274-288 | however the host cuts the time line into blocks at moments of the initial volume, the samples and the final state up to pending NOTE_ENDs are those of one block |
| `BlockRenderer.VolumeAfter` | src/plugins/synth/synth.cpp:157-174 | a block leaves the volume of its last volume event, or the one it began with |
| `BlockFacts.CutInaudibleIff` | src/plugins/synth/synth.cpp:274-276 | a cut after some events changes no sample, whatever follows, if and only if these events leave the volume as they found it |
| `BlockFacts.CutHeard` | src/plugins/synth/synth.cpp:274-276 | the events that make any other cut audible: choke all, one modulation, one note-on, with the gain of the first part read once per block |
| `BlockFacts.BlockIsRun` | src/plugins/synth/synth.cpp:274-288 | a block is the run of the engine operations its events and gaps stand for |
| `BlockFacts.BlockIsQueueRun` | src/plugins/synth/synth.cpp:274-288 | over a block the sounding notes behave as the plain queue |
| `ProcessRuns.CallsAreRun` | src/plugins/synth/synth.cpp:266-293 | the engine after any process() calls is the engine after their operations |
| `ProcessRuns.CallsTrack` | src/plugins/common/sine_engine.cpp:166-184 | the ledger takes in exactly the NOTE_ENDs the calls return, drops no note, and leaves nothing pending between calls |
| `ProcessRuns.CallsAddUp` | src/plugins/common/sine_engine.cpp:46-86 | over any process() calls: note-ons = NOTE_ENDs returned + sounding + stolen + overwritten |
| `ProcessRuns.OneEndPerNote` | src/plugins/common/sine_engine.cpp:166-184 | over any process() calls no note-on gets two NOTE_ENDs, and each one has its note's address |
| `ProcessRuns.SleepsAfterRelease` | src/plugins/synth/synth.cpp:290-292 | once all notes are released, calls that start none leave no voice sounding after one release time, so process() returns SLEEP |
| `BlockFacts.BlockBounded` | src/plugins/synth/synth.cpp:266-293 | every sample of every block is in [-8, 8] for velocities a host may send |
| `Sidechain.SidechainSynth.Follow` | src/plugins/sidechain_synth/sidechain_synth.cpp:294-312 | in place, both channels are multiplied by the gains of the smoothed sidechain level; with no input or no amount nothing changes |
| `Sidechain.EnvelopeAdds` | src/plugins/sidechain_synth/sidechain_synth.cpp:305-306 | following a frames and then b is following a + b: block sizes do not matter |
| `Sidechain.EnvelopeBounded` | src/plugins/sidechain_synth/sidechain_synth.cpp:305-306 | the envelope stays within [0, loudest input level] |
| `Sidechain.EnvelopeIsWeighted` | src/plugins/sidechain_synth/sidechain_synth.cpp:305-306 | the envelope is 0.99^n times its start plus a hundredth of every level so far, less 1 % for each frame since |
| `Sidechain.ScaledMeans` | src/plugins/sidechain_synth/sidechain_synth.cpp:307-310 | sample by sample: the share 1 - amount stays, and of the rest as much as the envelope, at most all |
| `Sidechain.GainsBounded` | src/plugins/sidechain_synth/sidechain_synth.cpp:305-308 | for amounts in [0, 1] every multiplier is within [0, 1] |
| `SidechainBlocks.LoopIsPerform` | src/plugins/sidechain_synth/sidechain_synth.cpp:277-292 | the event loop of the sidechain synth does to its synth what the synth's block loop does with modulation events ignored, and leaves the amount of the last event that sets it |
| `SidechainBlocks.FollowedMeans` | src/plugins/sidechain_synth/sidechain_synth.cpp:295-312 | with an input and a positive amount every sample is blended by the envelope after its frame; otherwise neither samples nor envelope change |
| `SidechainBlocks.ProcessSplits` | src/plugins/sidechain_synth/sidechain_synth.cpp:255-317 | the whole process() call, loop and follower: if the volume is back at its start at the cut, and with an input the later part leaves the amount alone, then processing n1 + n2 frames gives the samples, envelope, amount and, up to pending NOTE_ENDs, the state of n1 frames and then n2 |
| `Violations.NonZero` | src/wrapper/contract.cpp:102-118 | the entries are exactly the codes with a non-zero counter, in enum order |
| `Violations.TotalIsSum` | src/wrapper/contract.cpp:41-49 | over every run of report, note and clear the total is the sum of the counters modulo 2^32 |
| `Violations.CountersCount` | src/wrapper/contract.cpp:51-70 | each counter is the number of reports and notes since the last clear modulo 2^32 |
| `Violations.LinesEmitted` | src/wrapper/contract.cpp:51-64 | a code reported n times has emitted min(n, 5) + n / 100 lines |
| `Violations.LogIsExact` | src/wrapper/contract.cpp:51-64 | the log lines of a reported code, one by one: occurrences 1 to 5 in full with their texts, then a note for each hundredth |
| `Violations.MessageKept` | src/wrapper/contract.cpp:45-48 | the stored message is that of occurrence min(n, 5) |
| `Violations.BadgeIsAnEntry` | src/wrapper/contract.cpp:102-135 | below the wrap there is a last code if and only if the query extension has an entry, and the last code is one of the entries |
| `Monitors.ContractMonitor.Report` | src/wrapper/contract.cpp:51-64 | counter, total, last code, message and log are updated in place as Violations.Reported says |
| `Monitors.ContractMonitor.Note` | src/wrapper/contract.cpp:66-70 | as a report, but no line is written |
| `Monitors.ContractMonitor.Clear` | src/wrapper/contract.cpp:120-127 | everything but the log is as new |
| `Monitors.ContractMonitor.Distinct` | src/wrapper/contract.cpp:94-100 | the number of codes with a non-zero counter |
| `Monitors.ContractMonitor.GetEntry` | src/wrapper/contract.cpp:102-118 | succeeds if and only if the index is below distinct(), with the index-th non-zero code in enum order, its count and message |
| `Monitors.ContractMonitor.LastViolation` | src/wrapper/contract.cpp:129-135 | gives the last code of the registry if there is one |
| `Monitors.ContractMonitor.TryEnterProcess` | src/wrapper/contract.h:73-76 | enters if and only if nobody was inside; nothing else changes |
| `Monitors.ContractMonitor.CheckSteadyTime` | src/wrapper/contract.h:127-138 | fails if and only if the time is below the end of the previous block; -1 drops the baseline |
| `Monitors.ContractMonitor.ConsumePendingCallbacks` | src/wrapper/contract.h:145-148 | true if and only if a request was pending; none is afterwards |
| `Monitors.ContractMonitor.FindParamRecord` | src/wrapper/contract.h:119-124 | the first record with the id, or none |
| `PrePass.LatestIsMaximum` | src/wrapper/plugin.cpp:357-374 | the running time is the maximum of the well-formed times so far |
| `PrePass.TimeFindingsExact` | src/wrapper/plugin.cpp:357-381 | P03 counts the well-formed events below an earlier well-formed time, P04 those beyond the block, P06 the malformed ones |
| `PrePass.UnreportedIffSorted` | src/wrapper/plugin.cpp:368-373 | there is no P03 if and only if the well-formed events are sorted by time |
| `PrePass.PortFindingsExact` | src/wrapper/plugin.cpp:312-341 | P05 counts the ports with a wrong channel count, P09 those with a wrong buffer format |
| `PrePass.BlockFindingsExact` | src/wrapper/plugin.cpp:271-385 | the pre-pass reports every code exactly as often as the block breaks its rule: P01 for the bounds, P02 for the clock, P10 once if and only if a port demands a common size and both sizes occur, P05 once for differing port counts, and nothing else |
| `PrePass.ParamFindingsExact` | src/wrapper/plugin.cpp:392-474 | P08 and P11 to P14 each count exactly the parameter events that break their rule |
| `PrePass.SteadyTelescopes` | src/wrapper/contract.h:127-138 | over blocks without a P02 the time advances by at least all frames in between |
| `Plugins.Plugin.CheckProcessContracts` | src/wrapper/plugin.cpp:271-385 | the whole pre-pass reports exactly Findings, in order, and accepts if and only if every port has a usable buffer or the port counts differ |
| `Plugins.Plugin.CheckBuffers` | src/wrapper/plugin.cpp:289-352 | the two port scans report exactly BufferFindings and the result is Processable |
| `Plugins.Plugin.CheckPorts` | src/wrapper/plugin.cpp:307-344 | one direction: the reports, whether every port is usable, and which sizes were seen |
| `Plugins.Plugin.CheckEvents` | src/wrapper/plugin.cpp:353-384 | the event scan reports exactly EventFindings and then the parameter findings |
| `Plugins.Plugin.CheckParamEvents` | src/wrapper/plugin.cpp:392-474 | the parameter scan reports exactly ParamEventFindings |
| `Plugins.Plugin.SInit` | src/wrapper/plugin.cpp:141-159 | state and reports after init() are those of Step; a second call reports L02 and does not reach the subclass |
| `Plugins.Plugin.SDestroy` | src/wrapper/plugin.cpp:161-170 | destroy() while active reports L06 |
| `Plugins.Plugin.SActivate` | src/wrapper/plugin.cpp:172-204 | refused with L03 while active; otherwise bounds are checked and clamped, and only a success captures the snapshot and activates |
| `Plugins.Plugin.CaptureActivateSnapshot` | src/wrapper/plugin.cpp:108-139 | the snapshot holds the frame bounds, what the provider reports for both directions, and the parameters |
| `Plugins.Plugin.SDeactivate` | src/wrapper/plugin.cpp:206-222 | refused with L04 while inactive; while processing it reports L05 and stops the subclass first |
| `Plugins.Plugin.SStartProcessing` | src/wrapper/plugin.cpp:224-241 | refused with L07 while inactive or processing, otherwise follows the subclass and drops the steady baseline |
| `Plugins.Plugin.SStopProcessing` | src/wrapper/plugin.cpp:243-255 | reports L08 once for inactive and once for not processing; only a processing subclass is stopped |
| `Plugins.Plugin.SReset` | src/wrapper/plugin.cpp:257-266 | always reaches the subclass and drops the baseline; L10 while inactive |
| `Plugins.Plugin.SProcess` | src/wrapper/plugin.cpp:476-503 | guard, lifecycle check, pre-pass and delivery as Step says; the guard is free again afterwards |
| `Plugins.DeliveredIff` | src/wrapper/plugin.cpp:289-342 | a process() call reaches the subclass if and only if the guard is free, the plugin is active and processing, and the port counts differ from the captured ones or every port of both directions has a 32-bit buffer or a 64-bit one it declared |
| `Plugins.PortsAre` | src/plugins/surround/surround.cpp:112-129 | the ports the providers report: a fixed table, one surround port of 4, 6 or 8 channels each way, or no input and one or five stereo outputs |
| `Plugins.Plugin.SFlush` | src/wrapper/ext/params.cpp:39-59 | P07 while a process() call is inside, T03 on a thread confirmed to be the wrong one for the state, then the parameter scan without a transport; always delivered |
| `Plugins.Plugin.SGetExtension` | src/wrapper/plugin.cpp:508-513 | L01 for any extension but the query extension before init() |
| `Plugins.Plugin.STailGet` | src/wrapper/ext/tail.cpp:9-18 | reports T04 on a thread confirmed to be neither main nor audio and answers the tail in any case |
| `Plugins.Plugin.SOnMainThread` | src/wrapper/plugin.cpp:519-527 | L11 without a pending request; always delivered |
| `Plugins.Plugin.RequestCallback` | src/wrapper/plugin.cpp:98-102 | counts one pending request, modulo 2^32 |
| `Plugins.Plugin.SCanApplyConfiguration` | src/wrapper/ext/configurable_audio_ports.cpp:20-35 | refused with CA01 while active; otherwise true if and only if a layout meets all requests |
| `Plugins.Plugin.SApplyConfiguration` | src/wrapper/ext/configurable_audio_ports.cpp:37-43 | succeeds in the same states and for the same requests as can_apply, and only then changes the layout |
| `Plugins.Plugin.SSelectConfig` | src/wrapper/ext/audio_ports_config.cpp:24-35 | refused with AC01 while active; otherwise succeeds if and only if the configuration is known, and only then changes it |
| `HostRuns.FlagsReadHistory` | src/wrapper/plugin.cpp:141-266 | for every host call sequence and all subclass answers the flags are what the history says, processing implies active, active implies 1 <= min <= max, and no call is left inside process() |
| `HostRuns.BoundsAreActivations` | src/wrapper/plugin.cpp:178-184 | the frame bounds in force are the clamped bounds of the activate() call that began this activation |
| `HostRuns.ActivationExists` | src/wrapper/plugin.cpp:196-200 | whenever the history says active there is such a call |
| `HostRuns.CallReports` | src/wrapper/plugin.cpp:141-527 | each call reports each code exactly as often as it breaks that rule after the history so far |
| `HostRuns.CountersAreBreaches` | src/wrapper/plugin.cpp:141-527 | for every code: its counter is the number of breaches of its rule since the last clear modulo 2^32, the rules about call order read off the history alone |
| `HistoryRules.ProviderIsRead` | src/wrapper/ext/configurable_audio_ports.cpp:18-44 | the ports a plugin reports are those of the latest configuration call it agreed to while not active, or those it began with |
| `HistoryRules.SnapshotIsRead` | src/wrapper/plugin.cpp:172-204 | while active, everything captured is read off the calls: clamped bounds of the activate() that began the activation, ports as last configured, declared parameters |
| `HistoryRules.CountersReadHistory` | src/wrapper/plugin.cpp:141-527 | for every code: its counter is the number of breaches since the last clear modulo 2^32, with frame bounds, ports, parameters and steady-time baseline all read off the call history |
| `HistoryRules.SubclassGetsWhatIsOwed` | src/wrapper/plugin.cpp:141-527 | the calls the subclass gets are, in order, exactly those the host's calls owe it, read off the history: nothing due is left out and nothing else comes |
| `HistoryRules.BlocksDelivered` | src/wrapper/plugin.cpp:476-503 | the subclass processes exactly as many blocks as the host passed between start and stop with fitting buffers |
| `HostRuns.ZeroIffLegal` | src/wrapper/plugin.cpp:141-266 | below the wrap a counter is zero if and only if no call since the last clear broke the rule |
| `HostRuns.NeverConcurrent` | src/wrapper/plugin.cpp:479-487 | in runs of one call at a time the guard is always found free, so neither L12 nor P07 is ever counted |
| `HostRuns.Shielded` | src/wrapper/plugin.cpp:172-255 | whatever the host does, the subclass calls form a walk of the activate/start automaton that agrees with the flags and is never broken |
| `HostRuns.PhaseIsBrackets` | src/wrapper/plugin.cpp:172-255 | the automaton's phases mean open activate and start brackets |
| `HostRuns.SubclassSeesLegalCalls` | src/wrapper/plugin.cpp:172-255 | every process() and stop the subclass sees is inside start, every start and deactivate inside activate and not inside start, every activate outside |
| `HostRuns.InitOnce` | src/wrapper/plugin.cpp:144-147 | the subclass sees init() exactly once, if at all |
| `HostRuns.CacheCoherent` | src/wrapper/plugin.cpp:196-200 | in every reachable active state the cached port tables and parameters are what the live provider reports |
| `SteadyTimes.BaselineReadsHistory` | src/wrapper/contract.h:127-138 | the baseline is the end of the latest accepted block with a time, if no reset, restart or -1 came after it |
| `SteadyTimes.P02Exact` | src/wrapper/plugin.cpp:282-287 | P02 is reported, once, if and only if the block is accepted, has a time, and starts before the end of the block it is compared with |
| `SteadyTimes.TimeAdvances` | src/wrapper/plugin.cpp:282-287 | between any two accepted blocks of a stretch without P02, -1, reset or restart the time grows by at least all frames accepted in between |
| `PortConfigs.SurroundPlugin.LayoutForRequests` | src/plugins/surround/surround.cpp:160-197 | the loops find the one layout all requests agree on, or none |
| `PortConfigs.SurroundPlugin.CanApplyConfiguration` | src/plugins/surround/surround.cpp:199-213 | true if and only if inactive and a layout meets all requests |
| `PortConfigs.SurroundPlugin.ApplyConfiguration` | src/plugins/surround/surround.cpp:215-233 | succeeds if and only if can_apply does in the same state; then the channel count of the ports is that of every request; otherwise nothing changes |
| `PortConfigs.SurroundPlugin.IsChannelMaskSupported` | src/plugins/surround/surround.cpp:133-142 | true if and only if the mask's bits are the channel identifiers of some layout |
| `PortConfigs.LayoutMask` | src/plugins/surround/surround.cpp:39-44 | the mask built by the loop has exactly the bits of the layout's identifiers |
| `PortConfigs.OrderDoesNotMatter` | src/plugins/surround/surround.cpp:160-197 | acceptance and layout are the same for every permutation of the requests |
| `PortConfigs.OneLayout` | src/plugins/surround/surround.cpp:160-197 | requests agree on at most one layout |
| `PortConfigs.AgreedMeans` | src/plugins/surround/surround.cpp:160-197 | requests agree on a layout if and only if there are some and each is for port 0, surround or of no type, of 4, 6 or 8 channels, and mapped, if at all, to FL FR BL BR, to FL FR FC LFE BL BR, or to these and SL SR |
| `PortConfigs.SupportedMasks` | src/plugins/surround/surround.cpp:39-44 | the supported channel masks are 0x33, 0x3f and 0x63f |
| `PortConfigs.SameBits` | src/plugins/surround/surround.cpp:133-142 | masks are equal if and only if their bits are |
| `PortConfigs.MultiOutGenPlugin.AudioPortsConfigSelect` | src/plugins/multiout_gen/multiout_gen.cpp:121-128 | only inactive and only to a known configuration; otherwise nothing changes |
| `TransportSeqlock.SingleWriter` | src/wrapper/plugin.cpp:479-487 | however many host threads call process(), at most one is past the guard, so the sequence lock has one writer |
| `TransportSeqlock.WriterNext` | src/plugins/gui/gui_plugin.cpp:452-454 | between the two increments the shared fields are a known mix, outside they are the last complete store |
| `TransportSeqlock.ReportsAreCollisions` | src/wrapper/contract.h:73-78 | in every interleaving L12 was reported once for each process() call, and P07 once for each flush(), that found another thread inside process() at that moment |
| `TransportSeqlock.ReadsAreAtomic` | src/plugins/gui/gui_plugin.cpp:457-466 | in every interleaving of single field accesses: whatever a read has returned is one complete stored snapshot, no older than the newest complete when the call began, if fewer than 2^32 increments fell between the two loads of its last attempt |
| `TransportSeqlock.ReturnsIff` | src/plugins/gui/gui_plugin.cpp:460-465 | an attempt that has copied everything returns if and only if it began at an even value and a multiple of 2^32 increments fell into it; with fewer than 2^32 it returns the newest snapshot, otherwise it is tried again |
| `TransportSeqlock.ReadsAreFresh` | src/plugins/gui/gui_plugin.cpp:457-467 | what a whole call returns was complete no earlier than the newest snapshot complete when the call began, under the same bound |
| `TransportSeqlock.TornWhenCounterComesRound` | src/plugins/gui/gui_plugin.cpp:457-466 | for every m > 0 some attempt with m * 2^32 increments inside it returns a mix that was never stored |
| `ParamQueues.LastItemWins` | src/plugins/gui/gui_plugin.cpp:554-557 | draining a list leaves each parameter at the value of its last item, or as it was |
| `ParamQueues.GuiParameters.SetValue` | src/plugins/gui/gui_plugin.cpp:512-520 | stores at once and queues the same value |
| `ParamQueues.GuiParameters.Drain` | src/wrapper/param_queue.h:30-69 | takes everything, applies the values in order, forwards everything in order if there is an output |
| `ParamQueues.GuiParameters.Flush` | src/plugins/gui/gui_plugin.cpp:213-221 | host events are applied before the queued items |
| `ParamQueues.GuiParameters.Clear` | src/wrapper/param_queue.h:71-74 | the queue is empty; the stored values are not touched |
| `ParamQueues.DrainInSteps` | src/wrapper/param_queue.h:37-68 | the single steps of a drain without interruption do what Drain promises |
| `ParamQueues.ExactlyOnce` | src/wrapper/param_queue.h:23-69 | in every interleaving without clear(): finished, in-flight and queued items together are everything pushed, in order, once |
| `ParamQueues.AllForwarded` | src/wrapper/param_queue.h:40-67 | when every drain has an output, the finished items are exactly the forwarded ones |
| `ParamQueues.GuiWins` | src/plugins/gui/gui_plugin.cpp:512-520 | in every interleaving without clear() and host events: whenever nothing is queued, in flight or about to be pushed, each parameter is what the GUI set last |
| `ParamQueues.GuiWinsIff` | src/plugins/gui/gui_plugin.cpp:71-74 | in every interleaving without host events whose clear() calls come between drains: when nothing is queued, in flight or about to be pushed, a parameter is what the GUI set last if and only if no clear() since then dropped a value of it other than the stored one |
| `ParamQueues.ClearLosesNothingIff` | src/plugins/gui/gui_plugin.cpp:71-74 | in every interleaving without host events whose earlier clear() calls came between drains: one more clear() between drains leaves every parameter at what the GUI set last if and only if no earlier clear() lost one for good and the last queued value of each parameter is the one it is stored with |
| `ParamQueues.ClearLosesUpdate` | src/plugins/gui/gui_plugin.cpp:71-74 | an interleaving in which clear() leaves an older value in place of the last one set |
| `EntryPoints.Entry.Init` | src/entry.cpp:78-92 | E04 for other calls in progress, E02 for a repeated init, and the count goes up |
| `EntryPoints.Entry.Deinit` | src/entry.cpp:94-104 | E04 as for init; E03 at zero, otherwise the count goes down |
| `EntryPoints.Entry.Symbol` | src/entry.cpp:31-43 | E04 while an entry call is in progress, E01 at count zero |
| `EntryPoints.LowestIsLowest` | src/entry.cpp:78-104 | Lowest is the minimum of the balance over all prefixes |
| `EntryPoints.CounterIsReflected` | src/entry.cpp:78-104 | for serialized calls the count is the balance of inits and deinits above its lowest point, E03 was reported once per new low, and E04 never |
| `EntryPoints.OtherReports` | src/entry.cpp:40-92 | E02 is reported for exactly the init() calls above the lowest balance, E01 for exactly the symbols called at it |
| `EntryPoints.DepthsNext` | src/entry.cpp:33-37 | each depth counter is the number of threads inside its kind of call |
| `EntryPoints.OverlappingEntriesReport` | src/entry.cpp:79-80 | of two entry calls in progress at once the later one has reported E04, in every interleaving |
| `EntryPoints.OverlappingSymbolReports` | src/entry.cpp:33-35 | an entry call and another symbol both past their checks and both still inside: one has reported E04 |
| `EntryPoints.OverlapReportsAreReal` | src/entry.cpp:78-104 | a step reports E04 if and only if another thread is at that moment in a call it must not overlap with |
| `EntryPoints.BackedNextIff` | src/entry.cpp:99-102 | with a count for every thread past its test, the one step that ends this is a deinit() reading a count that such threads are about to use up |
| `EntryPoints.BackedMeans` | src/entry.cpp:99-102 | there is a count for every thread past its test if and only if these threads cannot bring the count below zero |
| `EntryPoints.NegativeReachableIff` | src/entry.cpp:99-102 | some point of a run can be continued to a negative count by the threads past their test if and only if some deinit() of the run read a count that others were about to use up |
| `EntryPoints.CanGoNegativeIff` | src/entry.cpp:94-104 | from any state, whatever calls are in progress: some schedule of them brings the count below zero unless there is a count for every deinit(), or the count is zero, nobody is about to take one off and no init() can open it to two deinit() calls |
| `EntryPoints.DeinitsCanGoNegativeIff` | src/entry.cpp:94-104 | with i init() and d deinit() calls in progress before their count c, some schedule of them brings the count below zero if and only if d > c and either c >= 1, or i >= 1 and d >= 2 |
| `EntryPoints.CallInSteps` | src/entry.cpp:78-104 | the atomic steps of a call without interruption count and report what the class promises for that call, whatever other threads are inside |
| `EntryPoints.TwoDeinitsGoBelowZero` | src/entry.cpp:99-102 | two overlapping deinit() calls can take the count to -1 |
| `Streams.StreamWriteAll` | src/wrapper/stream.cpp:5-15 | terminates for every host; a prefix gets through, all of it on success, and a host that makes progress never fails it |
| `Streams.StreamReadAll` | src/wrapper/stream.cpp:17-27 | terminates for every host; on success the bytes asked for; a host that makes progress fails it only at the end of the data |
| `PluginStates.NumberOfBytes` | src/wrapper/stream.h:16-24 | numbers survive being written as bytes and read back |
| `PluginStates.LowByteFirst` | src/wrapper/stream.h:16-19 | byte k of a written number counts 256^k |
| `PluginStates.EntryAt` | src/plugins/params_zoo/params_zoo.cpp:317-323 | in a saved state entry i is 4 bytes of id and 8 bytes of value at offset 12 + 12 * i |
| `PluginStates.ForeignRejected` | src/plugins/params_zoo/params_zoo.cpp:328-334 | whatever the host does, loading bytes that do not begin with the magic number and version 1, or end before byte 12, fails and stores nothing |
| `PluginStates.AcceptedIff` | src/plugins/effect/effect.cpp:206-210 | a saved state is accepted by exactly the plugins with the same magic number |
| `PluginStates.ZooIsForeign` | src/plugins/params_zoo/params_zoo.cpp:18 | the parameter zoo and the other two reject each other's states; the effect and the GUI plugin accept each other's |
| `PluginStates.Parameters.StateSave` | src/plugins/params_zoo/params_zoo.cpp:310-325 | writes the encoding of the table, or a prefix of it when the host fails |
| `PluginStates.Parameters.StateLoad` | src/plugins/effect/effect.cpp:205-223 | stores a prefix of the complete leading entries whatever the host does; with a host that makes progress exactly all of them, succeeding if and only if header and all announced entries are there |
| `PluginStates.Parameters.Keep` | src/plugins/params_zoo/params_zoo.cpp:340-343 | unknown ids and the meter's id are not stored |
| `PluginStates.TruncatedState` | src/plugins/effect/effect.cpp:205-223 | a state cut anywhere gives back exactly its complete leading entries, and only the whole one is accepted |
| `PluginStates.RoundTrip` | src/plugins/effect/effect.cpp:192-223 | loading what was saved restores every saved parameter and leaves the others alone |
| `PluginStates.MeterNeverLoaded` | src/plugins/params_zoo/params_zoo.cpp:340-341 | no load of any bytes from any host changes the meter |
| `PluginStates.UnknownSkipped` | src/plugins/effect/effect.cpp:218-220 | an entry with an unknown id changes nothing about the load of the others |
| `PluginStates.Transfer` | src/plugins/effect/effect.cpp:192-223 | save into one stream and load from it, for every schedule of short writes and reads that makes progress: the round trip |
| `EffectTails.Effect.ApplyGain` | src/plugins/effect/effect.cpp:288-294 | in place or not, each sample is multiplied by the gain, and silence is found if and only if all inputs were zero |
| `EffectTails.SampleBySample` | src/plugins/effect/effect.cpp:287-294 | amplified samples are each the input times the gain, and a block is silent if and only if every sample is zero |
| `EffectTails.Effect.Process` | src/plugins/effect/effect.cpp:287-319 | all shared channels are scaled and the status is that of the blocks so far |
| `EffectTails.SilenceSinceLive` | src/plugins/effect/effect.cpp:314-318 | the counter holds the frames since the last live block |
| `EffectTails.SleepExact` | src/plugins/effect/effect.cpp:314-319 | SLEEP if and only if the silence since the last live block is longer than the tail; CONTINUE if and only if the block is live |
| `GuiSessions.GuiSession.Gate` | src/wrapper/ext/gui.cpp:19-41 | opens if and only if a GUI exists and is of the right kind; otherwise reports G01 or G04 |
| `GuiSessions.GuiSession.SCreate` | src/wrapper/ext/gui.cpp:53-64 | G02 while a GUI exists; the monitor is set if and only if a view was made |
| `GuiSessions.GuiSession.SDestroy` | src/wrapper/ext/gui.cpp:66-74 | G03 without a GUI; no view and no GUI afterwards |
| `GuiSessions.GuiSession.SSetScale` | src/plugins/gui/gui_plugin.cpp:295-308 | a non-positive factor means 1; the view follows |
| `GuiSessions.GuiSession.SAdjustSize` | src/plugins/gui/gui_plugin.cpp:348-356 | the proposal is Adjusted at the plugin's scale |
| `GuiSessions.GuiSession.SSetSize` | src/plugins/gui/gui_plugin.cpp:358-364 | the view gets the clamped size, or keeps its own if it refuses |
| `GuiSessions.GuiSession.SSetParent` | src/plugins/gui/gui_plugin.cpp:366-371 | true if and only if the gate opens, a view exists and the view attaches |
| `GuiSessions.GuiSession.SShowOrHide` | src/plugins/gui/gui_plugin.cpp:386-400 | true if and only if a GUI was created and a view exists |
| `GuiSessions.SessionInvariant` | src/wrapper/ext/gui.cpp:53-74 | after any calls the monitor says created if and only if a view exists, never floating, and the view is at the plugin's scale |
| `GuiSessions.FallbacksUnreachable` | src/plugins/gui/gui_plugin.cpp:310-371 | no call past the gates meets a missing view, create() past its gate never meets an existing one, and floating-only calls never get through |
| `GuiSessions.DelegatedReadsHistory` | src/wrapper/ext/gui.cpp:19-41 | which calls the plugin itself gets, read off the history: create() without a GUI, destroy() always, the others with a GUI except the floating-only ones |
| `GuiSessions.MinimumIs` | src/plugins/gui/gui_plugin.cpp:339-346 | the minimum is 420 by 484 times the scale, cut to whole pixels |
| `GuiSessions.ProposedSizeIsKept` | src/plugins/gui/gui_plugin.cpp:339-364 | setting the size adjust_size proposed sets exactly that size |
| `GuiSessions.GuiCountersExact` | src/wrapper/ext/gui.cpp:19-74 | each counter G01 to G04 is the number of calls that break its rule, read off the history, modulo 2^32 |

## Left out

- Rounding: floats and doubles are reals, `sin` and `pow` are arbitrary functions with the bounds a theorem names, and the sample rate is positive.
- EngineBounds.PhaseRun: asks for a phase increment in [0, 2 pi]; keys and sample rates beyond that leave the range in the code too.
- Weak memory: the concurrent models are sequentially consistent, with the fields of a transport snapshot read and written one at a time in any order.
- TransportSeqlock.ReadsAreAtomic: promises a stored snapshot for attempts with fewer than 2^32 increments; with a multiple of 2^32 a mix can be returned (TransportSeqlock.TornWhenCounterComesRound).
- Sounds.RunSounds: for powers of two that are not negative; Sounds.EqualTemperament for an exponential one.
- SineEngines.SineEngine.Render: the two output channels are different buffers, as the plugin's ports declare; the same holds for the sidechain's inputs.
- BlockRenderer.BlockSplits: events lie within their block; an event past the end of its block is handled early by the code and then has no place on the time line.
- The port and format checks at the head of the synth's `process()`, and its double and float copies.
- SidechainBlocks.Process: a function on values; in place only the follower is modelled (`SidechainSynth.Follow`), since the chunk loop is the synth's without the modulation branch.
- Log texts, the host log, timestamps, the destroy-time summary and the early log: a report is a code and an occurrence, and lifecycle reports carry text 0.
- ParamQueues.GuiWinsIff: clear() comes between drains, as a host that keeps to the thread rules of the interface makes it.
- BlockFacts.CutInaudibleIff: for sines of which some note makes a sound at all at the sample rate.
- The thread checker's heuristics: T01 and T02 are findings that arrive from outside (`ThreadFinding`), and its answers for T03 and T04 are parameters of `Flush` and `TailGet`.
- The effect's parameter events, its error returns for missing ports or buffers, and its sample-size conversions.
- The vtables `get_extension()` returns.
- The parameter zoo's audio path and the render loops of the multi-output generator.
- HostRuns.Run: calls one after the other, including after `destroy()`; overlapping `process()` calls are in `TransportSeqlock`.
- The port providers of the other plugins are fixed tables; parameter tables never change.
- The 64-bit steady time and frame counters are unbounded integers.
- PluginStates.LowByteFirst: numbers are stored as the machine has them, here low byte first.
- Streams.StreamReadAll: a host never hands over more bytes than asked for, as the stream interface demands.
- Parameter-value texts, info tables, note names, remote controls, presets and preset discovery: constant tables and file handling.
- GuiSessions.GuiSession.SGetSize: scaled sizes fit 32 bits; the macOS branch that refuses `set_scale()` is not modelled.
- Native views, clipboard and window-system calls: a view is its size and scale.
- The hostcheck, slow, note-effect, preset and zero-port plugins: they repeat patterns that are covered.
