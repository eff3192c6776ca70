# A model of the laser bridge

This project models the parts of a headless laser-engraver appliance on which
somebody's safety, or their access to the machine, depends, and proves what each
of them promises. `dafny verify dfyconfig.toml` checks all of it.

## What is modelled

**The safety ladder as a closed loop** (`Grbl`, `Observer`, `Safety`, `Wire`,
`Intervene`, `Supervise`, `Standing`). The appliance sits between a sender and a
GRBL controller and reads the controller's reports. `Safety.Decide` is the decision
table, `Intervene.Bridge` carries it out against an explicit controller
(`Wire.Controller`: state, real output, report cadence, the effects of `!`, `0x9E`
and `0x18`), and `Supervise.Watch` decides when to start; `Standing` puts the two together. What the controller may
choose is left to an adversary: whether it heeds a hold or a spindle stop, where it
drifts, what else it reports, when its messages arrive, whether a client connects.
The assumptions are those of `Wire.Drifted`, `Wire.Handled`,
`Intervene.Bridge.AskAndWait` and `Intervene.Bridge.TakeOver`:

- HOLD is entered at once, and nothing happens of its own accord in HOLD;
- with nobody attached the output can go off by itself but not on;
- a soft reset switches the output off and is announced by a banner;
- a change of the output forces the next report to mention it, and twenty reports
  never go by without a mention; what is mentioned is the output at that moment;
- a status request is answered before the interval after it ends;
- status reports and banners are all that is in flight, they arrive in order, and no
  byte of them or of a command is lost;
- a client whose connection the bridge has closed is gone at once: that the goroutine
  that served it has still to notice is not modelled.

**The A/B update under power loss** (`Update`). Installing, staging a rollback and
confirming a boot are sequences of durable writes; `Manager.power` says how many of
them go through before a write fails or the power does, so every statement about any
`power` is one about every crash point, including the one inside the raw root slot.
The boot loader's counter is `Update.Grub`.

**The configuration** (`Config`, `Schema`, `Yaml`, `Store`): validation, the parser
that tolerates files of newer versions, the printer, salvage, and start-up.

**The books of the stream** (`Lines`, `LineTail`, `Books`, `Credits`, `Console`,
`Journal`): what a reply answers, how much of the appliance's own sending is
unanswered, the transcript and the record.

**The lockout** (`Attempts`).

Classes stand for what the program updates in place. Their methods are tied to pure
functions of the old state, and the statements over whole runs are lemmas about those
functions. Four kinds of foreign code are function values of which only what is
written down is assumed: `Yaml.Faithful` (strconv.Quote and Unquote), `Config.Lawful`
(net.ParseIP), `Journal.Lawful` and `Journal.NotRunTogether` (the JSON of an event) and `Grbl.Decimals`
(strconv.ParseFloat, of which nothing is assumed).

## Where the code and its documentation differ

The model follows the code.

- `docs/adr/0004-unattended-recovery-paths.md` and `build/grub.cfg` speak of three
  unconfirmed attempts; the counter changes slots on the third boot, after two
  (`Update.UpdateFromBeginningToEnd`).
- A client lost under `reset` is said to end in a soft reset whatever the state; an
  empty state after a banner with no known beam ends in nothing
  (`Safety.LostClientMeansOneReset` has the exact condition).
- The spindle stop is said never to switch the laser on. As the first command of a
  ladder it can, if a client has stopped the spindle itself since the last report was
  sent (`Intervene.ToggleCanLight`); it cannot once nobody is attached
  and one question asked since then has been answered (`Intervene.AnsweredIsCurrent`,
  `Intervene.FirstToggleIsSafe`), and every later one is right.
- The grace of `BeamGrace` is described as time the laser may be on with nobody
  attached. It is time the laser may be on: it runs while somebody is attached, and a
  client that leaves after a longer burn is given none
  (`Supervise.LeavingIsActedOnAtOnce`).
- A lease is to end with the beam off. Its M5 is tried once; if it is not written then -
  every slot taken, a client in charge, a failing port - it never is
  (`Credits.FoundRunOutOnce`), and the rules for a burning beam are what is left
  (`Supervise.LostReleaseIsLeftToTheRules`).
- The comment on outstanding lines computes with lines of about thirty characters, and
  thirty-one is the limit (`Credits.FourLinesFit`); typed lines may be eighty
  (`Credits.TypeTwice`).
- Slots are called interchangeable, so that it does not matter which one a refused send
  hands back. It hands back the oldest, and keeps its own, newer one, exactly when it
  took any (`Credits.RefusedSendKeepsTheSlots`). The timeout that is to keep one lost
  reply from wedging the pad is moved by each of them: it frees the slots exactly when
  it is over for the last of those too (`Credits.TimeoutFreesExactlyWhen`). Short of
  that some slots are freed and some are not: tries in threes keep all of them
  (`Credits.RefusedForGood`), tries one by one do not
  (`Credits.TryingOnceAtATimeGetsThrough`), and the exact condition is in
  `Credits.SlotsAreHeldExactlyWhile`.
- The queue of slots is said to be in order of age; a tick can put a young slot behind
  younger ones (`Credits.OutOfOrder`, and exactly when in `Credits.TickKeepsTheOrder`).
- A line left unanswered when a client connects is counted against that client's first
  line (`Books.ClaimsAreTrueForAClient`), and a client's unanswered lines give back
  slots of the appliance's own (`Books.OwnLineStaysCovered`).
- A crash between the record and `active-slot.cfg` leaves a pending reboot announced
  that no reboot will satisfy, and no later confirmation withdraws it (`Update.CutShort`,
  `Update.FailedTargetStaysAnnounced`).
- A reader that asks from zero is not told what it missed (`Console.OnePollAccounts`).
- Start-up is to leave a configuration that loads. It does exactly if no line of what it
  salvages is too long for the scanner (`Store.StartUpLeavesALoadableFile`), which two
  long lists of servers in a file within the limit can cause (`Store.LongListsAreLost`).
- A half-written last line of the journal is skipped, and the first event written after
  it is lost with it (`Journal.ReloadAfterNext`).

## Model

| member | source | states |
|---|---|---|
| `Intervene.Bridge.Intervene` | backend/internal/proxy/intervene.go:63-157 | A run that starts on a reading of BeamOn, under hold or reset, ends with the controller's output really off - even if the firmware ignores the hold and the spindle stop - given the machine was left to the bridge (no write error, shutdown or newcomer). Each of the three commands is sent at most once; the ladder always ends by deciding, never at its bound of five; a client lost under reset ends in a soft reset exactly if the first reading is one to act on; a client is let go before the first command or not at all; the number of status requests is bounded |
| `Intervene.Bridge.CarryOut` | backend/internal/proxy/intervene.go:108-149 | One rung: exactly one command, after waiting for rest if the decision says so, and a known, true reading of the output afterwards, within twenty requests |
| `Intervene.Bridge.Rung` | backend/internal/proxy/intervene.go:66-156 | One turn of the loop: exactly one command that had not been sent, with what is known after it, or the end of the ladder and why |
| `Intervene.Bridge.Climb` | backend/internal/proxy/intervene.go:63-157 | The loop of the ladder, with the sequence of commands it put on the wire; a client lost under reset gets its soft reset if and only if the first reading is one to act on |
| `Intervene.Bridge.PollBeam` | backend/internal/proxy/intervene.go:427-452 | With nobody interfering the controller's own word is had within twenty requests, inside the fifty the defaults allow |
| `Intervene.Bridge.WaitUntilStill` | backend/internal/proxy/intervene.go:472-493 | True only with the axes reported at rest and nothing left in flight; false, undisturbed, only after the whole budget |
| `Intervene.Bridge.TakeOver` | backend/internal/proxy/intervene.go:182-212 | The client that is dropped is the one remembered as dropped |
| `Intervene.Bridge.OnClientGone` | backend/internal/proxy/intervene.go:19-53 | Starts a ladder unless the daemon is stopping, the bridge dropped that client itself, or the port is gone - and then sends nothing; a beam read as on is off afterwards |
| `Intervene.Bridge.WriteOwn` | backend/internal/proxy/intervene.go:509-515 | What is recorded as sent is what the controller acted on, in the state it was in then |
| `Intervene.FirstToggleIsSafe` | backend/internal/proxy/intervene.go:116-126 | Of a true and current reading of HOLD and BeamOn the bridge can tell that the toggle as first command will not light the output if and only if nobody is attached |
| `Intervene.ToggleCanLight` | backend/internal/proxy/intervene.go:116-126 | A run from any sound quiet beginning with a client attached in which the ladder begins with the toggle and the toggle lights the output |
| `Intervene.AnsweredIsCurrent` | backend/internal/proxy/intervene.go:70-78 | After one answer to a question asked since the last client left, every reading of a hold with the beam on is still true, whatever else was in flight; so no command of a run that begins there lights the output |
| `Intervene.TwentyQuestions` | backend/internal/proxy/bridge.go:276-281 | The twenty requests are needed: a controller with nothing new to say may leave exactly nineteen answers without a word about its outputs |
| `Intervene.ArriveAll` | backend/internal/proxy/intervene.go:436-451 | Reading everything in flight leaves the reading at the last report sent |
| `Standing.TickAndIntervene` | backend/internal/proxy/supervise.go:175-182 | Watchdog and ladder together: a tick that acts ends with the output off if the machine is left to the bridge; one that does not act sends nothing; with nobody attached and a question answered since the last client left, no command lights the output |
| `Wire.EvidenceIsTrue` | backend/internal/grbl/observer.go:259-273 | Over every run of the two ends - clients, commands, drift, messages held up in flight - a known beam reading is the real output at the last report read |
| `Wire.EvidenceIsYoung` | backend/internal/proxy/supervise.go:36-41 | Against a controller that keeps the documented gap, a known reading is never twenty reports old, so the limit of thirty never switches the stationary rule off |
| `Wire.PrintedReportReadsBack` | backend/internal/proxy/beam_test.go:154-188 | The controller's abstract report is the one that GRBL's printed status line parses to |
| `Wire.SoundAsk` | backend/internal/proxy/beam_test.go:162-186 | Answering a request keeps the link sound: a change of output forces the next report to mention it |
| `Wire.SoundSend` | backend/internal/proxy/beam_test.go:189-212 | So does every real-time command, with 0x9E a toggle that acts only in HOLD |
| `Wire.SoundDeliver` | backend/internal/grbl/observer.go:223-338 | So does reading a report |
| `Safety.StepsRestOnEvidence` | backend/internal/proxy/safety.go:83-155 | No step is decided twice, under policy none, or without its evidence: a hold only while not at rest, a spindle stop only on HOLD and BeamOn, a reset that waits only when the beam is not known to be on |
| `Safety.KnownBeamIsDealtWith` | backend/internal/proxy/safety.go:105-123 | A beam known to be on is never left at that until a soft reset has been sent |
| `Safety.LadderTerminates` | backend/internal/proxy/safety.go:50-56 | For arbitrary readings each command is sent at most once and the fourth decision is terminal |
| `Safety.LostClientMeansOneReset` | backend/internal/proxy/safety.go:124-145 | A client lost under reset ends in exactly one soft reset if and only if the first reading is one to act on, and otherwise in nothing at all |
| `Safety.NotAtRestIsActedOnUnlessUnknown` | backend/internal/proxy/safety.go:90-96 | Of the states not at rest only the empty one after a banner, without a beam, is not acted on |
| `Safety.HoldAfterReset` | backend/internal/proxy/safety.go:98-103 | The rungs have no fixed order: a feed hold can follow a soft reset, whose banner clears the state |
| `Supervise.Watch.Tick` | backend/internal/proxy/supervise.go:62-182 | One tick: the timers and what came of it, stale slots released, and one M5 for a lease that has run out - unless a client is in charge or no slot is free, when nothing is written, or the port fails, when what it took before that is |
| `Supervise.Watch.Examine` | backend/internal/proxy/supervise.go:82-178 | The part of a tick that looks at the machine |
| `Supervise.Watch.Judge` | backend/internal/proxy/supervise.go:121-164 | The two rules, with no unset timer ever subtracted |
| `Supervise.TimersTellTheHistory` | backend/internal/proxy/supervise.go:90-116 | Each timer shows exactly when its condition began - the earliest tick since which the port stayed open, nothing was done, and every tick that looked found it so - and is unset if and only if there is none |
| `Supervise.VerdictIsDeserved` | backend/internal/proxy/supervise.go:117-178 | Every tick of every run does what the history of what was seen calls for, stated without any timer: soundness and response in one |
| `Supervise.UnattendedBeamIsActedOn` | backend/internal/proxy/supervise.go:124-126 | A beam on with nobody attached is acted on at the first tick past the grace that finds no intervention under way, however many found one before it: a blocked lock never restarts the grace |
| `Supervise.LeavingIsActedOnAtOnce` | backend/internal/proxy/supervise.go:113-126 | The grace of an unattended beam runs while somebody is attached: under every policy but none the first tick without a client acts after a burn longer than that, unless a resting head was acted on before |
| `Supervise.LostReleaseIsLeftToTheRules` | backend/internal/proxy/supervise.go:93-104 | If the M5 of a lease that ran out does not put the beam out, no later tick writes it; under every policy but none the beam is timed from that tick on and acted on at the latest by the first tick past the grace that finds nobody attached and no intervention under way |
| `Supervise.StationaryBeamIsEvident` | backend/internal/proxy/supervise.go:127-161 | A stationary intervention starts only if every tick that looked for longer than the configured time read BeamOn with no live lease and an unchanged position, on evidence at most thirty reports old |
| `Supervise.OnlyTheAgeDecides` | backend/internal/proxy/supervise.go:149-149 | Of the two tests of the evidence the one for a missing date never decides anything |
| `Supervise.StalenessIsSaidOnce` | backend/internal/proxy/supervise.go:149-157 | That the evidence is old is said once until the rule has fired again |
| `Observer.Observer.Write` | backend/internal/grbl/observer.go:163-194 | A chunk of bytes leaves the state and the announced reports that reading it byte by byte specifies |
| `Observer.Observer.Flush` | backend/internal/grbl/observer.go:198-221 | One completed line |
| `Observer.Observer.ForgetBeam` | backend/internal/grbl/observer.go:405-411 | Only what is known of the output is dropped |
| `Observer.Observer.Reset` | backend/internal/grbl/observer.go:415-424 | As if nothing had been heard |
| `Observer.StreamingIsSplitting` | backend/internal/grbl/observer.go:163-221 | Streaming refines splitting: a chunk leaves the observer where splitting at CR and LF, discarding empty and over-512-byte lines and applying the rest, would have |
| `Observer.ChunkingMakesNoDifference` | backend/internal/grbl/observer.go:163-221 | However the stream is cut, the reading (timestamps aside) and the reports announced are those of its lines, and the buffer never passes 512 bytes |
| `Observer.CoordinatesAgree` | backend/internal/grbl/observer.go:237-255 | Work and machine coordinates agree after a report exactly when it carried a position, or nothing about the offset changed what they agreed on |
| `Observer.KnownBeamHasADate` | backend/internal/grbl/observer.go:117-128 | Whatever is fed to an observer and however often the beam is forgotten, the beam is known exactly when it has a date |
| `Grbl.ErrorReadsBack` | backend/internal/grbl/parse.go:128-130 | An error line of any 64-bit code is read as that error and nothing else |
| `Grbl.AlarmReadsBack` | backend/internal/grbl/parse.go:131-134 | An alarm line is read as the alarm state with its code, and answers nothing |
| `Grbl.SettingReadsBack` | backend/internal/grbl/parse.go:143-147 | A printed setting is read as its name and its value |
| `Grbl.ParseStatus` | backend/internal/grbl/parse.go:171-225 | The fields of a status report, by its loop |
| `Grbl.ParseNumbers` | backend/internal/grbl/parse.go:239-250 | All the numbers of a list, or none |
| `Grbl.StatusLineReadsBack` | backend/internal/grbl/parse.go:141-142 | A status line printed from fields without a bar parses to those fields |
| `Grbl.OverridesMentioned` | backend/internal/grbl/parse.go:219-220 | A report mentions its outputs exactly when one of its fields is Ov: |
| `Grbl.OutputFieldsReadBack` | backend/internal/grbl/parse.go:219-222 | Ov: with A: or without it reads back as on or off |
| `Update.Manager.Install` | backend/internal/update/update.go:170-239 | The durable writes of an installation, cut short after any number of them; a bundle that is not verified changes nothing |
| `Update.Manager.StageRollback` | backend/internal/update/update.go:301-326 | Likewise for a rollback, which needs a kernel in the other slot |
| `Update.Manager.ConfirmBoot` | backend/internal/update/update.go:341-372 | Likewise for confirming a boot, on both of its paths |
| `Update.InstallAtEveryCrashPoint` | backend/internal/update/update.go:197-238 | At every crash point the running slot and the boot counter are untouched; active-slot.cfg is as it was until the last write, and names a slot holding all of the bundle from then on |
| `Update.ActiveSlotStaysComplete` | backend/internal/update/update.go:208-237 | active-slot.cfg names a complete slot at every crash point if and only if it named the running slot to begin with: installing over a staged update tears the slot it names |
| `Update.RunningSlotIsUntouched` | backend/internal/update/update.go:197-211 | No operation, wherever cut short, touches the slot that is running |
| `Update.FourAttemptsAreEnough` | build/grub.cfg:23-41 | If some slot works, four power-ons find it wherever the counter stands, and three if the counter is not at two |
| `Update.ThreeAttemptsAreNot` | build/grub.cfg:28-35 | Three are not: a settled slot booted twice without confirmation is left for the other, and if that does not work three attempts are lost before the settled one is booted again |
| `Update.RecoversFromAnything` | docs/adr/0004-unattended-recovery-paths.md:29-38 | After any run of installations, rollbacks, confirmations and power cuts a working slot is left, at most four power-ons find it, and an uninterrupted confirmation then leaves counter 0, no override, the running slot active and, if it was not before, no reboot asked for |
| `Update.UpdateFromBeginningToEnd` | backend/internal/update/update.go:328-372 | An update that works is booted next and settles when confirmed; one that does not is tried twice, the third boot is the old system, and confirming that drops the update |
| `Update.StagedBootsNext` | build/grub.cfg:23-35 | What was staged boots next if and only if the boot loader is neither falling back to the running slot nor about to change slots, or both at once |
| `Update.Confirmed` | backend/internal/update/update.go:341-372 | What an uninterrupted confirmation leaves, and that a reboot is asked for afterwards exactly if it already was although active-slot.cfg named the running slot |
| `Update.CutShort` | backend/internal/update/update.go:224-237 | The announcement of a pending reboot stays true at every crash point of every operation except exactly one each: between the record and active-slot.cfg |
| `Update.FinishedOperationsTellTheTruth` | backend/internal/update/update.go:252-272 | Operations that are not cut short keep the announcement true |
| `Update.FailedTargetStaysAnnounced` | backend/internal/update/update.go:365-371 | The crash that keeps a failed update announced, even after a later confirmation |
| `Update.StagedIsReported` | backend/internal/update/update.go:252-272 | What Status says after an installation and after a rollback |
| `Config.Validate` | backend/internal/config/config.go:157-268 | Nothing is reported if and only if the settings meet every rule |
| `Config.CheckClaims` | backend/internal/config/config.go:219-234 | The port-claim loop reports exactly the claims that clash, and none if and only if the listening ports are pairwise different and neither 22 nor 80 |
| `Config.CheckSystem` | backend/internal/config/config.go:159-164 | The rules for the system, each reported exactly when it is broken |
| `Config.CheckLink` | backend/internal/config/config.go:165-177 | The rules for backend, device, baud rate and port, each reported exactly when it is broken |
| `Config.CheckService` | backend/internal/config/config.go:178-193 | The rules for connections, disconnects, stationary beam and monitor port, likewise |
| `Config.CheckPicture` | backend/internal/config/config.go:194-209 | The rules for camera device, format and resolution, likewise |
| `Config.CheckStream` | backend/internal/config/config.go:210-218 | The rules for frame rate, camera port and quality, likewise |
| `Config.CheckNetwork` | backend/internal/config/config.go:235-250 | The rules for the network, likewise |
| `Config.CheckWifi` | backend/internal/config/config.go:251-262 | The rules for Wi-Fi, likewise |
| `Config.Salvage` | backend/internal/config/config.go:286-317 | Keeps host name, network and Wi-Fi each exactly when usable; the final fallback is never reached |
| `Config.SalvagedIsValid` | backend/internal/config/config.go:270-317 | What is salvaged always validates; salvaging twice changes nothing more; setup_complete survives if and only if it was set and Wi-Fi was kept or not enabled; usable settings keep all three parts |
| `Config.DefaultIsValid` | backend/internal/config/config.go:108-128 | The defaults are usable |
| `Yaml.Parser.TakeLine` | backend/internal/config/yaml.go:61-108 | One line of the file, with every error and every skip |
| `Yaml.Parser.TakeSetting` | backend/internal/config/yaml.go:90-108 | A value that cannot be read leaves the settings exactly as they were and costs one note, although assigning comes before checking |
| `Yaml.Parser.SetValue` | backend/internal/config/yaml.go:116-204 | What a key and a value come to |
| `Yaml.ParseYaml` | backend/internal/config/yaml.go:38-47 | The outcome of reading a file: unreadable, unusable, or settings with notes |
| `Yaml.Parse` | backend/internal/config/yaml.go:52-114 | The reading loop is the fold of its lines, with the first error final |
| `Yaml.RoundTrip` | backend/internal/config/yaml.go:206-223 | Only usable settings are written, and they are read back exactly, without a note, if and only if no line exceeds the limit of the scanner |
| `Yaml.WrittenIsTaken` | backend/internal/config/yaml.go:206-223 | The same for any settings whose numbers fit and whose servers are clean words, usable or not |
| `Yaml.ValueReadsBack` | backend/internal/config/yaml.go:117-127 | Each kind of value reads back from its text |
| `Yaml.ItemsOfJoin` | backend/internal/config/yaml.go:179-186 | The comma-joined list of servers splits into the servers, given that each is an address |
| `Yaml.BadLineCostsOneNote` | backend/internal/config/yaml.go:97-108 | An unknown key or an unreadable value anywhere costs the file one note and nothing else |
| `Yaml.UnknownSectionCostsOneNote` | backend/internal/config/yaml.go:67-89 | A whole unknown section, before a title or at the end, costs one note and nothing else, however much is in it |
| `Yaml.KeptIsEnough` | backend/internal/config/yaml.go:22-37 | Every readable file means what its useful lines mean; those are accepted without a note, and the file gets one note for each bad line and each unknown section |
| `Yaml.FileMeansItsUsefulLines` | backend/internal/config/yaml.go:52-114 | The same of the parser there is, for every file it can read |
| `Yaml.NewerLines` | backend/internal/config/yaml.go:97-101 | What lines of a newer version come to, whatever follows the colon: one complaint in a known section, nothing in an unknown one |
| `Schema.KeysAreFound` | backend/internal/config/yaml.go:130-199 | Every key the printer writes is found under its name in its section |
| `Schema.FieldsApart` | backend/internal/config/yaml.go:130-199 | Each key sets its own setting and no other; the list of servers is added to |
| `Schema.AllFieldsRebuild` | backend/internal/config/yaml.go:206-222 | The printed keys cover every setting, each once |
| `Store.Store.Ensure` | backend/internal/config/store.go:37-74 | A file that is not accepted is moved aside unchanged and replaced by what could be salvaged; one that is accepted is left alone |
| `Store.Store.Save` | backend/internal/config/store.go:100-123 | Unusable settings are refused and the file stays |
| `Store.StartUpLeavesALoadableFile` | backend/internal/config/store.go:26-74 | Whatever was on the disk, what start-up leaves loads - as exactly what was salvaged, if anything had to be, and is left alone from then on - if and only if no line of what it writes exceeds the limit of the scanner; otherwise the next start-up falls back to the defaults |
| `Store.LongListsAreLost` | backend/internal/config/yaml.go:179-186 | Files within the limit to which that happens: two long lists of servers and one unusable setting |
| `Journal.Collapse` | backend/internal/proxy/journal.go:214-224 | Collapsing, by its loop |
| `Journal.Files.Buffer` | backend/internal/proxy/journal.go:326-340 | One line of a batch, with the rotation in its middle, leaves what writing it by itself would have left |
| `Journal.CollapsingKeepsTheStory` | backend/internal/proxy/journal.go:213-228 | Collapsing fresh events tells the same story event for event, and preserves the total of one plus the repeats |
| `Journal.CollapsedNeighboursDiffer` | backend/internal/proxy/journal.go:213-228 | And leaves no two equal neighbours |
| `Journal.Files.AppendBatch` | backend/internal/proxy/journal.go:294-342 | One write for a batch, rotating in the middle, leaves what writing each line by itself would have left |
| `Journal.Files.Flush` | backend/internal/proxy/journal.go:310-324 | The buffered lines go to the end of the current file and the tracked size stays right |
| `Journal.FilesHoldTheNewest` | backend/internal/proxy/journal.go:31-36 | The rotated file followed by the current one is always a line-aligned contiguous end of what was written, neither above 256 KiB, and more than 256 KiB together once anything was dropped |
| `Journal.Files.Load` | backend/internal/proxy/journal.go:125-158 | The last 200 events of the two files, older file first, foreign lines skipped |
| `Journal.ReadLines` | backend/internal/proxy/journal.go:135-150 | The reading loop keeps the last 200 of what it has read |
| `Journal.ReloadReadsTheNewest` | backend/internal/proxy/journal.go:113-158 | A restart reads back a contiguous end of everything written - all of it if nothing was dropped |
| `Journal.RestartShowsTheNewest` | backend/internal/proxy/journal.go:113-158 | Over any run of batches and restarts a restart shows the last 200 of a contiguous end of everything ever written, all of it unless more than one file's worth is left even so |
| `Journal.ReloadAfterCut` | backend/internal/proxy/journal.go:141-145 | What a restart reads after the power went at any byte of a write: every whole line, and the last one even if only its ending is missing |
| `Journal.ReloadAfterNext` | backend/internal/proxy/journal.go:310-324 | And once the next event has been written behind a torn line: both are lost, unless the cut fell between two lines |
| `Journal.Journal.Push` | backend/internal/proxy/journal.go:161-169 | The ring, in place, holds the newest 200 events in order |
| `Journal.Journal.Add` | backend/internal/proxy/journal.go:242-263 | Adding never blocks: kept in the ring, queued if worth keeping, counted as dropped if the queue is full |
| `Journal.Journal.Recent` | backend/internal/proxy/journal.go:273-284 | The newest events, oldest first |
| `Journal.EveryEventIsAccountedFor` | backend/internal/proxy/journal.go:182-263 | Every event worth keeping has been written, is waiting, or is counted as dropped, however adding and writing interleave |
| `LineTail.LineTail.Write` | backend/internal/proxy/journal.go:413-442 | A chunk of the client's bytes enqueues what the byte-by-byte specification says |
| `LineTail.LineTail.Acknowledge` | backend/internal/proxy/journal.go:385-401 | One reply and the line it is told, if any |
| `LineTail.LineTail.Forget` | backend/internal/proxy/journal.go:405-411 | The accounting starts over |
| `LineTail.AttributionIsExact` | backend/internal/proxy/journal.go:344-401 | Over every interleaving of chunks and replies since Forget, the k-th reply is told the k-th non-blank line sent if the books were in balance throughout and that line was sent, and nothing otherwise |
| `LineTail.ContextIsTheLastFour` | backend/internal/proxy/journal.go:413-453 | The context beside an error is the last four non-blank lines ever sent, whatever has been answered or forgotten |
| `LineTail.ChunkAccounts` | backend/internal/proxy/journal.go:413-442 | A chunk adds exactly the lines that splitting ends, real-time bytes aside |
| `LineTail.WhatPutsTheBooksOff` | backend/internal/proxy/journal.go:388-429 | Only an unearned reply, or one line too many outstanding, puts the books off |
| `LineTail.OffStaysOff` | backend/internal/proxy/journal.go:352-357 | From then on nothing is claimed until the accounting starts over |
| `Books.Recorder.Record` | backend/internal/proxy/bridge.go:317-380 | Which controller lines count in the client's and the appliance's books: replies in both, restarts close both, everything else in neither |
| `Books.ClaimsAreTrueForAClient` | backend/internal/proxy/bridge.go:724-726 | What is claimed about a client's lines is true for as long as it stays if and only if nothing was left to answer when it connected |
| `Books.OwnLineStaysCovered` | backend/internal/proxy/control.go:493-541 | There is a slot for each unanswered line of the appliance but for as many as the timeout has given up, through clients, replies, restarts and further lines sent in the same way, if and only if no line of a client was left to answer when it was sent |
| `Console.Console.Add` | backend/internal/proxy/console.go:85-99 | The ring holds the last 400 lines, consecutively numbered |
| `Console.Console.Since` | backend/internal/proxy/console.go:103-120 | The answer to a poll, given every line ever added; asking renews the lease |
| `Console.Console.Recording` | backend/internal/proxy/console.go:78-82 | The transcript is recorded exactly if somebody polled less than a lease ago and nobody has polled or left since |
| `Console.RecordedWhileWatched` | backend/internal/proxy/console.go:101-127 | The same of the lease alone, over any run of polls, departures and lines |
| `Console.Newer` | backend/internal/proxy/console.go:114-118 | The loop that selects what is new |
| `Console.OnePollAccounts` | backend/internal/proxy/console.go:103-120 | Missed plus returned is what was added since, exactly when the number had been given out and is not zero, or nothing has been evicted |
| `Console.ChainedPollsAccount` | backend/internal/proxy/console.go:103-120 | Polls chained by next account for every line added, across any evictions |
| `Console.DeliveredInOrder` | backend/internal/proxy/console.go:103-120 | Each line is delivered at most once and in order |
| `Credits.Steering.SendLines` | backend/internal/proxy/control.go:524-545 | All slots before any byte: a refused send writes nothing, a failed one what the port took before it failed, and neither changes the count |
| `Credits.Steering.TakeSlots` | backend/internal/proxy/control.go:528-537 | As many slots as asked for, or all that are left |
| `Credits.Steering.ForgetStaleLines` | backend/internal/proxy/control.go:570-588 | A tick releases the stale head and turns the first young slot round |
| `Credits.Steering.Acknowledged` | backend/internal/proxy/control.go:493-498 | One reply, one slot |
| `Credits.Steering.Release` | backend/internal/proxy/control.go:549-553 | Hands back the oldest slots |
| `Credits.Steering.ForgetInjected` | backend/internal/proxy/control.go:557-566 | A restart answers for all |
| `Credits.RefusedSendKeepsTheCount` | backend/internal/proxy/control.go:516-545 | The count changes only by a send that was written |
| `Credits.RefusedSendKeepsTheSlots` | backend/internal/proxy/control.go:547-553 | A refused send leaves the queue as it was if and only if it took no slot or there was none to replace: which slot comes back does matter |
| `Credits.TimeoutFreesExactlyWhen` | backend/internal/proxy/control.go:482-486 | After any stretch of ticks and refused sends a tick frees every slot if and only if ninety seconds are over for the newest line and for the last refused send that took a slot |
| `Credits.NothingTakenNothingRenewed` | backend/internal/proxy/control.go:482-486 | So when no refused send takes a slot the first tick past the timeout of the newest line frees them all |
| `Credits.SlotsAreHeldExactlyWhile` | backend/internal/proxy/control.go:567-588 | Through any run of ticks and refused or failed sends the number of slots held never grows, and stays the same if and only if no tick finds a slot of ninety seconds at the head of the queue |
| `Credits.RefusedExactlyWhile` | backend/internal/proxy/control.go:524-540 | So the smallest command there was no room for is still refused after any such run if and only if no tick found one |
| `Credits.RefusedForGood` | backend/internal/proxy/control.go:482-486 | With three lines unanswered, a two-line command tried three times between two ticks, and so again within ninety seconds of the first try, keeps all three slots taken for good, however many ticks come in between |
| `Credits.TryingOnceAtATimeGetsThrough` | backend/internal/proxy/control.go:567-588 | Tried once at a time with two ticks in between it renews one slot of the three, however often; the next two ticks after the timeout of the other two free both, and the command goes |
| `Credits.FourTriesGetThrough` | backend/internal/proxy/control.go:567-588 | Such a run: refused at 20, 40, 60 and 80 seconds, written at 95 |
| `Credits.TickKeepsTheOrder` | backend/internal/proxy/control.go:573-581 | A tick keeps the queue in order of age if and only if it leaves at most one young slot or young slots of one age |
| `Credits.OutOfOrder` | backend/internal/proxy/control.go:573-581 | Two lines and a tick that leave the queue out of order |
| `Credits.TickKeepsTheYoung` | backend/internal/proxy/control.go:567-588 | No tick drops a slot younger than ninety seconds |
| `Credits.StaleSlotIsReleased` | backend/internal/proxy/control.go:567-588 | A stale slot at position i is gone after at most i+1 ticks, under any sends, replies and restarts between them, despite the rotation |
| `Credits.NextSound` | backend/internal/proxy/control.go:467-483 | The queue always holds zero to four slots |
| `Credits.FourLinesFit` | backend/internal/proxy/control.go:467-480 | Four lines always fit the controller's buffer if and only if none is longer than thirty-one characters |
| `Credits.TypeTwice` | backend/internal/proxy/control.go:251-256 | Typing a line of the greatest length twice leaves more unanswered than the buffer holds: both sends succeed |
| `Credits.AimingBeam.Hold` | backend/internal/proxy/control.go:143-152 | A live lease is refused to anybody else |
| `Credits.AimingBeam.ReleaseBy` | backend/internal/proxy/control.go:156-164 | Only the holder, or the appliance, lets go |
| `Credits.AimingBeam.Expired` | backend/internal/proxy/control.go:179-187 | A lease that has run out is reported and cleared |
| `Credits.LeaseLastsUntil` | backend/internal/proxy/control.go:121-187 | Short of a release by the appliance itself, whatever anybody else asks of a lease leaves it as it is up to the moment it runs out, and no longer |
| `Credits.StopFreesTheLease` | backend/internal/proxy/control.go:203-210 | A stop from anybody is such a release: nobody holds the beam after it, and whoever asks next does |
| `Credits.FoundRunOutOnce` | backend/internal/proxy/control.go:177-187 | A lease is found to have run out once, and not again before the beam has been held again |
| `Attempts.AttemptGuard.Record` | backend/internal/api/attempts.go:64-81 | The outcome of an attempt, with the 64-bit shift |
| `Attempts.AttemptGuard.Wait` | backend/internal/api/attempts.go:52-60 | How long to wait; zero exactly when the lockout is over |
| `Attempts.LockoutIsCappedDoubling` | backend/internal/api/attempts.go:76-79 | For every number of failures the wrapping shift with its two guards is min(15 s * 2^(n-6), 300 s) |
| `Attempts.WrappedIsLongOrNegative` | backend/internal/api/attempts.go:76-79 | What the 64 bits keep is never a short positive lockout |
| `Attempts.LockoutsNeverShrink` | backend/internal/api/attempts.go:72-81 | Lockouts never shrink before a correct password |
| `Attempts.GuessingTakes` | backend/internal/api/attempts.go:50-81 | Failures made only when told to wait no longer take at least the sum of the lockouts |
| `Attempts.GuessingAsFastAsAllowed` | backend/internal/api/attempts.go:50-81 | And that bound is met |
| `Attempts.TotalLockoutClosedForm` | backend/internal/api/attempts.go:35-40 | Ten failures cost 465 seconds and every one after that five minutes |

## Left out

- Standing.TickAndIntervene: the order of the lock and the timers is that of one tick; goroutines that run beside it appear only as the adversary's choices between two bytes.
- Intervene.Bridge.Intervene: the words written to the record, the message a dropped client is sent, and the job tracker are not part of it.
- Intervene.Bridge.TakeOver: the client is gone when its connection has been closed; in the program `b.client` stays set until the goroutine that serves it ends, and if that takes longer than a poll interval the poll that follows gives up early and the ladder can end unconfirmed.
- Intervene.Bridge.PollBeam: time is counted in requests, of which the defaults allow fifty; a controller that does not answer within an interval is outside the assumptions.
- Update.Manager.Install: verification of the bundle (zip, SHA-256, signatures) is one abstract yes or no; creating directories and mounting the boot partition are left out; completed writes and renames are durable in program order.
- Config.Validate: the problems are named rather than worded, and not sorted.
- Yaml.Parse: a trailing carriage return is removed with the other trailing blanks, and blanks are the ASCII ones.
- Journal.Files.AppendBatch: opening, writing and renaming succeed; a failing disk loses lines.
- Journal.Files.Load: the scanner's limit of one megabyte a line is above what a file can hold.
- Console.Console.Since: sequence numbers are unbounded.
- Grbl.ParseNumbers: coordinates are reals and the parsing of one number is a function value.
- Attempts.AttemptGuard.Record: the failure counter is unbounded.
- Sockets, serial settings, keepalives, write deadlines and goroutine scheduling: input and output over libraries that are not shown.
- The web interface, Wi-Fi scanning, device discovery, USB policy, the hardware watchdog and deployment: plumbing.
- The questions asked when the port opens and the gate that holds clients back meanwhile: their checks and writes are not atomic.
- Job tracking, busy guards and the formatting of jog, go-to and zero commands: they would add only easy members.
- Unicode white space: text is a sequence of bytes.
