# Octomancer: models and proofs

Octomancer keeps the clocks of Blackmagic cameras together. It talks to them
over Bluetooth LE with a host stack of its own, on which several programs share
one radio; it decides when a camera's clock is worth writing and learns from
what the write did; and it remembers what it learned in files that are appended
to. This project models that logic in Dafny and proves what it is meant to keep.

Every file is one module, named after what it models:

| modules | part of the program |
|---|---|
| Framing, Hci, L2cap, AclLink | bytes on the port, ACL fragments, flow control and reassembly (src/hci.cc, src/att.cc, src/hcilink.cc) |
| HciLink | the host's queues, timers and completions (src/hcilink.cc) |
| SharedLink, SharedRadio | many users of one scan and one connection (src/hcishare.cc) |
| Gatt, AttServer, AttBuilder | the attribute protocol and the server (src/att.cc) |
| Discovery, AttCamera | the client that finds a camera's characteristics (src/camera_hci.cc) |
| CamSync, Civil | when to write a clock, and what (src/camsync.cc, src/bmd.cc) |
| BoxMsg | messages between programs, one to a line (src/boxmsg.cc, src/escape.cc) |
| LogScan, CamLines, CamLog, CamTorn, CamCut, CamDb | the camera database: a log of lines, its scanner, replay and compaction (src/logscan.cc, src/jsonlog.cc, src/camdb.cc) |
| CamConf | the settings file that programs edit in place (src/camconf.cc) |
| Loop | timers and handlers that change them (src/loop.cc) |
| Wrappers, Bytes | what these share |

Code that computes is modelled by functions. Objects that change are classes
whose methods are proved equal to a function of the old state, and loops are
proved equal to a recursive function; what the program promises is then proved
about those functions, for every input and every run.

## What does not hold

Some of what the code sets out to do fails, and the model shows the input and
the exact condition:

- A user can be told that its active scan is on while the radio scans passively
  (`SharedLink.ToldActiveButPassive`). `SharedLink.QuietMeets` says when a quiet
  radio does what was asked, `SharedLink.StrayExactly` when a run gets there.
- A line appended behind one that a crash cut short can be lost and give one
  camera a write that another one made (`CamTorn.TornWriteMisleads`). Appending
  is safe exactly behind whole lines (`CamCut.SafeExactlyWhenWhole`).
- A characteristic declared twice can end with the value handle of one
  declaration and the configuration of the other, so that the client listens for
  a value the server never notifies (`AttCamera.MixedUp`). It does not exactly
  when the last declaration notifies or no earlier one does
  (`AttBuilder.KeepsOwnWhenBuilt`, `Discovery.HandlesExactly`).
- A clock value outside the years 2000 to 2099 does not come back from a camera
  as it was sent (`Civil.RtcRoundTrip`).
- A box's warning can be set and not heard, if a camera has the same id
  (`CamConf.WarnIsShadowed`).
- A write tolerance below the noise of the readings never lets a write be
  verified, so the controller gives up on a camera that is right
  (`CamSync.ToleranceTooTight`, `CamSync.ToleranceDecides`).
- A value sent for a whole second is that second only for a lead in
  (-0.5, 0.5] (`CamSync.LandsOnItsSecond`).
- A frame too long for the 16-bit length is sent with a length that wrapped
  (`L2cap.L2capRoundTripExactly`).
- Packets outstanding on a connection that drops take their buffer credits with
  them (`AclLink.AclSender.Dropped`). When all are gone nothing is sent any more
  (`AclLink.Starve`), and one frame can be enough (`AclLink.RunDry`).
- The drift bound holds over restarts that are noticed
  (`CamSync.BoundHoldsOverRuns`); a jump back that is too small to be noticed,
  however small, can put it below the rate (`CamSync.SlipMisleads`,
  `CamSync.SlipInput`).
- The search for the next deadline finds the least exactly when no live timer's
  is negative or the last one's is the least (`Loop.NextExactly`).
- A command with 256 parameter bytes or more is not sent as one packet
  (`Hci.CommandIsWhole`).

Where comments and code disagree the model follows the code. src/logscan.h:9 and
src/camdb.h:142 promise that a line torn by a power failure is skipped; that
holds until something is appended behind it. The comment at
src/hcilink.cc:1009-1011 says the scan is put back whether or not the connection
happened; the code puts it back only when it did not.

## Model

| member | source | states |
|---|---|---|
| Framing.CutResumes | src/hci.cc:447-491 | Bytes that arrive later never change what was already cut off a buffer: cutting a stream in two reads gives the same packets and the same rest as cutting it whole, garbage included |
| Framing.CutBuffer | src/hci.cc:447-491 | The loop over a buffer cuts off exactly the pieces the specification cuts, and what it leaves unerased is the specification's rest |
| Hci.ParseStream | src/hci.cc:447-491 | Reading a byte buffer cuts exactly the H4 packets of the framing, and the bytes left over are its rest |
| Hci.PacketReader.OnReadable | src/hcilink.cc:110-142 | After every read the packets handed on and the bytes kept are those of all bytes seen so far, cut as one stream |
| Hci.ReadInChunks | src/hcilink.cc:110-142 | However a byte stream is cut into reads, the packets are those of the whole stream |
| Hci.BrokenWrite | src/hcilink.cc:99-108 | A write that broke off part-way never completes a packet at the reader |
| Hci.CommandIsWhole | src/hci.cc:331-340 | A command is built as one whole packet exactly when its parameters are fewer than 256 bytes |
| Hci.AclRoundTrip | src/hci.cc:620-644 | An ACL header built for a 12-bit handle and a fragment of at most 65535 bytes is parsed back as the same handle, boundary flag and data |
| L2cap.L2capRoundTripExactly | src/att.cc:118-136 | A frame in one buffer is read back as itself exactly when its payload fits the 16-bit length; a longer one is sent with a length that wrapped |
| L2cap.FragmentFrame | src/att.cc:177-188 | The loop computes the specified fragments, which FrameReassembles and StreamReassembles prove sufficient to rebuild the frames |
| L2cap.PushFragment | src/att.cc:138-175 | One fragment takes the reassembler from one state to the next, handing out the frames completed, as the pure reassembly of the same bytes does |
| L2cap.FrameReassembles | src/att.cc:138-188 | From any state whatever, the fragments of a frame bring out exactly that frame and leave the reassembler empty |
| L2cap.StreamReassembles | src/att.cc:138-188 | However many of a connection's fragments have arrived, what came out is a prefix of the frames, and it is all of them exactly when all arrived |
| AclLink.AclSender.PumpAcl | src/hcilink.cc:735-747 | Fragments go out in queue order, one credit each, until credits or queue run out or the port breaks; what was sent and what is queued together stay what was accepted |
| AclLink.AclSender.SendL2cap | src/hcilink.cc:700-733 | A frame's fragments are all queued or none is; the stream offered to the connection grows by exactly that frame |
| AclLink.AclSender.WriteCommand | src/hcilink.cc:371-394 | A command of fewer than 256 parameter bytes shares the port with the fragments: either it is appended whole and no ACL stream or queue changes, or the link has failed |
| AclLink.AclSender.CompletedPackets | src/hcilink.cc:482-496 | Credits grow by what is reported up to the controller's total, and what is then queued goes out; credits, packets held and credits lost still sum to the total, and a report of exactly what was let go loses none |
| AclLink.AclSender.Dropped | src/hcilink.cc:614-639 | A dropped connection's queued fragments go away and its outstanding packets become lost credits: none is handed back, so the balance holds with the loss in it |
| AclLink.Starve | src/hcilink.cc:614-639 | Once lost credits are all there were, no byte leaves any more over any run of sends, completions and drops |
| AclLink.RunDry | src/hcilink.cc:614-639 | The input: one frame of as many fragments as the controller has buffers, on a connection that drops before any is completed |
| AclLink.EndToEnd | src/hcilink.cc:700-747 | The wire, read through H4, the ACL header and a reassembler in any state, gives a prefix of the frames a connection was offered, all of them once nothing is queued |
| AclLink.FarEnd | src/hcilink.cc:641-681 | The same for a reader that is handed the wire in pieces of any size |
| HciLink.Link.Silence | src/hcilink.cc:152-206 | Whatever happened before, a finite number of timeouts and loop turns brings every completion ever promised to be called exactly as often as promised, handlers re-entering the link included |
| HciLink.Link.Unplug | src/hcilink.cc:144-206 | Losing the port calls everything outstanding once, refuses what the handlers then ask for on later turns, and leaves nothing owed |
| HciLink.KeepsOrder | src/hcilink.cc:355-407 | Whenever the link is looked at, what its log tells is in order: commands were sent in the order asked for, each over before the next, and so were the requests of every connection |
| HciLink.AllIsOver | src/hcilink.cc:355-407 | With no timer armed on an open link, every command and every request ever asked for was sent and is over |
| HciLink.NothingStranded | src/hcilink.cc:355-438 | With no deferred work and no timer armed the link holds no completion |
| HciLink.Link.IssueCommand | src/hcilink.cc:355-369 | A command asked for on an open link is the next deed of the link's log, which only grows: commands reach the wire in the order asked for, at most one unanswered, and its completion is owed once |
| HciLink.Link.PumpCommands | src/hcilink.cc:371-394 | Restores that a command waits only behind one in flight; no completion is lost or called twice, also when the write fails and takes the link down |
| HciLink.Link.FinishCommand | src/hcilink.cc:396-407 | The command in flight is answered: that is the next deed logged, its completion is accounted for once, and the queue is pumped again |
| HciLink.Link.RunSequence | src/hcilink.cc:409-438 | The next command of a sequence is asked for at once, and the sequence's completion stays owed exactly once until the end |
| HciLink.Link.InitStep | src/hcilink.cc:216-302 | While the controller comes up there is always a next command to wait for or the end has come, and the ready handler stays owed exactly once |
| HciLink.Link.FailLink | src/hcilink.cc:152-206 | A link that fails logs it and ends closed and sound, with every completion it held accounted for once, whatever the completions ask of it meanwhile |
| HciLink.Link.RequestAtt | src/hcilink.cc:766-783 | A request accepted is the next deed logged; on each connection requests are taken up in the order made, one at a time, and the completion is owed once |
| HciLink.Link.PumpAtt | src/hcilink.cc:785-817 | Restores that a request waits only behind one in flight, whether sending works, is refused or breaks the link |
| HciLink.Link.FinishAtt | src/hcilink.cc:819-836 | The request in flight is settled: that is the next deed logged, its completion is accounted for once, and the connection's queue is pumped again |
| HciLink.Link.CommandAnswered | src/hcilink.cc:446-480 | An answer ends the command in flight, and that is logged next, exactly when it names its opcode; any other leaves the link exactly as it was |
| HciLink.Link.ProgramTurn | src/hcilink.cc:355-369 | Whatever the program asks for, in any nesting of completions, keeps the link sound, and every completion handed over is added to what is owed |
| HciLink.Link.ConnectionCompleted | src/hcilink.cc:560-585 | With an attempt under way the event ends it as it went, logged next, its completion accounted for once; without one it only adds the connection, if there is one |
| HciLink.Link.EncryptionChanged | src/hcilink.cc:498-530 | With an encryption under way the event ends it, logged next, its completion accounted for once; without one the link is as it was |
| HciLink.Link.AttReceived | src/hcilink.cc:641-698 | A PDU settles the request in flight, and that is logged next, exactly when it is no notification or indication and its opcode is one above the request's or it is an Error Response naming it; any other leaves the link exactly as it was |
| HciLink.Link.StartConnect | src/hcilink.cc:941-999 | An attempt accepted while a scan is on asks first for the scan to stop; the completion is owed once, and an attempt begun is always carried on by a command, deferred work or its own timeout |
| HciLink.Link.FinishConnect | src/hcilink.cc:1001-1018 | The attempt ends as it went, logged next; if it failed with a scan stopped for it the scan is asked for again before anything else; its completion is accounted for once |
| HciLink.Link.RestoreScan | src/hcilink.cc:1009-1016 | A scan is asked for again exactly when the attempt failed, had stopped one, and the link is open |
| HciLink.Link.Encrypt | src/hcilink.cc:1039-1082 | Accepted on an open link with that connection and no encryption under way, it asks for the command at once; the completion is owed once, and an encryption begun always has a command or its own timeout to end it |
| HciLink.Link.StopScanning | src/hcilink.cc:864-878 | With a scan on it asks for the command at once, else for nothing; the answer stays owed exactly once, and an attempt waiting on it stays under way |
| HciLink.Link.Disconnected | src/hcilink.cc:614-639 | A dropped channel is logged and its completions accounted for once; a connection without a channel changes nothing but the set of connections |
| HciLink.Link.TimerFires | src/hcilink.cc:371-394 | A timer that fires either gives something up, so that less can still happen, or was left over from an attempt that ended and only goes away |
| SharedLink.StepKeeps | src/hcishare.cc:175-293 | Every event there can be keeps the ledger of completions, one pump command at most, and what the host knows of the radio, and the radio's own events leave less to do |
| SharedLink.RunsKeep | src/hcishare.cc:175-293 | Over every run those guarantees hold, and the radio works at most three events for each request and thirteen for each connection attempt |
| SharedLink.QuietMeets | src/hcishare.cc:196-293 | With every scan command accepted, a quiet radio does what its users want exactly when its scan is not one the link restored, or is one wanted passively; for nobody it scans only if restored |
| SharedLink.StrayExactly | src/hcilink.cc:1001-1018 | For every event on a link that is up, with no scan command refused: the scan is a restored one afterwards exactly if it was one or a failed, timed-out or refused attempt put it back, and nothing since let pump take it over |
| SharedLink.StrayBegins | src/hcilink.cc:1001-1018 | A connection that ends starts a restored scan exactly when it failed, had stopped the scan, and nobody wants one any more |
| SharedLink.ToldActiveButPassive | src/hcishare.cc:245-249 | A run with every command accepted after which a user is told its active scan is on while the radio scans passively and nothing is queued to change it |
| SharedLink.NothingStranded | src/hcishare.cc:183-194 | With nothing left to do every completion handed in has been called, once, and nobody waits |
| SharedLink.UnplugKeeps | src/hcishare.cc:119-131 | Losing the port calls every completion that still waited |
| SharedRadio.Arbiter.PumpOnce | src/hcishare.cc:196-293 | The imperative pump moves the state as the specification's pump, which RunsKeep and QuietMeets are about |
| SharedRadio.Arbiter.ReconcileWith | src/hcishare.cc:183-186 | The imperative reconcile moves the state as the specification's |
| SharedRadio.Arbiter.NewUser | src/hcishare.cc:82-86 | A new user moves the state as the specification's step: it wants nothing yet, and every guarantee is kept |
| SharedRadio.Arbiter.OnReady | src/hcishare.cc:94-117 | The controller coming up, or failing to, moves the state as the specification's step, and every guarantee is kept |
| SharedRadio.Arbiter.StartScan | src/hcishare.cc:347-359 | A user's request moves the state as the specification's step, and every guarantee of the arbiter is kept |
| SharedRadio.Arbiter.RemoveUser | src/hcishare.cc:88-92 | A user that goes moves the state as the specification's step, reconciling for those left, and every guarantee is kept |
| SharedRadio.Arbiter.ConnectTo | src/hcishare.cc:373-393 | A connection attempt moves the state as the specification's step, and every guarantee is kept |
| SharedRadio.Arbiter.OnGone | src/hcishare.cc:119-131 | Losing the port moves the state as the specification's step, and leaves nobody waiting |
| SharedRadio.Arbiter.WorkOff | src/hcishare.cc:183-293 | Left to itself the radio stops within the bound, with every completion answered exactly once and no attempt under way |
| Gatt.UuidRoundTrip | src/hci.cc:296-330 | Every UUID survives being written in its short or long form and read back |
| Gatt.ReadServices | src/att.cc:273-290 | A service list response is parsed entry by entry, or refused at the first entry that cannot be read |
| Gatt.ListBack | src/att.cc:273-338 | A list response of equal entries reads back as the entries put in |
| AttServer.EveryAnswerFits | src/att.cc:487-706 | No answer is longer than the agreed MTU, which is never below 23 |
| AttServer.EveryAnswerMatches | src/hcilink.cc:682-694 | Every request is answered by its opcode plus one or an Error Response naming it; only commands and confirmations get silence |
| AttServer.Server.HandleRequest | src/att.cc:487-706 | A request is answered as the specification of answers says, a write changes just the attribute written, and the MTU becomes the smaller offer but at least 23 |
| AttServer.Server.IsSubscribed | src/att.cc:453-485 | The search loop agrees with the specification of a subscription: the first client configuration behind the value and before the next declaration decides, by its two low bits |
| AttServer.Server.Notify | src/att.cc:453-485 | The PDU sent is the one NotificationArrives is about: none without a subscription, and never longer than the MTU |
| Discovery.Enumerate | src/att.cc:511-531 | Find Information repeated from behind the last handle told lists every attribute once, in order, for every table and MTU, and ends |
| Discovery.ListedIsTable | src/att.cc:511-531 | What there is to be listed is the whole table |
| Discovery.FindsTheService | src/camera_hci.cc:314-356 | The only camera service is found exactly when it is listed within the rounds allowed (sixteen in the source), however a server cuts its lists |
| Discovery.FindsTheChars | src/camera_hci.cc:358-388 | The declarations collected are a prefix of the service's, and all of them exactly when the last is listed within the rounds allowed (twenty-four in the source) |
| Discovery.FindsTheConfig | src/camera_hci.cc:413-448 | The first client configuration of a characteristic is found exactly when it is listed within the rounds allowed (eight in the source), however the server cuts its lists |
| Discovery.HandlesExactly | src/camera_hci.cc:450-477 | The handles kept of a UUID are those of its last declaration exactly when that one has a configuration recorded or no earlier one has; else they mix the value of one with the configuration of another |
| Discovery.KeepsOwnExactly | src/camera_hci.cc:393-477 | On a table with few enough descriptors: the client keeps the last declaration's own handles exactly when that one is wanted and has a configuration or no earlier one does |
| Discovery.ConfigInTime | src/camera_hci.cc:413-448 | A characteristic with no more descriptors than rounds has its first client configuration found |
| Discovery.HandlesAreExact | src/camera_hci.cc:450-477 | A characteristic declared once ends with its own value handle, properties and configuration |
| Discovery.SubscribesTo | src/att.cc:453-485 | Writing the configuration discovery found makes the server count that very characteristic as subscribed |
| Discovery.SubscribingWorks | src/camera_hci.cc:481-513 | Where the timecode has a configuration, the writes succeed and leave it subscribed, whatever else is subscribed after it |
| Discovery.NotificationArrives | src/camera_hci.cc:731-749 | No notification exceeds the MTU; it reads back at the client as the value cut to the MTU less three, and without a subscription there is none |
| Discovery.Camera.WalkConfigs | src/camera_hci.cc:393-411 | The walk over the characteristics records exactly the configuration the specification finds for each, and changes nothing at the server |
| Discovery.Camera.FinishDiscovery | src/camera_hci.cc:450-477 | The handles kept are the fold of the declarations: a later one replaces value and properties, and the configuration if it has one; discovery fails exactly without a control and a timecode value |
| Discovery.Camera.Discover | src/camera_hci.cc:304-477 | The three searches leave exactly what the pure searches of the same table give, for every sound table and MTU; the server is unchanged |
| Discovery.Camera.Subscribe | src/camera_hci.cc:481-513 | The configurations are written in order, once, and the first error ends the attempt |
| Discovery.Camera.Acquire | src/camera_hci.cc:304-513 | On a table with one camera service within reach, discovery and subscribing succeed and end with exactly the service, declarations and handles of the table, and the timecode subscribed |
| AttBuilder.CharKeeps | src/att.cc:370-434 | A characteristic whose UUID is no declaration itself keeps the table laid out: handles in order, declarations pointing at their values, few descriptors, a configuration for each that notifies |
| AttBuilder.ConfigIsListed | src/att.cc:370-434 | A notifying characteristic's configuration is always among the descriptors a client searches |
| AttBuilder.KeepsOwnWhenBuilt | src/camera_hci.cc:450-477 | On any table laid out, what is kept of a characteristic declared more than once is the last declaration's own exactly when that one notifies or no earlier one does |
| AttBuilder.BuiltIsAcquirable | src/att.cc:361-434 | Everything Acquire asks of descriptors and configurations holds of any table laid out |
| AttBuilder.ServerBuilder.AddCharacteristic | src/att.cc:370-434 | Adds exactly its declaration, value, description and configuration rows with consecutive handles, and returns the value's handle |
| AttCamera.Meet | src/camera_hci.cc:304-513 | Discovery meets server: any built table with one camera service within the rounds, declaring control and a notifying timecode once, is found exactly and subscribed, at any MTU |
| AttCamera.MixedUp | src/camera_hci.cc:450-513 | The input: a camera declaring its timecode twice, first notifying and then not, is discovered and subscribed without error, and the value the client listens for is one the server never notifies |
| AttCamera.AnyCamera | src/att.cc:361-434 | A camera laid out from any list of up to twenty-four characteristics with both of those once is found whole and subscribed |
| CamSync.WritesExactlyWhen | src/camsync.cc:75-159 | A write is decided on exactly when it is permitted, safe, useful, believed in, called for and not too soon |
| CamSync.BoundIsSound | src/camsync.cc:285-295 | The drift bound scheduled against is at least the true rate when readings are a constant-rate clock cut to whole frames |
| CamSync.BoundHoldsOverRuns | src/camsync.cc:172-229 | Starting from nothing known, over any run of cycles with writes and noticed restarts among them, after which the clock may be any other, the drift bound is at least the rate of the clock as it then walks |
| CamSync.SlipMisleads | src/camsync.cc:172-195 | The condition on restarts is needed: any backward jump, however small, that goes unnoticed can leave the bound below the rate |
| CamSync.SlipInput | src/camsync.cc:172-195 | The input: half a second lost in ten minutes by a clock that gains a millisecond a second |
| CamSync.NothingActionableBefore | src/camsync.cc:297-350 | For an error that moves no faster than the bound, no write would be decided on before the instant said to be actionable |
| CamSync.LooksReachHorizon | src/camsync.cc:297-350 | Sliced waits reach a horizon after at most as many looks as poll intervals, and no more than one poll late |
| CamSync.PollsReachTheWrite | src/camsync.cc:297-350 | Looks paced by next_poll at a camera out of tolerance reach the instant a write is allowed again, no more than one poll late |
| CamSync.ReacquireInterval | src/camsync.cc:352-366 | The wait is doubled for every miss, up to the ceiling |
| CamSync.WritesAreRationed | src/camsync.cc:116-149 | Over any run, any maxAdapts + 2 writes in a row span at least the minimum write interval |
| CamSync.RunFallsSilent | src/camsync.cc:116-149 | A run of whole cycles in which every write misses and no restart is seen holds at most that many writes, and with that many made decides on no more |
| CamSync.SilenceLasts | src/camsync.cc:75-159 | Once silent, no run without a noticed restart holds a write |
| CamSync.RestartAsksAgain | src/camsync.cc:161-170 | A restart clears the counters and the drift, and keeps bias and lead |
| CamSync.MissNeverGrows | src/camsync.cc:368-434 | A write never leaves the camera further out by whole seconds, and one that is right stays right |
| CamSync.BiasConverges | src/camsync.cc:368-434 | With noise within the write tolerance, a miss of at most maxBiasStep * maxAdapts is gone and verified within maxAdapts + 1 writes, no failure counted |
| CamSync.ToleranceDecides | src/camsync.cc:376-385 | With no whole second missing a write verifies whatever was read before exactly when the noise is within the tolerance |
| CamSync.NeverVerified | src/camsync.cc:376-385 | With noise beyond the tolerance and under half a second, and no worse a reading before, no number of writes verifies and no whole second is put in |
| CamSync.ToleranceTooTight | src/camsync.cc:376-385 | The input: tolerance 0.1, noise 0.3 is never verified |
| CamSync.AlignedWait | src/camsync.cc:445-451 | The loop computes the wait up to the first whole second at least the lead away, which LandsOnItsSecond is about |
| CamSync.LandsOnItsSecond | src/camsync.cc:445-455 | A wait of the lead before a whole second, between 0 and 1 for any lead not negative; the value sent is that second exactly when the lead is in (-0.5, 0.5] |
| CamSync.MedianOfMajority | src/camsync.cc:235-264 | Where a strict majority of the window lies, its median lies |
| CamSync.LeadIsLearned | src/camsync.cc:235-269 | If most delays of the window lie within d of a figure inside the clamp, the lead learned leaves a residual of at most d |
| CamSync.ConstantDelayIsLearned | src/camsync.cc:235-269 | A camera with a constant delay within the clamp, written at least minLeadSamples times with whatever leads, has that delay learned as its lead, and the residual is 0 |
| CamSync.Memory.RunCycle | src/camsync.cc:172-229 | One cycle of the daemon moves the state as observe, decide, the send and judge_write in turn do |
| Civil.DateOfDay | src/bmd.cc:112-123 | Every day number has a valid date, and that date's day number is the day |
| Civil.DayOfDate | src/bmd.cc:102-110 | Every valid Gregorian date's day number converts back to the date |
| Civil.DaysCountDates | src/bmd.cc:102-110 | The next date is the next day number, and 1 January 1970 is day 0 |
| Civil.FastIsCounting | src/bmd.cc:112-123 | From the epoch on, the fast conversion is the date counted forward one day at a time |
| Civil.AddDaysAdds | src/bmd.cc:127-134 | Moving by a days and then b is moving by a + b, for all integers |
| Civil.AddDaysBack | src/bmd.cc:127-134 | Moving by a days and back gives the date again, for all integers |
| Civil.UtcCivilBack | src/bmd.cc:84-96 | The moment read off a Unix second is that second again |
| Civil.DatedNearCamera | src/camsync.cc:457-488 | The moment sent has the bench's time of day and lies within half a day of the camera's own reading |
| Civil.DatedUniquely | src/camsync.cc:457-488 | It is the only such moment, but for a camera exactly half a day out |
| Civil.AlignedValueOnDate | src/camsync.cc:457-488 | The code's wrap and date arithmetic compute that moment |
| Civil.RtcRoundTrip | src/bmd.cc:136-207 | A valid moment sent to a camera is decoded as sent exactly for the years 2000 to 2099 |
| BoxMsg.UnescapeEscape | src/escape.cc:17-52 | Unescaping an escaped value gives it back without its NULs |
| BoxMsg.DecodeEncode | src/boxmsg.cc:136-188 | Decoding an encoded message: nothing if its verb is not bare, else its fields with bare keys, values without NULs |
| BoxMsg.RoundTripExactly | src/boxmsg.cc:136-188 | A message comes back as it was exactly when verb and keys are bare and values hold no NUL |
| BoxMsg.FeedSplit | src/boxmsg.cc:190-219 | How bytes are split into reads changes neither the lines nor what is kept |
| BoxMsg.FeedBounded | src/boxmsg.cc:190-219 | The line buffer never holds more than 4096 bytes |
| BoxMsg.FeedLines | src/boxmsg.cc:190-219 | A stream of lines is read as exactly those that are not too long, each too long one losing only itself |
| BoxMsg.MessagesArrive | src/boxmsg.cc:136-219 | Messages with bare tokens and short encodings, written one after another and read in any pieces, arrive as the same list |
| BoxMsg.LineReader.FeedBytes | src/boxmsg.cc:190-219 | The reader's loop does what the specification of feed says |
| BoxMsg.EncodeLoop | src/boxmsg.cc:136-147 | The encoding loop builds the encoding |
| BoxMsg.DecodeLoop | src/boxmsg.cc:149-188 | The decoding loops compute the decoding |
| BoxMsg.EscapeLoop | src/escape.cc:17-34 | The escaping loop builds the escape |
| BoxMsg.UnescapeLoop | src/escape.cc:36-52 | The unescaping loop, with its skipping index, computes the unescape |
| LogScan.JsonRoundTrip | src/logscan.cc:121-160 | Unquoting a quoted string gives it back, whatever bytes it holds |
| LogScan.EscapeLoop | src/jsonlog.cc:21-42 | The escaping loop builds the escape |
| LogScan.ScanPrinted | src/logscan.cc:80-117 | A printed flat object is scanned as exactly its members, whatever its strings hold and whatever follows |
| LogScan.ParsePrinted | src/logscan.cc:206-214 | So a printed line parses to exactly its fields |
| LogScan.TornIsRejected | src/logscan.cc:80-117 | No strict prefix of a printed object is accepted |
| LogScan.MergedLineIsMisread | src/logscan.cc:71-77 | A line appended to one torn in a bare token is accepted: the token swallows its first member and its others replace the torn line's |
| LogScan.Scanner.ReadValue | src/logscan.cc:22-78 | The cursor's loops over one value do what its specification says |
| LogScan.Scanner.ReadRecord | src/logscan.cc:206-214 | The whole scanner, one cursor moved in loops, computes the record |
| CamLines.ReadShow | src/logscan.cc:184-196 | A number printed on its grid is read back as itself |
| CamLines.PrintedBack | src/camdb.cc:70-106 | A line of printed fields is one line and parses back field for field |
| CamLog.CameraBack | src/camdb.cc:133-153 | A camera line read back says everything printed, keeps what it does not mention, and leaves the samples |
| CamLog.SampleBack | src/camdb.cc:154-176 | A write line read back is the very sample |
| CamLog.LineReplays | src/camdb.cc:110-177 | A line replayed does to the map what its entry means |
| CamLog.ReplayLoop | src/camdb.cc:110-177 | The loop over a file's lines computes the replay |
| CamLog.AppendReplays | src/camdb.cc:219-231 | An entry appended to whole lines is one more step of the replay |
| CamLog.TornCostsOne | src/camdb.cc:121-126 | A last line cut short costs that line and nothing else |
| CamTorn.TornWriteMisleads | src/camdb.cc:219-231 | A camera line appended to a write line torn behind its latency is lost, and its body is given a write another body made |
| CamCut.SafeExactlyWhenWhole | src/camdb.cc:219-231 | Behind whole lines and the first n bytes of another, every append means what it says exactly when n is 0 |
| CamDb.SayingAgrees | src/camdb.cc:321-334 | Straight after its camera line a body is replayed exactly as it is in memory |
| CamDb.WritingAgrees | src/camdb.cc:336-357 | A recorded write keeps the replayed samples equal to those in memory; its line says nothing of the counters |
| CamDb.WritingCounts | src/camdb.cc:336-357 | The replayed write count is behind by exactly the writes since the body's last camera line |
| CamDb.CamStore.Append | src/camdb.cc:219-231 | Appends the line; the file is then below the floor, below the factor times what it is worth, or freshly compacted, and the ledger of bytes rewritten is paid for |
| CamDb.CompactionPays | src/camdb.cc:244-252 | (f - 1) times the bytes compactions were worth, plus the file, is at most the start, what was appended and the markers' excess over 64 bytes |
| CamDb.CamStore.Compact | src/camdb.cc:262-319 | Straight after it the replay is the whole map in memory, in whatever order the bodies were written |
| CamDb.CamStore.NoteSeen | src/camdb.cc:321-334 | Memory moves as said and the body's replay equals it |
| CamDb.CamStore.RecordWrite | src/camdb.cc:336-357 | Memory moves as said, the window keeping the newest samples; memory and file still fit |
| CamDb.CamStore.Learn | src/camdb.cc:359-386 | Memory alone moves, by the thresholds of each parameter, and the result tells whether it did |
| CamDb.CamStore.RecordParams | src/camdb.cc:388-393 | A known body's replay becomes what is in memory |
| CamDb.CamStore.Forget | src/camdb.cc:254-260 | The body is gone from memory and from the replay, and no other is touched |
| CamDb.CamStore.constructor | src/camdb.cc:190-212 | Opening replays whatever the file holds, within the window; it is ready for appending when its last line is ended |
| CamConf.SetRefines | src/camconf.cc:440-501 | For a plain id, parsing the edited lines gives the old parse with one flag (and name) of the first such device changed, or the device added |
| CamConf.SetTouchesOne | src/camconf.cc:440-501 | Every line but the first naming the device is byte for byte what it was |
| CamConf.FirstNamingIs | src/camconf.cc:440-461 | The line an edit rewrites is the first that names the device, and none before it does |
| CamConf.OnlyPlainIds | src/camconf.cc:493-498 | An added line names its device exactly when the id is not empty and holds no space and no equals sign |
| CamConf.ForgetRefines | src/camconf.cc:409-438 | Parsing the lines left gives the old parse without the device |
| CamConf.EditAnswers | src/camconf.cc:278-320 | An edit changes the one answer asked for and no answer about another device or kind |
| CamConf.WarnIsSet | src/camconf.cc:306-312 | The warning asked for is the warning given when the id is not in the other list |
| CamConf.WarnIsShadowed | src/camconf.cc:306-312 | If a camera has the id too, a box's warning is heard exactly when the camera's is the same |
| CamConf.ForgetAnswers | src/camconf.cc:278-320 | A forgotten device answers as one never named, every other as before |
| CamConf.SetsCommute | src/camconf.cc:470-490 | Edits of different flags or devices give the same answers in either order |
| CamConf.CommentsSayNothing | src/camconf.cc:364-384 | The header of a new file changes no answer |
| CamConf.CamConfig.Load | src/camconf.cc:128-276 | Loading succeeds exactly when the lines parse, and then holds their parse |
| CamConf.CamConfig.SetFlag | src/camconf.cc:440-501 | The file becomes the edited lines, under the header if there was none, and is read again |
| CamConf.CamConfig.ForgetDevice | src/camconf.cc:409-438 | The file loses exactly the lines naming the device and is read again if any was; a missing file stays missing |
| CamConf.RebuildLoop | src/camconf.cc:462-490 | The loop over a line's words builds the rewritten line |
| CamConf.TrimLoop | src/camconf.cc:49-54 | The trimming loops compute the trim |
| CamConf.LabelLoop | src/camconf.cc:111-118 | The label loop computes the safe label |
| Loop.NeverAfterCancel | src/loop.cc:64-72 | Over every run, whatever handlers do: no timer fires after it was cancelled, and a one-shot fires once at most |
| Loop.TickOrder | src/loop.cc:148-216 | A tick fires timers due when its sources were handled, in (deadline, creation) order, none twice, none armed since; one due that did not fire was cancelled |
| Loop.DueExact | src/loop.cc:151-171 | The snapshot is exactly the live timers due, each once, sorted |
| Loop.RepeatsOnGrid | src/loop.cc:193-214 | A repeating timer that fired is cancelled or armed for the first point of its grid behind the end of its handler |
| Loop.NextIsLeast | src/loop.cc:204-211 | That point is on the grid, later than the handler's end, and the one before it is not |
| Loop.EventLoop.TickOnce | src/loop.cc:105-216 | The loop over the due snapshot does what the specification of a tick says |
| Loop.EventLoop.CancelById | src/loop.cc:64-72 | Marks every timer with the id, and sweeps at once only outside a dispatch |
| Loop.EventLoop.ArmEvery | src/loop.cc:56-62 | Arms one timer, repeating, and changes no other |
| Loop.NextExactly | src/loop.cc:74-81 | The search finds the least live deadline exactly when none is negative or the last live one is the least |
| Loop.EventLoop.NextDeadline | src/loop.cc:74-81 | The search loop computes the specified deadline, with a negative number for having found none |

## Left out

Contracts that say less than the code does, or of less:

- SharedLink.Possible: one connection attempt at a time, and its outcome only after the command that creates it was answered, as section 7.8.12 of Vol 4, Part E of the Bluetooth Core Specification has a Command Status come before the LE Connection Complete event; the connect timer, too, is armed only by that answer.
- SharedLink.Accepts: the controller refuses new scan parameters while it scans (section 7.8.10 of Vol 4, Part E); refusals for other reasons are events of their own.
- SharedLink.Step: what a completion calls in reply is an event that follows, so the order of answers among nested calls is not captured; the field applied_scanning_ is only ever written and is not modelled.
- SharedRadio.Arbiter: one field holds the whole state of link, shared radio and controller; aliasing between the users' handles is not captured.
- HciLink.Link: one datatype field holds all that the link remembers; which attribute a timer or an answer belongs to is captured, the addresses of objects are not.
- HciLink.Link.ProgramTurn: a handler for unsolicited events that calls back into the link is a turn of the program before or after the event it was called for.
- HciLink.Link.PumpAtt: whether fragments can be queued for sending is an arbitrary outcome here; AclLink models what decides it.
- HciLink.Link.TimerFires: the order in which due timers fire is Loop's; here any armed timer may fire at any time.
- AclLink.AclSender.WriteCommand: commands of fewer than 256 parameter bytes, which all that the program issues are; Hci.CommandIsWhole says what a longer one would be.
- AttServer.Server.HandleRequest: values computed by a read function are stored values here, a write calls nothing back, and every attribute is readable without encryption.
- AttBuilder.CharKeeps: says nothing of a characteristic whose UUID is itself that of a declaration; the builder accepts one and the client then takes its value for a declaration.
- AttCamera.Meet: tables below 0xffff - 4 attributes; beyond that the builder's 16-bit handles wrap.
- Discovery.Camera.Acquire: the retry of a refused configuration write after encryption is not modelled.
- CamSync.BoundHoldsOverRuns: a clock of constant rate between the restarts that are noticed, read to within a frame; numbers are exact reals, not doubles.
- CamSync.NeverVerified: noise under half a second, as half a second or more also changes the whole seconds the controller thinks are missing.
- Civil.AlignedValueOnDate: exact reals, where the source rounds doubles.
- CamLines.ReadShow: numbers on the grid the file is printed on; exponents, digits beyond the grid, values too large for a double and a uint64 read from a negative number are not captured.
- LogScan.ScanPrinted: objects printed by the program itself; TornIsRejected, MergedLineIsMisread and CamCut are about others.
- CamDb.CamStore: writing, syncing and renaming files always succeed; the id is the key and not also a field of the record.
- CamConf.CamConfig: a file that can be read and written, held as lines of bytes; missing directories and I/O errors are not captured.
- Loop.EventLoop.TickOnce: timer ids do not wrap at 32 bits; what became readable is a list of calls the handlers make.
- BoxMsg.MessagesArrive: messages whose encoding fits a line; FeedLines says what becomes of longer ones.

Parts of the program that are not part of this model:

- Ports, sockets, files, clocks and randomness; their results are parameters.
- The loop's file-descriptor sources, the choice of poll back end, stop(), and ticks within ticks.
- Security Manager pairing, encryption keys and the cryptography (src/smp.cc, src/pairing.cc, src/crypto.cc).
- Advertising, and parsing advertising data.
- The Blackmagic camera control packets beside the clock and date, and their streaming parser.
- Naming and numbering of devices, terminal and JSON rendering, the control protocol's verbs, and the bench.
- The typed accessors of a message (get_* and set_*), which only convert single values.
