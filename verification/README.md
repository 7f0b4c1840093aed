# wifi-cursor: the cursor-ownership protocol, verified

wifi-cursor lets one cursor roam over the screens of several devices. There is no coordinator: each
device keeps its own member table, connections, owner (`activeID`) and version counter
(`activeVersion`), and an engine flag (`amActive`) that says whether it shows the cursor. Devices
exchange hand-offs, ownership announcements, gossiped member lists, jump requests and goodbyes; when
the owner dies, the survivors elect a new one without a vote. This project models that protocol and
the components beside it, and proves what they keep over whole runs.

`dafny verify dfyconfig.toml` checks everything.

## How the model is built

**The device.** `device.dfy` has the classes `Pool` and `Engine`, whose methods update the same
fields as the source, loop as it does and append what they send to `wire`. Each method is proved to
compute a function of module `Node` (`node.dfy`), which describes the same step on one device as a
value, and its contract says what that is in terms of the fields and the packets written.

**The pool.** `cluster.dfy` lets any number of such values exchange packets: one step is one
dispatched packet, one public call or one tick of a background loop. Packets are reordered at will
and, except hand-offs, lost; devices crash, leave, lose connections and come back by gossip. A run is
any sequence of enabled steps from a pool as its founder creates it.

**The theorems about runs.** `ownership.dfy` threads a log of owners through a run; entry `v - 1` is
the device version `v` names, and every past owner has moved beyond the version it owned.
`onecursor.dfy`, `failover.dfy`, `gossip.dfy`, `mesh.dfy` and `cooldown.dfy` draw the main results;
`requests.dfy` follows a request, a ping, a dial and a goodbye from one device to the other.
`hazards.dfy` gives runs, from the founding of a pool, that show why their hypotheses are there.

**Beside the pool.** `ring.dfy`, `lww.dfy`, `edge.dfy` with `crossing.dfy`, and `heartbeat.dfy` treat
the screen order, last-writer-wins, edge crossing and failure detection. `registry.dfy` and
`relay.dfy` are the two halves of the rendezvous server, as classes for their critical sections and a
transition system for their interleavings. `framing.dfy` is the wire format and its way through the
relay; `motion.dfy` with `late.dfy`, and `wheel.dfy`, are the two input kernels that carry state.

## Where the code and its promises part

- *Stale hand-offs are taken up.* A hand-off makes its target show the cursor even when its version
  was refused (internal/pool/pool.go:551-557). `OneCursorIff` therefore holds with a guard, visible
  to the receiver: not a refused hand-off while the receiver names another owner. In runs in which
  nobody dies or gives up on its owner the guard is exact: one cursor and agreement hold all along if
  and only if it and the next one do. `Hazards.StaleHandoffTwoCursors` is a run from the founding of a
  pool in which nothing else goes wrong, and which ends with two cursors.
- *A failed hand-off strands the owner field.* `SendFocusHandoff` rewrites `activeID` before it can
  fail, while the engine takes the cursor back (internal/pool/pool.go:841-850,
  internal/cursor/engine.go:194-198). This is the second guard; `Hazards.FailedHandoffTwoCursors` is a
  run that breaks it alone. A failed hand-off to oneself, which a jump request can cause, only raises
  the version and needs no guard.
- *A lost connection to a living owner elects a second one.* A device that gives up on the owner it
  names, by a read error or a time-out, elects another although the owner lives
  (internal/pool/pool.go:497-528). Losing any other connection does no harm to the one cursor. This
  is the third guard; `Hazards.GivingUpTwoCursors` is a run that breaks it alone, and
  `Hazards.GivingUpIff` says for a settled pool that giving up on a peer keeps one cursor exactly when
  the peer is not the owner.
- *Ties are not broken by owner.* The comment at internal/protocol/protocol.go:75-77 promises a
  tie-break by `ActiveID`; internal/pool/pool.go:643 refuses equal versions. The model follows the
  code, and `LastWriterWins.OrderFreeIff` says exactly when that makes the order of messages matter.
  In the runs of `OneOwnerPerVersion` it does not, because each version has one owner.
- *A death during a hand-off can double the cursor.* At any moment while the news of a hand-off is on
  its way, the death of its sender does so exactly when the hand-off did not go to the device the
  survivors elect and that device has not heard of it yet (`Hazards.DeathDuringHandoffIff`).
- *The failure detector spares six seconds, not five or seven.* It compares against 7 s but looks
  every 2 s, so the bound on answers that keeps a peer from being reaped is exactly 6 s
  (`Heartbeat.SparedIff`).
- *A push can overtake Registered.* The server writes Registered outside the pool's lock
  (cmd/rendezvous/main.go:196-203), so another handler's push may come first. It is then lost for
  good: the views are exact at every moment of a run if and only if no push gets ahead
  (`Registry.ViewsExactIff`), and `Registry.NewcomerIsMissed` is a run that goes wrong.
- *A third leg can panic the relay.* With at most two legs a token no session's channel is closed
  twice, and with three it can be (`Relay.ClosedTwiceIff`).
- *A leg can be paired too late.* A second leg that found the session before the first timed out
  pipes into a closed connection (`Relay.PairedTooLate`); two legs meet exactly when neither timed out
  (`Relay.TwoLegsMeetIff`).
- *Recentring needs its echo.* The comment at internal/input/input_linux.go:73-79 leaves open whether
  the window system reports the program's own warps. With reports that may be late it matters:
  forwarding is free of false jumps exactly when warps are reported and reports are less than the
  grace window late (`LateReports.NeverJumpsIff`).

## Model

| member | source | states |
|---|---|---|
| OneCursor.OneCursorIff | internal/pool/pool.go:532-572 | in every run in which nobody dies and nobody gives up on the device it names as owner, at every moment at most one engine shows the cursor, it is its own pool's owner at the highest version anywhere, and running engines agree with their pools, if and only if no hand-off is delivered stale and none is stranded |
| OneCursor.OneOwnerPerVersion | internal/pool/pool.go:640-650 | over such a run, if safe, one log of owners explains every device and every message in flight, no device steps back on it, and the owner of the highest version has the cursor or its hand-off is still in flight, so the cursor is never lost |
| OneCursor.PassiveHotkeyOnlyAsks | internal/pool/pool.go:862-875 | at the end of such a run a hotkey on a device without the cursor changes nothing there and at most asks the owner, so the direct hand-off in RequestJump is unreachable from it |
| OneCursor.UnsafeDisagrees | internal/cursor/engine.go:194-216 | a stale or stranded hand-off always leaves its device with an engine and a pool that disagree |
| Ownership.StepKeepsOwned | internal/pool/pool.go:628-676 | every safe step that elects, if anyone, the heir of a dead owner keeps the log, the agreement of engines and pools, the retirement of past owners and the succession to a dead one; versions never fall and the log grows by at most one owner |
| Ownership.NewVersionOrigin | internal/pool/pool.go:655-676 | a version nobody knew is made only by the device showing the cursor handing it off, or by electing an heir to the last owner |
| Cluster.RealStep | internal/pool/pool.go:574-595 | no step makes anybody list, dial, connect to or write to a device that does not exist, and the connected stay among the members |
| Failover.FailoverIff | internal/pool/pool.go:511-528 | over a whole run in which any number of devices die one after the other, each in a pool that has settled among the survivors or whose owner is handing off to its own heir: in whatever order survivors notice, elect, gossip and hand off, one cursor and agreement hold at every moment if and only if the same two guards do |
| Failover.FailoverConverges | internal/pool/pool.go:652-676 | after the death of the owner in such a run, until the next hand-off, each survivor is with the dead owner or with the lowest survivor one version on, gossip bringing the dead back included; whoever has noticed, or has only been told of that version in whatever message, is with the heir, and once all are the heir alone shows the cursor |
| Failover.ElectionIsAnnounced | internal/pool/pool.go:655-688 | giving up on the owner one names puts an announcement of the lowest remaining member, at the next version, in flight to every remaining connection |
| Failover.AnnouncementConverges | internal/pool/pool.go:655-688 | in those runs one survivor's notice is enough: its announcement of the heir is in flight to every survivor it is connected to, and once delivered they are all with the heir, without having noticed anything themselves |
| Requests.JumpIsPerformed | internal/pool/pool.go:862-875 | a hotkey on a device without the cursor sends one packet, to the owner; its delivery to an owner that shows the cursor puts a hand-off in flight to the device at the hotkey's ring position, which the owner then names at the next version |
| Requests.JumpToNobody | internal/pool/pool.go:870-872 | with the owner unreachable, or the send failing, the hotkey of such a device sends nothing and changes nothing |
| Requests.PingIsAnswered | internal/pool/pool.go:532-537 | a heartbeat puts a ping in flight to every connected peer, and a peer connected back answers each |
| Requests.DialConnects | internal/pool/pool.go:398-484 | when the maintenance loop finds a member that is neither connected nor being dialled, the dial and its two answers connect both devices to each other |
| Requests.FailedDialIsRepeated | internal/pool/pool.go:608-626 | the maintenance loop does not repeat a dial under way, and does repeat one that has failed |
| Requests.GoodbyeIsHeard | internal/pool/pool.go:330-343 | who leaves is forgotten by every device it is connected to when its goodbye arrives; a device that named it the owner then names the lowest of the others at the next version, any other keeps its owner |
| Hazards.DeathDuringHandoffIff | internal/pool/pool.go:652-676 | the owner hands off and dies at any moment while the news is on its way: every safe run that can follow keeps one cursor if and only if the hand-off went to the device that would be elected, or that device has heard of it |
| Hazards.HandingBegins | internal/pool/pool.go:840-857 | a hand-off just begun in a settled pool is such a moment, at which the heir has not heard |
| Hazards.GivingUpIff | internal/pool/pool.go:497-528 | a device of a settled pool whose owner's engine runs gives up on a living peer: every safe run that can follow, in which nobody gives up on its owner, keeps one cursor if and only if the peer is not the owner |
| Hazards.GivingUpTwoCursors | internal/pool/pool.go:497-528 | any two devices have a run from the founding of their pool, with every hand-off in time and every send successful, that ends with two cursors when the follower gives up on the owner |
| Hazards.StaleHandoffTwoCursors | internal/pool/pool.go:551-557 | any three devices have a run from the founding of their pool, without deaths, lost connections, losses, failed sends or stranded hand-offs, that ends with two cursors when gossip overtakes a hand-off |
| Hazards.FailedHandoffTwoCursors | internal/pool/pool.go:841-850 | any two devices have a run from the founding of their pool, without deaths, lost connections or stale deliveries, that ends with two cursors when one hand-off fails and gossip spreads the rewritten owner |
| Hazards.SettledIsReachable | internal/pool/pool.go:366-486 | any three devices reach a settled pool by a safe run in which nobody dies or gives up on anyone |
| Hazards.SecondDeathIsReachable | internal/pool/pool.go:511-528 | any three devices have a safe run in which the founder dies, the others notice and forget it, and the pool is ready for the death of the owner they elected |
| Gossip.RunGrows | internal/pool/pool.go:574-595 | over a run in which nobody dies or is given up on member and connection sets only grow, and hold real devices only |
| Gossip.GossipConverges | internal/pool/pool.go:690-725 | over such runs, after r full gossip rounds each device knows all within r connections, and after one round less than there are devices, over a connected graph, each knows exactly the existing devices |
| Mesh.MeshTieBreak | internal/pool/pool.go:597-626 | when nobody dies or is given up on, and without the maintenance loop, each unordered pair dials at most once, a handshake never displaces a registered connection, and each connection belongs to exactly one dial |
| Cooldown.EngineCoolsDown | internal/cursor/engine.go:111-138 | in any run whatever, edge-triggered attempts of one engine are at least 400 ms apart |
| Cooldown.PoolCoolsDown | internal/cursor/engine.go:17-22 | in a safe run in which nobody dies or gives up on its owner this holds across the whole pool: k edge attempts take at least (k - 1) times 400 ms |
| LastWriterWins.EndsAtMaximum | internal/pool/pool.go:640-650 | with one owner per version, any delivery of claims leaves a device at the highest version among its own and theirs, version 0 included, and changes nothing else |
| LastWriterWins.OrderIndependent | internal/protocol/protocol.go:73-79 | two deliveries of the same claims, in any order and with any repetition, end alike |
| LastWriterWins.OrderFreeIff | internal/pool/pool.go:643-645 | without that assumption, every order of any list of claims ends alike exactly when no two of them name different owners at the highest version, where it is still acceptable |
| LastWriterWins.SwapIff | internal/pool/pool.go:643-645 | two claims may be swapped exactly when they do not name different owners for one version still acceptable |
| Ids.RingUnique | internal/pool/pool.go:796-807 | a member set has one ascending listing, so devices with equal members have equal rings |
| Ids.SortedIsRing | internal/pool/pool.go:801-805 | sorting any listing of the members, in whatever order the map yields them, gives that ring |
| Ids.LessIff | internal/pool/pool.go:805 | one ID sorts before another exactly when it is a proper prefix of it or has the smaller character where they first differ |
| ScreenRing.NeighborsInvert | internal/cursor/engine.go:140-162 | with two or more members, the right and left neighbours are members, never the device itself, and undo each other |
| ScreenRing.NeighborIsNext | internal/cursor/engine.go:140-162 | the right neighbour is the next ID in ascending order, the lowest after the highest, and each device is so placed to its left neighbour |
| ScreenRing.WalkIsOneCycle | internal/cursor/engine.go:140-162 | n steps to the right visit all n screens once each and return |
| Edge.EntryIsSafeIff | internal/cursor/engine.go:218-228 | every side and ratio enters on screen and off both trigger columns exactly on screens at least 3 wide and 2 high |
| Edge.EntersBesideTheEdge | internal/cursor/engine.go:218-228 | entering by the left edge is at column 1 and by the right edge at column w - 2, one step short of that edge's trigger column; without an edge at the centre |
| Edge.LeavesAtItsHeight | internal/cursor/engine.go:132-137 | the ratio a cursor leaves with is its row over the height less one, clamped for rows reported off the screen |
| Crossing.OffTheRight | internal/cursor/engine.go:111-162 | at or beyond the last column the cursor goes to the next device in ID order and enters it at column 1; one step back out, its left neighbour is the sender |
| Crossing.OffTheLeft | internal/cursor/engine.go:111-162 | at or before the first column it goes to the device before this one in ID order and enters it at column w - 2; one step back out, its right neighbour is the sender |
| Edge.CrossScales | internal/cursor/engine.go:132-137 | leaving at row y and entering scales the row by the heights less one, rounded down |
| Edge.CrossMonotone | internal/cursor/engine.go:218-219 | crossing keeps the order of rows |
| Edge.CrossExact | internal/cursor/engine.go:218-219 | crossing between screens of equal height keeps the row |
| Edge.ThereAndBack | internal/cursor/engine.go:218-219 | there and back never gains a row, and loses at most one when the other screen is at least as tall |
| Heartbeat.SparedIff | internal/pool/pool.go:727-757 | no run reaps a peer whose pings are answered within a bound, exactly when the bound is under 6 s |
| Heartbeat.SilentIsReaped | internal/pool/pool.go:739-754 | a peer silent since t, when it was last heard or registered, is reaped at a tick in (t + 7 s, t + 9 s], and by no tick from t to t + 7 s |
| Heartbeat.TickReaps | internal/pool/pool.go:739-746 | what a device has noted when last hearing a peer is the latest sign of life in the run, and a tick reaps the peer exactly when that is more than 7000 ms old, which is when Device.Pool.HeartbeatTick lists it |
| Device.Pool.SendAll | internal/pool/pool.go:678-688 | writes the message exactly once to every connected peer and to nobody else |
| Device.Pool.BroadcastGossip | internal/pool/pool.go:699-710 | writes each connected peer one snapshot of the members, owner and version as they are |
| Device.Pool.AdoptActiveBookkeeping | internal/pool/pool.go:640-650 | owner and version are replaced exactly when there was no version or the new one is higher; a change is reported when then the owner is another |
| Device.Pool.AdoptActive | internal/pool/pool.go:628-632 | the same for owner and version, and the engine shows the cursor or not as the new owner says, untouched when the owner stays |
| Device.Pool.MemberRing | internal/pool/pool.go:798-807 | returns the ascending listing of the members |
| Device.Pool.ElectActive | internal/pool/pool.go:655-688 | the member before which no other sorts owns the next version, the engine follows, and exactly one ActiveChange saying so is written to every connected peer; a device without members does nothing |
| Device.Pool.DropPeer | internal/pool/pool.go:511-528 | forgets exactly this peer in members, connections and signs of life; elects as above if it was the owner, otherwise owner, version and wire stay |
| Device.Pool.ForceDialPeer | internal/pool/pool.go:608-626 | one Hello to a peer neither connected nor being dialled, which then is being dialled; nothing otherwise |
| Device.Pool.MaybeDial | internal/pool/pool.go:601-606 | dials exactly the new peers that sort after this device |
| Device.Pool.TakeIn | internal/pool/pool.go:574-587 | takes the list over the old records, later entries winning and itself excepted, and returns without repetition exactly who was new |
| Device.LastEntryWins | internal/pool/pool.go:574-587 | after a merge the record of a listed device is that of its last entry, and this device and the unlisted keep theirs |
| Device.Pool.DialNew | internal/pool/pool.go:592-594 | dials once exactly the newcomers that sort after this device and are not connected or being dialled |
| Device.Pool.MergeMembers | internal/pool/pool.go:574-595 | records are overlaid, and exactly one Hello goes to each listed device that was no member, sorts after this one, and is neither connected nor being dialled |
| Device.Pool.HeartbeatTick | internal/pool/pool.go:735-754 | gives up on p exactly when p was last heard more than 7000 ms ago; members, connections and signs of life lose exactly those, the owner changes only if it is among them and then to the lowest member left; written are one ping to every peer connected at the start and the announcements of the elections that follow, nothing else |
| Device.Pool.GiveUpOn | internal/pool/pool.go:752-754 | the state, the records and the packets of dropping the peers in order |
| Device.DropAllLeaves | internal/pool/pool.go:752-754 | in whatever order peers are given up on, exactly the others stay, and if the owner was among them the lowest member left owns the cursor at a higher version |
| Device.Pool.FindStale | internal/pool/pool.go:740-746 | lists p, once, exactly when p was last heard more than 7000 ms ago |
| Device.Pool.MaintainMesh | internal/pool/pool.go:762-786 | dials once exactly the other members that are neither connected nor being dialled |
| Device.Pool.FindMissing | internal/pool/pool.go:770-779 | lists without repetition exactly the other members without a connection |
| Device.Pool.Leave | internal/pool/pool.go:330-343 | says goodbye exactly once to everyone connected |
| Device.Pool.SendFocusHandoff | internal/pool/pool.go:840-857 | owner and version change even when it fails; it fails exactly when the target is not connected or the write fails, writing nothing; otherwise the hand-off goes to the target and one ActiveChange to every connected peer |
| Device.Pool.RequestJump | internal/pool/pool.go:862-875 | an owner hands off to the target, owner and version rewritten; any other device writes exactly one RequestJump naming the target to the owner it names, or fails without effect when that one is unreachable |
| Device.Pool.HandleAccept | internal/pool/pool.go:462-484 | the newcomer is registered as just heard, written one snapshot that includes it, and gossiped once to every connection, owner and version untouched |
| Device.Pool.CompleteHandshake | internal/pool/pool.go:398-421 | the peer is connected, just heard, no longer being dialled, and its record and the listed ones replace older ones; a newer owner is adopted; newly dialled are exactly the listed newcomers that pass the tie-break |
| Device.Pool.Receive | internal/pool/pool.go:497-572 | per message: a ping is answered to its sender, a jump request hands off, a goodbye of the owner elects, owner and version of the three announcements are taken if newer, a hand-off to this device makes it show the cursor at the entry point carried, and every sender counts as just heard |
| Device.Engine.OnActiveChange | internal/cursor/engine.go:240-250 | the engine shows the cursor exactly if this device is the owner named, stamped when that is news, and the backend switches exactly with the flag |
| Device.Engine.OnFocusHandoff | internal/cursor/engine.go:203-228 | a hand-off to this device makes it show the cursor from now on, at column 1 for the left entry edge and w - 2 for the right, in the row of the ratio; any other does nothing |
| Device.Engine.PerformHandoff | internal/cursor/engine.go:184-199 | without the cursor nothing happens; with it the pool names the target one version on, and either hand-off and announcements are written and the cursor is gone, or the send failed, nothing is written and the cursor is back as of now |
| Device.Engine.OnRequestJump | internal/cursor/engine.go:252-260 | a device without the cursor ignores the request, the one with it hands off |
| Device.Engine.FindNeighbor | internal/cursor/engine.go:142-162 | returns the next ID in the order to the right, the one this device comes next to on the left, none for a lone or unlisted device |
| Device.Engine.CheckEdge | internal/cursor/engine.go:111-138 | attempts a crossing exactly when 400 ms have passed since the cursor came, x <= 0 or x >= w - 1, and there is a neighbour; from the left edge to the left neighbour with entry edge right, from the right to the right with entry edge left, with the row's ratio |
| Device.Engine.HandleHotkey | internal/cursor/engine.go:164-182 | a slot outside the ring or of this device does nothing; with the cursor the device at that ring position is handed it; without, a pool that names itself hands off and any other writes the owner one request naming that device |
| Device.Engine.Start | internal/cursor/engine.go:72-74 | the engine starts in agreement with its pool, and the backend passes the cursor through exactly while the engine shows it, which every method of pool and engine that moves the flag then keeps |
| Registry.ViewsExactIff | cmd/rendezvous/main.go:184-220 | however the handlers of a pool interleave, what each member has been told and is about to be told adds up to exactly the other members at every moment, if and only if no push gets ahead of its client's Registered |
| Registry.ViewIsExact | cmd/rendezvous/main.go:184-220 | in a run whose views are exact, a member with nothing pending has folded its events to exactly the other members, and two that were ever members together are introduced exactly once in each direction |
| Registry.EarlyPushBreaks | cmd/rendezvous/main.go:201-203 | the first push that gets ahead makes its client's view wrong at once, whether it tells of a newcomer or of one that left |
| Registry.NewcomerIsMissed | cmd/rendezvous/main.go:196-203 | any two clients have a run after which, with everything pushed, the first takes itself to be alone while both are members |
| Registry.PoolState.Register | cmd/rendezvous/main.go:184-196 | lists each present member and client once, then enters; simulates the Enter step of the interleavings |
| Registry.PoolState.Remove | cmd/rendezvous/main.go:207-214 | leaves, then lists each remaining client once; simulates the Quit step |
| Registry.ListAll | cmd/rendezvous/main.go:186-192 | ranging over a map names each key exactly once |
| Relay.ClosedTwiceIff | cmd/rendezvous/relay.go:72-103 | under all interleavings no session's channel is closed twice, exactly when no token has more than two legs |
| Relay.ClosesBelowLegs | cmd/rendezvous/relay.go:80-103 | a session is closed fewer times than its token has legs |
| Relay.ThirdLegClosesTwice | cmd/rendezvous/relay.go:72-103 | any three legs of one token have an interleaving that closes one session twice |
| Relay.PairsMatch | cmd/rendezvous/relay.go:80-106 | a leg that pairs is joined to exactly one other leg, one that waited and gave the same token |
| Relay.IdleTokenHasNoEntry | cmd/rendezvous/relay.go:72-102 | an entry in the table always belongs to a leg of its token that is still looking, waiting or about to pair |
| Relay.TwoLegsMeetIff | cmd/rendezvous/relay.go:72-106 | when neither of a token's two legs can go on, whatever other tokens' legs do: one pipes, it woke the other, and their session was closed once, if and only if neither has timed out |
| Relay.PairedTooLate | cmd/rendezvous/relay.go:80-106 | any two legs of a token have an interleaving in which the second pairs with a first that has timed out |
| Relay.RelayHub.Lookup | cmd/rendezvous/relay.go:72-78 | finds the token's session, or enters a fresh one |
| Relay.RelayHub.Claim | cmd/rendezvous/relay.go:80-99 | the first leg becomes the session's waiting one, later legs leave it alone; no other session and no entry changes |
| Relay.RelayHub.TimeOut | cmd/rendezvous/relay.go:87-93 | removes the entry only while it still leads to this session |
| Relay.RelayHub.Pair | cmd/rendezvous/relay.go:100-103 | the second leg removes its token's entry, whichever session that leads to, and closes the channel of the session it found, once more and no other's |
| Framing.DeliveredExactly | internal/protocol/protocol.go:113-145 | reading until the first error yields exactly the sendable envelopes that were sent, in order |
| Framing.DeliveredUpToTheBreak | internal/protocol/protocol.go:135-145 | a stream that breaks off anywhere yields exactly the envelopes whose lines it completed |
| Framing.RelayIsTransparent | cmd/rendezvous/relay.go:51-119 | however the stream is cut on either side of the relay, and wherever the connections of the two legs break, what gets through yields the other leg exactly the envelopes, of those sent after the join line, whose lines got through whole |
| Framing.ServeLeg | cmd/rendezvous/relay.go:51-119 | reads the token off the join line and passes on exactly the bytes after it, as many as the other connection takes; nothing for a stream that does not join |
| Framing.Encoder.Send | internal/protocol/protocol.go:113-126 | appends one line, nothing when the payload cannot be encoded, or what a breaking connection still takes of it, and succeeds exactly in the first case |
| Framing.Reader.ReadBytes | internal/protocol/protocol.go:135-139 | returns the first line of the remaining stream however it arrives in chunks, or all of it with a failure when it ends first |
| Framing.Decoder.Recv | internal/protocol/protocol.go:135-145 | returns the first line's envelope, an error for a broken line or an ended stream, and consumes that line |
| Framing.Decoder.ReadLoop | internal/pool/pool.go:497-509 | dispatches every message of the stream before its first error, in order |
| Framing.ReadJoin | cmd/rendezvous/relay.go:53-68 | takes the token off the first line and leaves the rest of the stream, buffered bytes included |
| Framing.PipeLeg | cmd/rendezvous/relay.go:109-119 | copies everything buffered and everything still to come, in order, up to where the other connection breaks |
| LateReports.NeverJumpsIff | internal/input/input_linux.go:73-80 | with reports up to some latency late, every run forwards, outside the grace windows, exactly the hand's own motion report by report, if and only if the program's warps are reported too and the latency is below 30 ms |
| LateReports.LateMotionIsConserved | internal/input/input_linux.go:174-206 | under that condition forwarded motion plus motion arriving in grace windows is the hand's whole motion while forwarding |
| Motion.MotionIsConserved | internal/input/input_linux.go:174-206 | with reports that arrive at once the same holds of any run of moves, echoes, warps and switches, warps while forwarding and missing echoes included |
| Motion.PassthroughAsAsked | internal/input/input_linux.go:174-257 | whatever went before: after a call that switches passthrough on, every report until the next call is emitted as the position the hand and the warps have led to since, the call having moved nothing; after one that switches it off only motion is emitted |
| Motion.RecentringsAreSpaced | internal/input/input_linux.go:195-206 | a report recentres no sooner than 30 ms after the recentring before it, whatever caused that |
| Motion.KeepsAwayIff | internal/input/input_linux.go:82-97 | every report outside a grace window leaves the cursor away from the edges, exactly when the screen is at least 200 by 200 |
| Motion.Backend.OnMove | internal/input/input_linux.go:174-206 | in passthrough the position is emitted; in a grace window only recorded; otherwise the difference to the last record is emitted unless zero, and within 100 pixels of an edge record and cursor go to the centre for a grace window of 30 ms |
| Motion.Backend.Recenter | internal/input/input_linux.go:200-206 | cursor and record at the centre, a grace window of 30 ms, nothing emitted, the mode kept |
| Motion.Backend.WarpTo | internal/input/input_linux.go:230-236 | cursor and record move together, nothing is emitted and no grace window opens |
| Motion.Backend.SetPassthrough | internal/input/input_linux.go:238-257 | the flag ends as asked; cursor, record and grace window stay unless forwarding is newly switched on, which recentres |
| Wheel.WheelIsConserved | internal/input/input_windows.go:441-447 | 120 times the notches sent plus the remainder is the sum of the deltas, the remainder under one notch |
| Wheel.NoOverflow | internal/input/input_windows.go:573-574 | every event sent fits and is scaled back in 32 bits to exactly 120 times its notches |
| Wheel.SessionIsFaithful | internal/input/input_windows.go:432-447 | what is injected over a session differs from what was scrolled by the change of the accumulator, less than two notches |
| Wheel.SteadyScroll | internal/input/input_windows.go:432-440 | a scroll in one direction sends the same notches however finely the device splits it |
| Wheel.WheelCapture.OnWheel | internal/input/input_windows.go:432-447 | the 32-bit accumulator computes Wheel.Captured without ever wrapping, and sends only whole notches |
| Wheel.DeltaIsUpperHalf | internal/input/input_windows.go:441 | the delta read is the signed 16-bit number in the upper half of the hook's data, whatever the lower half holds |

## Left out

- Sockets, dialling with its time-outs and address candidates, multicast discovery and the rendezvous client: a step delivers, loses or fails instead.
- Passwords, the Hello's pool ID and the rejections they cause: a refused handshake is a dial that fails.
- JSON and SHA-256: the codec is a pair of functions that round-trip and produce no newline; hashing is absent.
- Random identifiers and tokens: device IDs are distinct and not empty.
- getOrCreatePool, dropPoolIfEmpty and newPoolID: registry results are per pool object; the window in which an emptied pool is dropped under a new handler is not modelled, nor is a failing send of Registered.
- Joining through further contacts when the first fails, and the rendezvous server's pushes into the member table: Join dials one contact.
- Devices joining after a death, a death before the survivors have settled again and forgotten the one before, and giving up on the living after a death: the failover results do not cover them.
- Finer interleavings inside a device: a pool update with its engine call-back, a dropped connection with its election, the hotkey's two looks at who is active, and the acceptor's Hello with the snapshot after it (`Welcome`) are single steps.
- A broadcast that reaches some peers only: announcements may be lost one by one instead, hand-offs may not.
- Connections as objects: a device's connections are the peers they lead to, so two connections to one peer are one; `Mesh.MeshTieBreak` shows when there are never two.
- Member records in packets: packets carry IDs; `Device.Pool.MergeMembers` treats the records.
- Input events between devices and the entry edge and ratio inside the hand-off packet: no protocol step depends on them; `Device.Pool.Receive` takes them as parameters and `Device.Engine.CheckEdge` computes them.
- Floating-point rounding of the entry ratio: ratios are exact rationals.
- 64-bit wrap-around of the version counter: versions are unbounded.
- Motion.MotionIsConserved: takes reports to arrive before the cursor moves again, which `LateReports` does not.
- LateReports.NeverJumpsIff: a recentring happens at the instant of the report that causes it, the engine warps only while it shows the cursor, no report is dropped by a full channel, and coordinates are unbounded.
- Wheel.SessionIsFaithful: no wheel event is dropped on the way, and the inversion of the scroll direction is not applied.
- The relay's ten-second limit on the join line, and its twenty-second one as a number: time-outs may strike at any moment.
- Closing connections at the end of piping or after a time-out: only what is copied is modelled.
- The command line, hooks, cursor hiding, themes, raw input, installers and button conversions: nothing about them would be hard to prove.
