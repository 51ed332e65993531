# Verified model of the reverse tunnel and its neighbours

A Dafny model of the parts of OpenSpoke whose behaviour is hardest to see from the code, with
proofs of what they guarantee. `dafny verify dfyconfig.toml` checks all of it.

## What is modelled

**The reverse tunnel** (`Wire`, `Stream`, `Tunnel`, `SpokeSession`, `Ids`, with their proofs). Two
processes exchange frames over one ordered queue in each direction and multiplex any number of TCP
streams over it.
`Stream.Pipe` is one stream as a transition system: the program points of the hub's accept step,
upstream pump, downstream pump and receive loop, of the spoke's session loop and pump, the queues
between them, and the history of bytes read and written at both ends. `Tunnel.Session` is the real
thing: shared maps, shared queues, any number of streams, one atomic step of any task at a time.
A run is any interleaving. `View` looks at a session through one stream id, and `StepProjects` shows
that every session step is a step of that one stream or invisible to it; so what is proved of
`Pipe` holds for each stream of the multiplexed system. `SpokeSession` is the hub's object: its
critical sections are proved to be the system's atomic updates, and two methods run them in the
order in which the tasks do. Safety is in `TunnelTheorems` and `HalfClose`. `TunnelProgress` and
`TunnelLiveness` show that, while the TCP peers dial and take bytes, the tasks never block one
another and come to rest with everything delivered. `TunnelEcho` and `TunnelFailures` hold a run for
each way a connection can end.

**Proxied HTTP requests** (`HttpGate`, `HttpProxy`, `SharedProxyState`). Requests travel from the
spoke to the hub's kernel over any number of session drops and reconnects. Proxy handlers, the
session loop with its flush, and the hub's request handlers interleave freely, and any frame in
flight may be lost with its session. `HttpProgress` and `HttpLiveness` show what is answered when
nothing is lost, `HttpFailures` a run for each other ending.

**The session registry** (`Registry`, `RegistryProgress`). Connections of one spoke displace one
another while the registry lock is free between closing the old session and inserting the new one.

**Self-contained algorithms.** The `TUNNEL_SPOKES` parser (`Text`, `SpokesTable`, `SpokesMeaning`),
the concurrency peak (`Peak`), the streamed reply (`EventStream`), the grid index (`Grid`), the
image-tag rewriter and its write-back loop (`ManifestBump`, `ManifestWriteBack`). Each is a method
with the source's loops, proved equal to a specification about which the theorems are stated.

**Two reconciling stores.** The handoff store with its write policy and tag mirror (`HandoffTags`,
`HandoffStore`), and the Fleet credential sync (`FleetCredentials`).

## What the proofs found

Properties one might expect and that the code does not have. Each has a concrete counterexample,
in a lemma of its own or in the proof of its theorem, and a theorem that says, for all inputs or
all runs, exactly when the property does hold.

- `CloseStream` is documented as half-close or full close
  (`docs/concepts/reverse-tunnel.md:52`). It is never half: once a stream has left the hub's map,
  its connection receives exactly what the hub already held (`CloseIsNeverHalf`). The answer is
  complete if and only if all of it had passed the hub's receive loop by then and the target sent
  nothing more (`AnswerIsCompleteIff`). A client that shuts down its sending side loses whatever
  has not got that far when the hub takes the stream out; it can be the whole answer
  (`AnswerIsLost`).
- `streams_open` leaks when a session closes with streams in its map, and agrees with the maps
  exactly when no session did (`GaugeLaw`, `SpokeGaugeLaw`, `GaugeLeaks`).
- `connected` counts overwriting registrations twice and is exact precisely when there was none
  (`ConnectedLaw`, `DisplacedCountsTwice`). An open session is its spoke's registered one if and only if no displacer
  overwrote it while open (`OpenIsEntryIff`), which happens at exactly the steps `StraysGrowIff`
  names and takes three connections (`ThreeWayRace`).
- A build recorded as ending before it starts can hide a running one from the peak
  (`InversionHides`). The peak is the largest number of simultaneous builds if and only if some
  busiest instant lies inside no inverted interval (`PeakIsMaximumIff`).
- Grid cells 16384 rows and one column apart share a key (`SeenIffWrappedNear`, `FarCellsCollide`,
  `FarNodesCollide`). A node then meets one at least 16382 cell sizes away
  (`WrongMeetingsAreFar`), and the scan is right for every force exactly when no such pair is around
  (`SameMeetingsIff`). A cell is twice the spacing the nodes are laid out at, so only a graph
  far beyond any practical size shows it.
- An image reference without a colon is not what its two parts rejoin to (`SplitRejoins`); bumping
  absorbs an earlier tag exactly when that tag has no blank, tab or '#' (`AbsorbsIff`).
- The credential sync promises not to touch an existing Secret's username. It overwrites it when
  the password cannot be read, is empty or is no text (`UsernameKeptIff`), and the same `apply`
  prunes keys recorded as applied before (`OtherKeysKeptIff`); one failed read is enough
  (`FailedReadOverwrites`).
- A dry run of the sync predicts the real run in every cluster if and only if the table lists no
  Secret twice (`DryRunPredictsIff`, `RepeatedTargetMispredicts`); a sync without failures leaves
  every row satisfied if and only if rows for one Secret agree on the token (`ConvergesIff`,
  `DisagreeingRowsPart`).
- The tag list and the HAS_TAG edges part when the second statement of a tag update is lost. A
  topic's tags mirror its edges if and only if its last tag update did not lose it (`MirrorsIff`,
  `LostLinksPart`).
- The write policy is kept by every run exactly unless it is switched off with a readable cutoff
  (`PolicyAlwaysIff`).

Where documentation and code differ, the model follows the code: the spoke kind is read off the id
prefix and no `spoke_clusters` record is consulted; the allowlist is the one in
`hub/images/tunnel-server/src/main.rs:198-227` and is compared with path and query together; a
refused path is answered with status 403 and an error text, not with status 0; a JSON `null`
payload ends the streamed reply as an interruption.

## Model

| member | source | states |
|---|---|---|
| TunnelTheorems.PrefixFaithful | hub/images/tunnel-server/src/main.rs:635-747 | In every reachable state of every interleaving, each direction of each stream has delivered a prefix of the bytes read at its other end |
| TunnelTheorems.RefinesChannels | hub/images/tunnel-server/src/main.rs:749-825 | Every step extends the input or the output of a stream's byte pipes and changes the history of at most one stream: the multiplexed session refines independent channels |
| TunnelTheorems.LosslessDrain | spoke/images/tunnel-client/src/main.rs:301-316 | A spoke pump that leaves because its channel closed has written exactly what the hub read up to end of file; a hub writer that drained after the spoke's Close has written exactly what the target sent |
| TunnelProgress.MapsAreExact | spoke/images/tunnel-client/src/main.rs:606-636 | In every state of every run the spoke's map holds a stream exactly from its Open until its pump leaves or the hub's Close is handled; the hub's map holds it from the registration until one of five causes that the tasks' own progress shows; and on a link that is up no task keeps quiet about an end of file |
| TunnelProgress.RestIsDelivered | spoke/images/tunnel-client/src/main.rs:301-323 | When, on a link that is up and with peers that dial and take bytes, no task can do anything more by itself, every stream has settled: all that was read at one end is written at the other if that is still there, and every end of file has ended the other side; in particular the tasks never wait for one another |
| TunnelLiveness.EverythingArrives | hub/images/tunnel-server/src/main.rs:677-747 | Left to themselves on a link that is up, with peers that dial and take bytes, the tasks stop after at most as many steps as their work measures, in whatever order they take them, and then everything read before has arrived |
| TunnelLiveness.CanComeToRest | hub/images/tunnel-server/src/main.rs:677-747 | Every run can be continued by the tasks' own steps to a state in which they have stopped |
| StreamProgress.QuietIsSettled | spoke/images/tunnel-client/src/main.rs:301-323 | For one stream: at rest means settled, in both directions |
| TunnelProgress.ClientMayDoAnything | hub/images/tunnel-server/src/main.rs:683-740 | Whenever a hub task waits for the client, any chunk of up to 32 KiB, an end of file, a failure, and a write cut off anywhere are possible |
| TunnelProgress.TargetMayDoAnything | spoke/images/tunnel-client/src/main.rs:252-318 | So is any behaviour of the target, the dialing included |
| TunnelProgress.LinkMayFail | hub/images/tunnel-server/src/main.rs:749-770 | The link, the receive loops and the session may end, and connections come, at any time |
| TunnelProgress.OtherFramesQueue | spoke/images/tunnel-client/src/main.rs:638-640 | Frames of other kinds may be queued at any time and take their place in the order |
| TunnelProgress.BlocksOnFullChannel | spoke/images/tunnel-client/src/main.rs:609-626 | A receive loop waits on a stream exactly while its 64-payload channel is full and somebody is there to empty it |
| TunnelTheorems.AnyStart | hub/images/tunnel-server/src/main.rs:599-625 | A session may start after any number of connections accepted before it |
| TunnelEcho.EchoRun | hub/images/tunnel-server/src/main.rs:635-747 | For every request and answer there is a run in which the request reaches the target and the answer the client, after which both maps are empty, the gauge is back at zero and all tasks have ended |
| TunnelEcho.RequestRun | spoke/images/tunnel-client/src/main.rs:310-323 | For every request there is a run in which the client sends it and ends, the target gets all of it, and the pump then leaves because its channel closed |
| TunnelFailures.ClientCutsOff | hub/images/tunnel-server/src/main.rs:735-743 | A run in which the client gets any chosen first part of a chunk before its connection fails, and the next payload evicts the stream |
| TunnelFailures.TargetCutsOff | spoke/images/tunnel-client/src/main.rs:301-318 | A run in which the target gets any chosen first part of a chunk before it fails, and the pump ends |
| TunnelFailures.NoTarget | spoke/images/tunnel-client/src/main.rs:585-604 | A run each in which the target is unknown or cannot be dialed: one full Close goes back, and map and gauge are as before |
| TunnelFailures.OpenNotSent | hub/images/tunnel-server/src/main.rs:645-666 | A run in which the Open cannot be sent: the accept is rolled back and leaves nothing in map and gauge |
| TunnelFailures.ChunkNotSent | hub/images/tunnel-server/src/main.rs:708-729 | A run in which a chunk cannot be sent: the upstream task ends and takes the stream out |
| TunnelFailures.AnswerNotSent | spoke/images/tunnel-client/src/main.rs:276-300 | A run in which the target's chunk cannot be sent: the pump ends and takes the stream out |
| TunnelTheorems.FrameGrammar | spoke/images/tunnel-client/src/main.rs:578-637 | Hub frames of an id form Open Data* Close?, spoke frames Data* Close? after that Open, and the spoke sees any other frame only once it has handled the Open |
| TunnelTheorems.GaugeLaw | hub/images/tunnel-server/src/main.rs:337-342 | One session's contribution to the gauge plus pending increments equals its entries plus those dropped by closing it; it equals the entries exactly when none was dropped, in particular while the session is open |
| TunnelTheorems.SpokeGaugeLaw | hub/images/tunnel-server/src/main.rs:640-643 | The exported gauge of a spoke, over all sessions it ever had, equals entries plus leaks up to pending increments, and the entries alone exactly when no session leaked |
| TunnelTheorems.GaugeLeaks | hub/images/tunnel-server/src/main.rs:337-342 | A run that ends with an empty map, all tasks of the stream finished and the gauge at 1 |
| TunnelTheorems.RunGood | hub/images/tunnel-server/src/main.rs:599-825 | Every state of every run is well numbered, balanced, and satisfies the stream invariant for every id, while fewer than 2^64 ids were handed out |
| TunnelProofs.StepProjects | hub/images/tunnel-server/src/main.rs:749-825 | Seen through one id, a session step is exactly that stream's own step, enabled there, or changes nothing |
| StreamProofs.StepKeeps | spoke/images/tunnel-client/src/main.rs:241-323 | Each of the atomic steps of all seven tasks keeps the frame order and the four flow equations |
| StreamProofs.PrefixesOf | spoke/images/tunnel-client/src/main.rs:276-318 | The invariant yields prefix faithfulness in both directions |
| StreamProofs.DrainOf | spoke/images/tunnel-client/src/main.rs:310-314 | The invariant yields lossless drain at both ends, and a half Close at the hub means that the target reached end of file |
| StreamProofs.OrderOf | hub/images/tunnel-server/src/main.rs:645-721 | The invariant yields both frame grammars and that the spoke acts only after the Open |
| StreamProofs.StepIsChannelStep | hub/images/tunnel-server/src/main.rs:677-747 | Each stream step is a step of an append-only byte pipe in each direction |
| StreamProofs.RecvKeepsHubFlow | hub/images/tunnel-server/src/main.rs:773-825 | The hub's receive loop moves bytes along towards the connection without loss while the entry is in the map, and accounts for all of them when a Close removes it |
| StreamProofs.PumpKeepsTargetFlow | spoke/images/tunnel-client/src/main.rs:301-318 | Every pump step, a partial failing write included, keeps written bytes plus bytes in flight equal to what the hub sent |
| Ledger.MoveBalanced | hub/images/tunnel-server/src/main.rs:635-665 | The five places that touch map and gauge, and closing the session, keep the gauge equation |
| HalfClose.CloseIsNeverHalf | hub/images/tunnel-server/src/main.rs:722-729 | From the moment a stream is out of the map its connection is owed, for the rest of the run, exactly the bytes past the receive loop then: what is written and held stays equal to it while the writer works, what is written equals it once drained, and is a prefix of it after a failed write |
| HalfClose.AnswerIsCompleteIff | hub/images/tunnel-server/src/main.rs:735-743 | A drained connection has received all the target ever sent if and only if all of that had passed the receive loop when the stream left the map and the target sent nothing afterwards |
| HalfClose.AnswerIsLost | hub/images/tunnel-server/src/main.rs:691-702 | A run on an open session in which the client shuts down its sending side, the target answers, and nothing of the answer reaches the client |
| SpokeSessions.SpokeSession.Accept | hub/images/tunnel-server/src/main.rs:635-666 | One accepted connection adds one entry and one to the gauge; if its Open cannot be sent it leaves no trace |
| SpokeSessions.SpokeSession.EndStream | hub/images/tunnel-server/src/main.rs:791-800 | However many of the guarded paths try to remove a stream, and in whatever order, it goes once, the gauge drops once, and the first is on record as the cause |
| SpokeSessions.SpokeSession.RollBack | hub/images/tunnel-server/src/main.rs:658-665 | After a failed Open the entry goes and the gauge drops whether or not the entry was still there |
| SpokeSessions.SpokeSession.RemoveIfPresent | hub/images/tunnel-server/src/main.rs:722-729 | The three guarded removals decrement exactly when they removed |
| SpokeSessions.SpokeSession.LookUp | hub/images/tunnel-server/src/main.rs:775-778 | A writer is found exactly for the ids in the map, and it is that id's writer |
| SpokeSessions.SpokeSession.Close | hub/images/tunnel-server/src/main.rs:337-342 | Closing sets the flag, empties the map and leaves the gauge |
| Ids.DistinctAndInRangeIff | hub/images/tunnel-server/proto/tunnel.proto:23-28 | All ids of hub and spoke are distinct and each in its half if and only if fewer than 2^63 connections and at most 2^63 requests were numbered |
| Ids.IdCounters.IssueAll | hub/images/tunnel-server/src/main.rs:625 | The two counters driven through any interleaving of accepts and requests issue exactly the ids the theorem is about |
| HttpTheorems.OutcomeIsLegitimate | spoke/images/tunnel-client/src/main.rs:392-449 | A finished request got one of: the hub's one answer to that very request as the end-to-end function gives it; the flush's 503, and then it was pending when a session ended; 503 because it could not be sent, and then the hub never saw it; 504, and then no reply had been handed to it. The lost-channel branch is never reached |
| HttpTheorems.FlushedWasDrained | spoke/images/tunnel-client/src/main.rs:95-108 | Over every run, whoever holds, was told or is about to be given the flush reply was in the pending map when an earlier session end drained it |
| HttpTheorems.UnsentNeverReachesHub | spoke/images/tunnel-client/src/main.rs:392-395 | A request whose send failed is in no queue, was neither received nor answered by the hub, and stays so for the rest of the run |
| HttpTheorems.OneOutcome | spoke/images/tunnel-client/src/main.rs:401-413 | An outcome once given never changes, whatever happens later |
| HttpTheorems.NoStalePending | spoke/images/tunnel-client/src/main.rs:380-395 | No pending entry belongs to a finished request, also when it was inserted after the flush drained the map |
| HttpTheorems.FlushReleases | spoke/images/tunnel-client/src/main.rs:92-108 | Every request pending when the flush drained the map has been released by the time the spoke reconnects |
| HttpTheorems.HubAnswersOnce | hub/images/tunnel-server/src/main.rs:881-1031 | Per request frame at most one response frame, exactly one when the channel took it, and each result counter equals the number of requests decided that way |
| HttpTheorems.LabelFollowsReply | hub/images/tunnel-server/src/main.rs:881-1031 | A request whose reply is on its way is counted under the label that reply shows: by its error text for the two rejections, as forwarded exactly without an error |
| HttpGate.LabelMeans | hub/images/tunnel-server/src/main.rs:830-860 | Each result label goes with one response: 403 with its text and error for either rejection, the kernel's own status and body exactly when forwarded |
| HttpGate.ResponseShows | spoke/images/tunnel-client/src/main.rs:415-449 | What any response from the hub shows as: its status modulo 65536, or 502 if that is no HTTP status; an error text stands in for an empty body, and goes with 502 when the status is not positive |
| HttpProgress.SenderFollowsSession | spoke/images/tunnel-client/src/main.rs:549-552 | In every state of every run new requests get the sender of the session that serves, and none from the first half of a session's end until the next one starts |
| HttpProgress.RestIsAnswered | spoke/images/tunnel-client/src/main.rs:641-659 | When no task can do anything more by itself, a session serves, and every request has been answered unless a frame of it was lost, the hub could not send the answer, or its session is over; those can time out |
| HttpLiveness.EveryRequestIsAnswered | spoke/images/tunnel-client/src/main.rs:370-413 | Left to themselves the tasks stop after at most as many steps as their work measures, and then every request of the standing session has been answered, with the same two exceptions |
| HttpLiveness.CanComeToRest | spoke/images/tunnel-client/src/main.rs:370-413 | Every run can be continued by the tasks' own steps to a state in which they have stopped |
| HttpProgress.AnsweredRun | spoke/images/tunnel-client/src/main.rs:362-449 | For every gate, path and outcome there is a run in which a request is numbered, sent and answered; an allowed request of an application spoke gets the kernel's own status and body |
| HttpFailures.UnsentRun | spoke/images/tunnel-client/src/main.rs:392-395 | A run whose caller gets 503 "tunnel send failed" |
| HttpFailures.TimedOutRun | spoke/images/tunnel-client/src/main.rs:409-412 | A run whose caller gets 504 "hub response timeout" |
| HttpFailures.FlushedRun | spoke/images/tunnel-client/src/main.rs:92-108 | A run whose caller gets 503 "tunnel session ended", and in which the next request is numbered on the next session |
| HttpFailures.ConnectFailsRun | spoke/images/tunnel-client/src/main.rs:493-503 | A run in which a session does not come about and is tried again |
| HttpFailures.RequestsMayFail | spoke/images/tunnel-client/src/main.rs:392-413 | Any send may fail, any wait run out, any frame be lost |
| HttpFailures.SafetyNet | spoke/images/tunnel-client/src/main.rs:403-408 | A dropped reply channel, should there be one, shows as 502 "response channel closed" |
| HttpFailures.RepliesStayInSession | spoke/images/tunnel-client/src/main.rs:641-655 | A reply can be taken exactly while the session its request was sent on serves |
| HttpFailures.HubMayFail | hub/images/tunnel-server/src/main.rs:881-1031 | The kernel may come to any outcome, and any answer may fail to be sent |
| HttpFailures.SessionMayEnd | spoke/images/tunnel-client/src/main.rs:493-552 | A session may fail to come about or end, and requests may come while it stands |
| HttpProofs.StepKeeps | spoke/images/tunnel-client/src/main.rs:641-655 | Every step of handlers, session loop and hub keeps the seven-part invariant: each unused reply sender is in exactly one place and replies reach only their own request |
| HttpGate.AppSeesEndToEnd | spoke/images/tunnel-client/src/main.rs:415-449 | Status and body the application sees are the kernel's own for an allowed path of an application spoke, 403 before the kernel is asked, 502 when it could not answer |
| SharedProxyStates.SharedProxyState.BeginRequest | spoke/images/tunnel-client/src/main.rs:375-395 | Between sessions a request is refused with 503 "tunnel not connected" and changes nothing; otherwise it takes the counter's id on the attached session, is pending under it if its send succeeds, and not if it fails |
| SharedProxyStates.SharedProxyState.Take | spoke/images/tunnel-client/src/main.rs:641-645 | Whoever takes an entry gets its responder exactly when it was there, and it is gone afterwards |
| SharedProxyStates.SharedProxyState.DetachAndFlush | spoke/images/tunnel-client/src/main.rs:92-108 | The sender is dropped, the pending map emptied, and exactly the requests that were pending get the flush reply |
| SharedProxyStates.SharedProxyState.ServeSession | spoke/images/tunnel-client/src/main.rs:493-503 | A session from attach to flush in which no reply arrives: no request is refused, each gets the next id on this very session, the flush answers exactly those still pending, and neither a sender nor an entry is left |
| SharedProxyStates.BegunMeans | spoke/images/tunnel-client/src/main.rs:370-395 | Up to the wrap-around of the counter, registered after a series of requests are the old entries and exactly the requests whose send succeeded |
| SharedProxyStates.SharedProxyState.Attach | spoke/images/tunnel-client/src/main.rs:88-90 | From then on requests get this session's sender |
| Registry.ConnectedLaw | hub/images/tunnel-server/src/main.rs:495-508 | In every interleaving `connected` plus pending increments equals the entries plus the overwriting registrations, so it is exact precisely when nothing was overwritten |
| Registry.OpenIsEntryIff | hub/images/tunnel-server/src/main.rs:495-507 | In every state of every run an open session past its registration is its spoke's entry if and only if it was never overwritten while open |
| Registry.OpenStaysEntry | hub/images/tunnel-server/src/main.rs:583-597 | A registered session that is still open later in the run is still its spoke's entry if and only if no displacer overwrote it: no teardown evicts it |
| Registry.AtMostOneOpen | hub/images/tunnel-server/src/main.rs:495-507 | Two open sessions share a spoke only if a displacer overwrote one of them |
| Registry.StraysGrowIff | hub/images/tunnel-server/src/main.rs:497-503 | An open session is overwritten at a step if and only if the step is a displacer's insertion and its spoke's entry is open; it is then that entry alone, and not the session the displacer closed |
| Registry.ThreeWayRace | hub/images/tunnel-server/src/main.rs:497-508 | A run of three connections that ends with two open sessions, one entry and a gauge of 3 |
| Registry.RunInv | hub/images/tunnel-server/src/main.rs:495-597 | The registry invariant holds in every state of every interleaving |
| RegistryProgress.RestIsRegistered | hub/images/tunnel-server/src/main.rs:495-597 | When no connection can do anything more by itself, the registry lists exactly the open sessions that were never overwritten open, and the gauge is the number of entries plus one per overwriting registration |
| RegistryProgress.ComesToRest | hub/images/tunnel-server/src/main.rs:495-597 | Left to themselves, connections come to rest after at most four steps each |
| RegistryProgress.ComesAndGoes | hub/images/tunnel-server/src/main.rs:495-597 | A run in which a connection comes and goes and leaves neither entry nor count |
| RegistryProgress.DisplacedCountsTwice | hub/images/tunnel-server/src/main.rs:497-508 | A run of two connections after which the gauge reads 2 for one entry, with nothing left to correct it |
| Registry.SessionRegistry.LookUpOrInsert | hub/images/tunnel-server/src/main.rs:496-506 | The first critical section inserts only for an unknown spoke and otherwise reports the session in the way |
| Registry.SessionRegistry.Connect | hub/images/tunnel-server/src/main.rs:495-508 | A registration nobody interferes with closes the session in the way and no other, ends with the new session as the entry and one more connected, and leaves every other spoke untouched |
| Registry.SessionRegistry.CleanUp | hub/images/tunnel-server/src/main.rs:583-597 | Cleanup removes and decrements exactly when the registered session is closed |
| SpokesTable.LoadTable | hub/images/tunnel-server/src/main.rs:108-186 | The loops of the parser compute the specification, with the first error winning |
| SpokesTable.LoadEntry | hub/images/tunnel-server/src/main.rs:128-184 | One entry: three parts, an application exactly when its id begins with "app-", ports, no portless cluster spoke |
| SpokesTable.LoadBindings | hub/images/tunnel-server/src/main.rs:148-171 | The port list: blanks skipped, default target, unsigned 16-bit ports |
| SpokesProofs.TableRoundTrip | hub/images/tunnel-server/src/main.rs:108-186 | Printing any non-empty table that respects the separators and parsing it gives the same map |
| SpokesProofs.LastEntryWins | hub/images/tunnel-server/src/main.rs:177-185 | The last entry of a duplicated id is the one kept |
| SpokesProofs.ParsedIsCanonical | hub/images/tunnel-server/src/main.rs:139-175 | Whatever parses holds each spoke under its own id and kind, gives cluster spokes a port, and survives printing and parsing |
| Text.SpacesAre | hub/images/tunnel-server/src/main.rs:115 | The 25 code points that `trim` removes |
| SpokesMeaning.PortMeans | hub/images/tunnel-server/src/main.rs:162-164 | A port is the decimal text of a number below 65536, with or without a plus sign; anything else is refused |
| SpokesMeaning.BindingMeans | hub/images/tunnel-server/src/main.rs:153-161 | Without an '@' a port is bound to "default", with one to the trimmed text after it; a blank target is refused |
| SpokesMeaning.PieceMeans | hub/images/tunnel-server/src/main.rs:148-170 | One more piece of a port list: blank ones are skipped, others trimmed and bound, in order |
| SpokesMeaning.EntryPieceMeans | hub/images/tunnel-server/src/main.rs:124-185 | One more entry: blank ones are skipped, others trimmed and entered under their id in place of an earlier one |
| SpokesMeaning.PaddingGoes | hub/images/tunnel-server/src/main.rs:115 | Trimming takes off exactly the white space around a text |
| SpokesMeaning.EntryMeans | hub/images/tunnel-server/src/main.rs:129-175 | What the three parts of an entry come to, kind and missing ports included |
| SpokesMeaning.BadEntryIff | hub/images/tunnel-server/src/main.rs:129-132 | An entry is malformed if and only if it has fewer than two ':' |
| SpokesMeaning.TableMissingIff | hub/images/tunnel-server/src/main.rs:115-121 | The table counts as missing if and only if it is blank |
| SpokesMeaning.FirstErrorWins | hub/images/tunnel-server/src/main.rs:124-175 | The first entry that cannot be parsed decides the error, whatever follows |
| SpokesMeaning.OnePortExample | hub/images/tunnel-server/src/main.rs:108-110 | The documented entry with one port |
| SpokesMeaning.TwoPortsExample | hub/images/tunnel-server/src/main.rs:110-112 | The documented entry with two ports and targets |
| Peak.ComputePeak | hub/images/kernel-frontend/pages/ci.vue:574-591 | The result bounds the number of builds under way at any instant, less those recorded as ending before they start around it, and is reached at some instant or 0 |
| Peak.Sweep | hub/images/kernel-frontend/pages/ci.vue:575-590 | The two loops compute the largest running sum over the sorted events |
| Peak.PeakLaw | hub/images/kernel-frontend/pages/ci.vue:574-591 | For all builds the peak is the largest value, or zero, over all instants of intervals containing the instant less inverted intervals around it |
| Peak.PeakIsMaximum | hub/images/kernel-frontend/pages/ci.vue:574-591 | When no build ends before it starts, the peak is the largest number of closed clamped intervals containing one instant |
| Peak.PeakIsMaximumIff | hub/images/kernel-frontend/pages/ci.vue:574-591 | For all builds the peak is the largest number of builds at one instant if and only if some busiest instant lies inside no inverted interval, or nothing ever runs |
| Peak.CountsAreSizes | hub/images/kernel-frontend/pages/ci.vue:576-581 | What is counted at an instant are the builds that have started and not ended before it, seen through the window, a build without an end running until now |
| Peak.SortIsTheOnlyOne | hub/images/kernel-frontend/pages/ci.vue:583 | Any sort by the comparator, stable or not, gives the same event sequence |
| Peak.InversionHides | hub/images/kernel-frontend/pages/ci.vue:577-581 | An inverted build can bring the peak to 0 while a build is running |
| EventStream.ReadReply | hub/images/kernel-frontend/pages/chat.vue:383-429 | However the text is cut into chunks, the outcome is that of the newline-terminated lines of the whole text, up to the first that throws |
| EventStream.HandleBatch | hub/images/kernel-frontend/pages/chat.vue:394-425 | The inner loop handles lines in order and stops at the first that throws |
| EventStream.LinesAreTerminated | hub/images/kernel-frontend/pages/chat.vue:391-392 | Lines and unfinished rest join to the text and contain no newline |
| EventStream.ReplyIsLast | hub/images/kernel-frontend/pages/chat.vue:407-425 | Unless a line threw, the text is the start text followed by the deltas in order, and model, topics, cost, note and error are those of the last line that has one |
| EventStream.ThrewIff | hub/images/kernel-frontend/pages/chat.vue:400-425 | Handling throws if and only if some line holds a JSON null or a start event whose topics cannot be read |
| EventStream.ThrownAt | hub/images/kernel-frontend/pages/chat.vue:400-425 | It stops at the first such line, of which at most the model is kept |
| Grid.Repulse | hub/images/kernel-frontend/components/KnowledgeGraph.vue:172-219 | Every node ends with the sum of the forces of all other nodes it sees, each counted once |
| Grid.BuildGrid | hub/images/kernel-frontend/components/KnowledgeGraph.vue:179-189 | The grid holds exactly the non-empty buckets, in node order, and displacements are reset |
| Grid.MeetNeighbours | hub/images/kernel-frontend/components/KnowledgeGraph.vue:192-218 | The 3x3 scan adds the forces of the nine keys around the node's own |
| Grid.NineSumIsPairSum | hub/images/kernel-frontend/components/KnowledgeGraph.vue:196-202 | The nine buckets meet every node with a matching key exactly once: the scan equals the brute-force sum by key |
| Grid.SameMeetings | hub/images/kernel-frontend/components/KnowledgeGraph.vue:183-187 | While rows are less than 16383 apart the scan by key equals brute force by cell |
| Grid.SameMeetingsIff | hub/images/kernel-frontend/components/KnowledgeGraph.vue:196-202 | For any nodes the scan of a node equals brute force for every force if and only if no other node is its neighbour merely after a wrap of 16384 rows |
| Grid.SeenIffWrappedNear | hub/images/kernel-frontend/components/KnowledgeGraph.vue:185 | Two cells meet if and only if they are neighbours after some number of 16384-row wraps |
| Grid.CloseIsNear | hub/images/kernel-frontend/components/KnowledgeGraph.vue:183-184 | Nodes at most one cell apart in both coordinates always meet |
| Grid.FarCellsCollide | hub/images/kernel-frontend/components/KnowledgeGraph.vue:185 | Two cells that are not neighbours and share a key |
| Grid.FarNodesCollide | hub/images/kernel-frontend/components/KnowledgeGraph.vue:183-185 | For every cell size, two node positions in such cells, which meet |
| Grid.WrongMeetingsAreFar | hub/images/kernel-frontend/components/KnowledgeGraph.vue:183-185 | Nodes that meet without being in neighbouring cells are at least 16382 cell sizes apart vertically |
| ManifestBump.SplitRejoins | hub/manifests/builder/ConfigMaps/ci-dispatcher-config.yaml:663-664 | Repository and tag rejoin to the reference if and only if it has a colon, registry port or not |
| ManifestBump.RewriteLine | hub/manifests/builder/ConfigMaps/ci-dispatcher-config.yaml:677-693 | The first "image: <repo>:" of a line has the tag after it, up to the first blank, tab or '#', replaced and nothing else; a line without one comes out unchanged |
| ManifestBump.ImageLineBumped | hub/manifests/builder/ConfigMaps/ci-dispatcher-config.yaml:676-693 | Every line either has such a reference, and is cut around its tag in the one way the contract describes, or is left alone |
| ManifestBump.SkipTag | hub/manifests/builder/ConfigMaps/ci-dispatcher-config.yaml:682-687 | The scan stops at the first blank, tab or '#' |
| ManifestBump.OnlyTheTagChanges | hub/manifests/builder/ConfigMaps/ci-dispatcher-config.yaml:678-692 | A line without the prefix is unchanged; in a line with it only the tag after its first occurrence changes |
| ManifestBump.AbsorbsIff | hub/manifests/builder/ConfigMaps/ci-dispatcher-config.yaml:676-693 | A bump is absorbed by every later one on every line if and only if its tag has no blank, tab or '#' |
| ManifestWriteBack.RewriteFile | hub/manifests/builder/ConfigMaps/ci-dispatcher-config.yaml:676-694 | The file is bumped line by line, each printed line ending in a newline |
| ManifestWriteBack.FileMeans | hub/manifests/builder/ConfigMaps/ci-dispatcher-config.yaml:676-694 | Lines are bumped one by one, and the last one ends in a newline afterwards even if it had none |
| ManifestWriteBack.TextAbsorbs | hub/manifests/builder/ConfigMaps/ci-dispatcher-config.yaml:676-694 | The later bump absorbs the earlier one on whole files |
| ManifestWriteBack.BumpedTwice | hub/manifests/builder/ConfigMaps/ci-dispatcher-config.yaml:670-702 | The later bump absorbs the earlier one on whole trees, for any list of paths |
| ManifestWriteBack.Workspace.BumpListed | hub/manifests/builder/ConfigMaps/ci-dispatcher-config.yaml:668-703 | Exactly the listed files that exist are bumped and staged, and `changed` counts those that differ, a path listed twice only once; it is 0 exactly when the tree is unchanged |
| ManifestWriteBack.Workspace.BumpPath | hub/manifests/builder/ConfigMaps/ci-dispatcher-config.yaml:671-701 | One path: skipped when missing, rewritten and staged when it differs |
| ManifestWriteBack.WriteBack | hub/manifests/builder/ConfigMaps/ci-dispatcher-config.yaml:704-728 | Whatever network and other writers do in the three tries: the branch is only extended and ends exactly as the tries up to the first success leave it, each commit made is its own parent bumped and not empty, success means the branch carried the new tag, and it succeeds if and only if some try fetches and then finds its head up to date or gets its push confirmed |
| ManifestWriteBack.CalmTrySucceeds | hub/manifests/builder/ConfigMaps/ci-dispatcher-config.yaml:704-728 | A first try that nothing disturbs is enough: the branch ends with the bump of its head as one commit, or as it was if that alters nothing |
| ManifestWriteBack.Attempt | hub/manifests/builder/ConfigMaps/ci-dispatcher-config.yaml:706-723 | The same for one try, with other writers before the fetch and between fetch and push |
| ManifestWriteBack.Remote.Push | hub/manifests/builder/ConfigMaps/ci-dispatcher-config.yaml:718 | A push lands only on the commit it was built on, and may land without saying so |
| ManifestWriteBack.NeverTwiceInARow | hub/manifests/builder/ConfigMaps/ci-dispatcher-config.yaml:711-716 | After a commit of ours the next commit is never ours, even when the push was not confirmed |
| HandoffTags.CleanTags | hub/manifests/kernel2/ConfigMaps/rag-backend-kernel-backends.yaml:685-690 | The two cleaning passes yield exactly the texts that some raw tag becomes when stripped, lower-cased and given underscores, if not empty and not beginning with "error"; each once |
| HandoffTags.CleanMeans | hub/manifests/kernel2/ConfigMaps/rag-backend-kernel-backends.yaml:682-690 | The same of the specification, character by character: blanks and hyphens become underscores, nothing else changes |
| HandoffTags.StripMeans | hub/manifests/kernel2/ConfigMaps/rag-backend-kernel-backends.yaml:687 | Stripping cuts all blanks off both ends and nothing else |
| HandoffTags.BlanksAre | hub/manifests/kernel2/ConfigMaps/rag-backend-kernel-backends.yaml:687 | The 29 code points that `strip` removes |
| HandoffTags.CleanTwice | hub/manifests/kernel2/ConfigMaps/rag-backend-kernel-backends.yaml:685-690 | Cleaning a cleaned list changes nothing |
| HandoffTags.FirstsWin | hub/manifests/kernel2/ConfigMaps/rag-backend-kernel-backends.yaml:690 | The tags come in the order in which they are first given |
| HandoffStore.MemgraphHandoffStore.EnforcePolicy | hub/manifests/kernel2/ConfigMaps/rag-backend-kernel-backends.yaml:497-533 | Exactly when each decision is made: unchecked, passed, refused for the content, for a silent validator, or for times that do not compare |
| HandoffStore.MemgraphHandoffStore.TopicUpsert | hub/manifests/kernel2/ConfigMaps/rag-backend-kernel-backends.yaml:624-666 | A content is refused if and only if the policy is on and either the topic's time does not compare with the cutoff, or the validator does not accept it and the topic is new or not older than the cutoff; a refused upsert changes nothing, after any other the content is the topic's |
| HandoffStore.MemgraphHandoffStore.TopicDelete | hub/manifests/kernel2/ConfigMaps/rag-backend-kernel-backends.yaml:668-677 | The topic goes with its edges, and the answer says whether it was there |
| HandoffStore.MemgraphHandoffStore.TopicSetTags | hub/manifests/kernel2/ConfigMaps/rag-backend-kernel-backends.yaml:679-711 | Tags and edges are replaced by the cleaned list in two statements; a missing topic is reported and nothing changes |
| HandoffProofs.RefusedIff | hub/manifests/kernel2/ConfigMaps/rag-backend-kernel-backends.yaml:499-533 | The same of the specification the runs are made of, contents not given included |
| HandoffProofs.TopicsAlone | hub/manifests/kernel2/ConfigMaps/rag-backend-kernel-backends.yaml:624-711 | Whatever else a run does, a topic ends as if only the operations on it had been made |
| HandoffProofs.UpsertTouches | hub/manifests/kernel2/ConfigMaps/rag-backend-kernel-backends.yaml:638-658 | An upsert let through touches one topic, keeps its time of creation and tags, takes over the texts given, keeps the others, and is idempotent on texts |
| HandoffProofs.MirrorAlways | hub/manifests/kernel2/ConfigMaps/rag-backend-kernel-backends.yaml:624-711 | Over every sequential run whose tag updates complete, each topic's tags are free of repetitions and equal the ends of its edges |
| HandoffProofs.SetTagsMirrorsIff | hub/manifests/kernel2/ConfigMaps/rag-backend-kernel-backends.yaml:692-710 | From a mirrored store, a tag update keeps the whole mirror if and only if its second statement goes through or is not needed |
| HandoffProofs.SetTagsHealsIff | hub/manifests/kernel2/ConfigMaps/rag-backend-kernel-backends.yaml:692-710 | From any store, a tag update leaves its own topic mirrored under exactly the same condition |
| HandoffProofs.MirrorsIff | hub/manifests/kernel2/ConfigMaps/rag-backend-kernel-backends.yaml:668-711 | Over every sequential run, a topic's tags mirror its edges if and only if its last tag update since it was made did not lose its second statement |
| HandoffProofs.PolicyAlways | hub/manifests/kernel2/ConfigMaps/rag-backend-kernel-backends.yaml:497-677 | While enforced, every run keeps every bound topic without content or with a content the validator let through |
| HandoffProofs.PolicyAlwaysIff | hub/manifests/kernel2/ConfigMaps/rag-backend-kernel-backends.yaml:499-510 | Every run keeps the policy if and only if it is not switched off or its cutoff cannot be read |
| HandoffProofs.BoundContentWasAccepted | hub/manifests/kernel2/ConfigMaps/rag-backend-kernel-backends.yaml:511-533 | From the empty store, the content of a bound topic was accepted by the validator when an upsert of that very topic offered it |
| HandoffProofs.AcceptedOnlyByValidator | hub/manifests/kernel2/ConfigMaps/rag-backend-kernel-backends.yaml:514-526 | What counts as let through was accepted by the validator at some operation of the run |
| HandoffProofs.LostLinksPart | hub/manifests/kernel2/ConfigMaps/rag-backend-kernel-backends.yaml:692-710 | Two operations after which a topic has a tag and no edge |
| FleetCredentials.Cluster.Run | hub/manifests/kernel/ConfigMaps/rag-backend-kernel-fleet-credentials.yaml:349-469 | The loop over the table: the cluster afterwards, one status per target, and counters equal to how often the four statuses of each kind occur |
| FleetCredentials.Cluster.Sync | hub/manifests/kernel/ConfigMaps/rag-backend-kernel-fleet-credentials.yaml:353-459 | One target: its status and what becomes of its Secret |
| FleetCredentials.Cluster.ReadPassword | hub/manifests/kernel/ConfigMaps/rag-backend-kernel-fleet-credentials.yaml:240-260 | None when the read fails or the password is missing, empty or no text |
| FleetCredentials.Cluster.WritePassword | hub/manifests/kernel/ConfigMaps/rag-backend-kernel-fleet-credentials.yaml:263-294 | The patch replaces the password alone, and may be applied although reported as failed |
| FleetCredentials.Cluster.CreateSecret | hub/manifests/kernel/ConfigMaps/rag-backend-kernel-fleet-credentials.yaml:297-328 | Apply leaves a Secret of the username, the token and the other keys except those its last-applied annotation records, also when there was none before, and may be applied although reported as failed |
| FleetCredentials.CountsAddUp | hub/manifests/kernel/ConfigMaps/rag-backend-kernel-fleet-credentials.yaml:461-469 | Every target is counted once, in the kind its status belongs to: changed + failed + same is the number of targets |
| FleetCredentials.Independent | hub/manifests/kernel/ConfigMaps/rag-backend-kernel-fleet-credentials.yaml:353-459 | With distinct Secrets each target is dealt with as if it were alone |
| FleetCredentials.TargetBecomes | hub/manifests/kernel/ConfigMaps/rag-backend-kernel-fleet-credentials.yaml:353-459 | With distinct Secrets, row by row: every status, and the Secret that is there afterwards, field by field |
| FleetCredentials.AbsentBecomes | hub/manifests/kernel/ConfigMaps/rag-backend-kernel-fleet-credentials.yaml:297-328 | For any table: a Secret that was not there is made if and only if some manifest is applied, and then holds the last one's username, the token written last, and nothing else |
| FleetCredentials.OthersStay | hub/manifests/kernel/ConfigMaps/rag-backend-kernel-fleet-credentials.yaml:353-459 | A Secret no target names is left alone |
| FleetCredentials.Converges | hub/manifests/kernel/ConfigMaps/rag-backend-kernel-fleet-credentials.yaml:335-469 | A sync that reports no failure leaves every password equal to the store's token |
| FleetCredentials.ConvergesIff | hub/manifests/kernel/ConfigMaps/rag-backend-kernel-fleet-credentials.yaml:353-459 | For any table, Secrets listed twice included, it does so if and only if rows for one Secret agree on the token |
| FleetCredentials.DisagreeingRowsPart | hub/manifests/kernel/ConfigMaps/rag-backend-kernel-fleet-credentials.yaml:353-459 | Two rows that disagree: created, then updated, no failure, and the first row is not satisfied |
| FleetCredentials.SecondSyncIsSame | hub/manifests/kernel/ConfigMaps/rag-backend-kernel-fleet-credentials.yaml:415-421 | The next sync reports `same` for exactly the Secrets it can read, and changes nothing when it can read all |
| FleetCredentials.DryRunChangesNothing | hub/manifests/kernel/ConfigMaps/rag-backend-kernel-fleet-credentials.yaml:383-431 | A dry run leaves the cluster as it is |
| FleetCredentials.DryRunPredicts | hub/manifests/kernel/ConfigMaps/rag-backend-kernel-fleet-credentials.yaml:383-431 | With distinct Secrets a dry run predicts the real run status by status, and its `changed` is the number of creates and updates the real run attempts |
| FleetCredentials.DryRunPredictsIff | hub/manifests/kernel/ConfigMaps/rag-backend-kernel-fleet-credentials.yaml:383-431 | A table's dry run predicts every status, whatever the cluster holds and however the surroundings answer, if and only if the table lists no Secret twice |
| FleetCredentials.RepeatedTargetMispredicts | hub/manifests/kernel/ConfigMaps/rag-backend-kernel-fleet-credentials.yaml:383-413 | Two rows for one Secret: two creations announced, one made |
| FleetCredentials.UsernameKeptIff | hub/manifests/kernel/ConfigMaps/rag-backend-kernel-fleet-credentials.yaml:368-413 | For any table an existing Secret keeps its username if and only if no manifest is applied to it or the last one applied has the same username; the last manifest is read off the table, and without repetitions it is the row's own: not applied when the password is readable, there is nothing to write, or the write is refused |
| FleetCredentials.OtherKeysKeptIff | hub/manifests/kernel/ConfigMaps/rag-backend-kernel-fleet-credentials.yaml:311-323 | For any table it keeps all its other keys if and only if no manifest is applied to it or none of them is recorded as applied before |
| FleetCredentials.FailedReadOverwrites | hub/manifests/kernel/ConfigMaps/rag-backend-kernel-fleet-credentials.yaml:368-408 | One failed read of a Secret that already holds the token: the username and a key are lost and the status says created |

## Left out

- HandoffTags.CleanTwice: lower-casing is an arbitrary function with the properties of Unicode's that `LikeUnicode` lists; Unicode's tables are not part of this model.
- HandoffProofs.MirrorAlways: sequential runs; concurrent operations and half-finished transactions other than the lost second statement are not modelled.
- HandoffStore.MemgraphHandoffStore.TopicUpsert: times are compared as seconds; the validator's diagnostics and the truncated message are not modelled.
- Grid.Repulse: forces are over the reals and an arbitrary function of the two nodes; floating-point rounding and the jitter's distribution are not modelled.
- Peak.ComputePeak: the library sort is a function; `SortIsTheOnlyOne` shows that the comparator leaves it no choice.
- ManifestWriteBack.WriteBack: the listed files are clean when the loop starts, and file system errors do not occur.
- FleetCredentials.Cluster.CreateSecret: of `kubectl apply`, the merge and the pruning of the Secret's own keys are modelled; an immutable-type conflict is a refused write, and labels and annotations are left out.
- FleetCredentials.Cluster.Run: a kubectl timeout, which aborts the whole request, and concurrent writers of the Secrets are not modelled.
- The bounds of the two 256-frame queues: the model's queues are unbounded, so it has every run of the code and more. The 64-payload bound of the per-stream channels is modelled.
- In the HTTP model frames of different requests may overtake one another, which again only adds runs; cancellation of a handler by its caller is not modelled.
- Authentication, the handshake's place in the frame order, ping and pong beyond being other frames, and the 32 MiB body limit.
- Headers, methods and the encoding of bodies; the decoder from bytes to text in the chat page.
- Binding the spoke ports, metrics encoding, logging, reconnect backoff, TLS and the gRPC transport.
- Fairness between the tasks and with the TCP peers: a receive loop waits on a full channel as long as the peer behind it takes no bytes (`BlocksOnFullChannel`), and every other stream of the session with it.
- The parser of JSON events and Unicode trimming in the chat page are arbitrary functions.
- awk's own escape processing of `-v` values: image references hold no backslash.
- Briefs, topic listings, the endpoints around both stores, and fingerprints in the sync report.
- The rest of the repository: user interface, ACL predicates, spawn and chat modules, job scheduling.
