# sb-easy: verified models

A Dafny model of the parts of sb-easy whose correctness is hardest to see by
reading: the proxy lease gate, the engine lifecycle, the WebSocket relay, the
Apple client's runtime configuration, the route statistics table, second
factors and sessions, and the text codecs. `dafny verify dfyconfig.toml` checks
all of it.

## How it is put together

**Lease gate** (`Lease*.dfy`, `ProxyManager.dfy`). The engine side of a quota
protocol: a numbered request opens, a leased snapshot of users, devices and byte
grants is applied, and every byte is reserved before it moves and settled after.
`LeaseGate` gives each lock-held region as one function on the gate's state. Go
objects are entries of append-only lists and pointers are places in them, so a
device or budget that has left its map is still there for an old connection.
`LeaseInvariant`, `LeaseConnections` and `LeaseApply` prove that every region
keeps the gate's invariant. `LeaseRuns` interleaves the regions arbitrarily, with
reads and writes in flight between reserve and finish; `LeaseHistory`,
`LeaseTheorems` and `LeaseInstall` state what holds over every run. The class
`ProxyManager.Manager` is the source's own form, fields updated in place by
loops, each method proved equal to its region.

**Engine lifecycle** (`Engine*.dfy`). Start, reload with rollback, stop and
cancel as a two-lock state machine, and a class with the bodies that run under
the lock. `EngineReloads` says of a whole reload, in any interleaving, which of
its endings it has.

**WebSocket** (`WebSocket*.dfy`). Parsing frames of RFC 6455 in place, putting
fragments together, and the growing and compacting buffer.

**Runtime configuration** (`DomainGroups`, `RuleOrder`, `OutboundTags`). Domain
groups, the order of rules and what first-match routing makes of it, and tags.

**Route statistics** (`RouteLedger`). The incremental table against a plain
ledger of credits per connection.

**Second factors and sessions** (`MfaState`, `MfaRuns`, `MfaTheorems`,
`AuthStore`). Tables as maps and row lists, each transaction one step.

**Codecs** (`Radix`, `Base64`, `Base32`, `UrlText`). Encoders and decoders over a
32-bit accumulator that wraps, stated on big-endian numerals.

Every lemma is marked `{:induction false}`: its proof is its body.

## Assumptions

- The clock is an input. Where the source asks several times for the time inside
  one lock-held region or one transaction, the answers are equal.
- The local clock keeps the server's rate, and a request begins before the
  snapshot that answers it was generated (`GeneratedAfter`); only
  `LeaseTheorems.GrantBeforeExpiry` uses this.
- Hashes do not collide and encryption is lossless. Random secrets, recovery
  codes and challenges are drawn once.
- Messages arrive parsed. One that does not decode is `None`.
- An empty configuration text does not decode, so no engine is built from one.

## Properties the code does not have, and when it does

- A decoded base32 secret need not be the canonical text of its bytes: a surplus
  symbol is dropped. `Base32.SurplusSymbolAccepted` gives such a text, and
  `Base32.DecodedIsBounded` the exact condition, on the length alone.
- The route table stops agreeing with its connections at an eviction.
  `RouteLedger.EvictionHappens` gives such a run from the empty table, one report
  with 1001 routes. `RouteLedger.TrackBalanced` shows that an entry keeps the
  agreement if and only if its route is in the table or fewer than 1000 routes
  are. For a connection that changes its route this is asked of the table from
  which it has just been taken off its old one, so its own move may make the room.
- A session that was just issued can be pruned at once if the clock has gone
  back. `MfaTheorems.ClockGoesBack` gives such a run, a hundred logins and then
  one at an earlier time. `MfaState.IssuedIsKept` gives the exact condition.

## Model

| member | source | states |
|---|---|---|
| LeasePolicy.CheckReports | singbox-bridge/proxy_policy.go:234-246 | accepts exactly the report lists of at most 4096 entries with valid ids, uses in range and no lease twice |
| LeasePolicy.CheckDevices | singbox-bridge/proxy_policy.go:298-304 | the inner loop of snapshot validation: accepts a user's devices exactly when they are well formed and their ids and keys are new |
| LeasePolicy.ValidatePolicy | singbox-bridge/proxy_policy.go:277-307 | accepts exactly the snapshots whose header, node, users, leases and devices are well formed, with users, leases, devices and keys unique across the whole snapshot |
| LeasePolicy.TokenNamesDevice | singbox-bridge/proxy_policy.go:392-393 | equal tokens come from equal device ids |
| LeasePolicy.DeadlineIsSafe | singbox-bridge/proxy_policy.go:309-314 | every instant up to a device's deadline is, on the server's clock, strictly before the lease's expiry and before a non-zero device expiry |
| LeasePolicy.DeadlineFits | singbox-bridge/proxy_policy.go:261-267 | for any start that begin accepts, no step of the deadline computation leaves 64-bit range |
| LeaseInvariant.StopKeeps | singbox-bridge/proxy_policy.go:516-541 | stop keeps the gate's invariant |
| LeaseInvariant.StopSwitchesOff | singbox-bridge/proxy_policy.go:516-541 | after stop no device and no budget object is active, mapped or not |
| LeaseInvariant.ExpireKeeps | singbox-bridge/proxy_policy.go:498-515 | expire keeps the invariant and only switches devices off |
| LeaseInvariant.ResetKeeps | singbox-bridge/proxy_policy.go:547-578 | a round of reset, with everything off, keeps the invariant: what it forgets has no connection and no reservation |
| LeaseInvariant.AcknowledgeKeeps | singbox-bridge/proxy_policy.go:591-604 | acknowledge keeps the invariant |
| LeaseConnections.ReserveKeeps | singbox-bridge/proxy_policy.go:633-652 | reserve keeps the invariant, in particular used + reserved <= grant |
| LeaseConnections.FinishKeeps | singbox-bridge/proxy_policy.go:661-682 | settling an outstanding reservation keeps the invariant; a used-up lease leaves no active device |
| LeaseConnections.AttachKeeps | singbox-bridge/proxy_policy.go:605-618 | attach keeps the invariant and the caps of 256 per device and 4096 in all |
| LeaseConnections.CloseKeeps | singbox-bridge/proxy_policy.go:619-632 | close keeps the invariant, however often it is called |
| LeaseApply.InstalledOk | singbox-bridge/proxy_policy.go:368-403 | what the install loops build: budgets only gain grant, keys name their budgets, each next device is a listed one on its lease's terms, at most 4096 budgets |
| LeaseApply.SwitchKeeps | singbox-bridge/proxy_policy.go:368-424 | installing an accepted snapshot keeps the invariant |
| LeaseRuns.ChargeIsWhole | singbox-bridge/proxy_ingress.go:274-281 | a write is charged all it reserved, whatever the transport reports |
| LeaseRuns.NextInv | singbox-bridge/proxy_policy.go:248-682 | every step of every interleaving keeps the invariant of gate, operations in flight, bytes, numbers and snapshot |
| LeaseHistory.NextEvolves | singbox-bridge/proxy_policy.go:351-682 | a step never lowers a budget's use or grant, never changes its lease, and never touches a forgotten budget |
| LeaseHistory.NextContinues | singbox-bridge/proxy_policy.go:248-578 | between resets a step keeps boot and host, appends at most one consumed response, and keeps the start of a request being retried |
| LeaseTheorems.QuotaConserved | singbox-bridge/proxy_policy.go:633-682 | in every reachable state, for every budget object: 0 <= used, 0 <= reserved, used + reserved <= grant <= 2^53-1, and the bytes let through, settled and in flight, are at most used + reserved |
| LeaseTheorems.UseNeverShrinks | singbox-bridge/proxy_policy.go:351-385 | along any run a budget keeps its lease, and its use, grant and bytes let through never decrease |
| LeaseTheorems.ActiveIsCurrent | singbox-bridge/proxy_policy.go:372-412 | whenever the lock is free an active device is mapped, and its budget is mapped, active and unspent |
| LeaseTheorems.SnapshotOrigin | singbox-bridge/proxy_policy.go:318-412 | the snapshot in force was accepted by one step and neither stopped nor replaced since |
| LeaseTheorems.GrantIsAuthorized | singbox-bridge/proxy_policy.go:633-652 | a byte is granted, even through an old connection, only to a device and lease listed in the latest accepted snapshot, with no stop since, before the deadline it gives |
| LeaseTheorems.GrantBeforeExpiry | singbox-bridge/proxy_policy.go:386-399 | no byte is granted at or after the server's expiry of the lease or of the device, even if no timer ever fires |
| LeaseTheorems.RetryKeepsStart | singbox-bridge/proxy_policy.go:248-275 | between resets, while a number is pending, its start instant and its request stay the same |
| LeaseTheorems.NumbersInStep | singbox-bridge/proxy_policy.go:248-275 | between resets the number consumed grows by one per response, the pending number is it or the next, and boot and host never change once set |
| LeaseTheorems.ConsumesNext | singbox-bridge/proxy_policy.go:325-351 | a step that consumes a snapshot consumes a valid one under exactly the next number |
| LeaseTheorems.ReplayIsInert | singbox-bridge/proxy_policy.go:318-351 | a consumed snapshot presented again before a reset, whatever came between, changes nothing; and its number is never consumed again |
| LeaseTheorems.ConnectionsCounted | singbox-bridge/proxy_policy.go:605-632 | the manager's count, the open connections and the budgets' counts agree, within both caps |
| LeaseTheorems.ForgottenIsFinal | singbox-bridge/proxy_policy.go:547-604 | a forgotten budget never changes again and no open connection, operation in flight or mapped device refers to it |
| LeaseTheorems.ForgottenOnlyWhenReported | singbox-bridge/proxy_policy.go:591-604 | only a reset, or a report of the exact use of an idle budget, forgets it |
| LeaseInstall.SwitchTakesEffect | singbox-bridge/proxy_policy.go:374-412 | every listed device is mapped on its lease's terms, and is active exactly when its time and its lease allow |
| LeaseInstall.AcceptedTakesEffect | singbox-bridge/proxy_policy.go:318-412 | the same, for every accepted snapshot of every run |
| ProxyManager.Sort | singbox-bridge/proxy_policy.go:587-587 | sorting by lease id gives an ordered permutation |
| ProxyManager.ReportsAreValid | singbox-bridge/proxy_policy.go:234-246 | a report made in a state that keeps the invariant passes the manager's own check |
| ProxyManager.ReportsAlwaysAccepted | singbox-bridge/proxy_policy.go:580-590 | in every reachable state the report is accepted and at most 4096 long |
| ProxyManager.OwnReportForgets | singbox-bridge/proxy_policy.go:580-604 | acknowledging a gate's own report forgets exactly its idle, inactive budgets |
| ProxyManager.PassCharges | singbox-bridge/proxy_ingress.go:243-329 | a wrapper call charges its lease exactly the bytes let through, leaves no reservation, touches no other lease, and keeps the invariant |
| ProxyManager.ApplyKeeps | singbox-bridge/proxy_policy.go:325-424 | apply's first region keeps the invariant, whatever its verdict |
| ProxyManager.Manager.constructor | singbox-bridge/proxy_policy.go:108-112 | a new manager is the empty gate |
| ProxyManager.Manager.Begin | singbox-bridge/proxy_policy.go:255-273 | begin's region: refused with nothing changed, or exactly the pending request and boot set |
| ProxyManager.Manager.BeginMessage | singbox-bridge/proxy_policy.go:248-275 | a request that does not decode, is malformed or is refused leaves everything off; an accepted one exactly the region's state |
| ProxyManager.Manager.Survey | singbox-bridge/proxy_policy.go:351-362 | the agreement loop: agrees exactly when every known lease does, and counts the new ones |
| ProxyManager.Manager.RetireAll | singbox-bridge/proxy_policy.go:374-376 | the loop switches off exactly the mapped budgets |
| ProxyManager.Manager.InstallBudget | singbox-bridge/proxy_policy.go:379-385 | reuses or makes the user's budget and gives it the grant |
| ProxyManager.Manager.InstallDevice | singbox-bridge/proxy_policy.go:386-401 | computes the deadline and token, reuses the device only on the same budget, and sets it |
| ProxyManager.Manager.InstallAll | singbox-bridge/proxy_policy.go:377-403 | the nested loops build what the specification folds over users and devices |
| ProxyManager.Manager.Drop | singbox-bridge/proxy_policy.go:404-411 | switches off exactly the devices the next map does not keep |
| ProxyManager.Manager.SwitchTo | singbox-bridge/proxy_policy.go:368-424 | installs an accepted snapshot and decides whether the listener stays |
| ProxyManager.Manager.Apply | singbox-bridge/proxy_policy.go:325-424 | apply's first region: the state and verdict of its specification |
| ProxyManager.UsersBeforeAre | singbox-bridge/proxy_policy.go:448-459 | the listener is given exactly the tokens and passwords of the snapshot's active devices |
| ProxyManager.Manager.ListUsers | singbox-bridge/proxy_policy.go:448-459 | apply's second region: the nested loops build that list, in the snapshot's order |
| ProxyManager.Manager.ApplyMessage | singbox-bridge/proxy_policy.go:318-474 | succeeds exactly when the snapshot decodes, is valid, is accepted or repeated, and, if it is to be served, an engine runs and its listener takes the users and starts; success leaves the region's state with that listener; any failure, early or late, leaves everything switched off |
| ProxyManager.Manager.Expire | singbox-bridge/proxy_policy.go:498-511 | switches off exactly the overdue mapped devices |
| ProxyManager.Manager.DeactivateAll | singbox-bridge/proxy_policy.go:525-530 | switches off exactly the mapped devices |
| ProxyManager.Manager.Stop | singbox-bridge/proxy_policy.go:516-535 | leaves no device and no budget active and keeps the invariant |
| ProxyManager.Manager.Pending | singbox-bridge/proxy_policy.go:552-558 | whether a connection or a reservation is outstanding |
| ProxyManager.Manager.TryReset | singbox-bridge/proxy_policy.go:551-572 | one round of reset: forgets everything exactly when nothing is outstanding |
| ProxyManager.Manager.Stats | singbox-bridge/proxy_policy.go:580-590 | the report is ordered by lease id, names every mapped budget once with its use, and is valid |
| ProxyManager.Manager.Acknowledge | singbox-bridge/proxy_policy.go:596-602 | removes exactly the idle budgets whose use is reported |
| ProxyManager.Manager.Attach | singbox-bridge/proxy_policy.go:605-618 | admits exactly when every condition holds, and then counts the connection everywhere |
| ProxyManager.Manager.Open | singbox-bridge/proxy_policy.go:613-616 | adds the connection to the arena and counts it on its device, its budget and the manager |
| ProxyManager.Manager.Close | singbox-bridge/proxy_policy.go:619-632 | the first close uncounts the connection everywhere, later ones do nothing |
| ProxyManager.Manager.Reserve | singbox-bridge/proxy_policy.go:633-652 | reserves exactly the allowance |
| ProxyManager.Manager.DeactivateSharing | singbox-bridge/proxy_policy.go:667-677 | switches off exactly the mapped devices of one budget |
| ProxyManager.Manager.Finish | singbox-bridge/proxy_policy.go:661-678 | settles a reservation and switches off the devices of a used-up budget |
| ProxyManager.Manager.TcpRead | singbox-bridge/proxy_ingress.go:243-265 | exactly the allowed prefix of what arrived reaches the caller's buffer and is charged; a cut read ends the stream; an empty buffer reads nothing and does not fail |
| ProxyManager.Manager.TcpWrite | singbox-bridge/proxy_ingress.go:266-287 | exactly the allowed prefix is handed on and charged in full, even if the write fails or is short; the count returned is the transport's, or none if nothing was handed on |
| ProxyManager.Manager.Packet | singbox-bridge/proxy_ingress.go:295-329 | a packet passes and is charged whole, or not at all |
| EngineLifecycle.NextInv | singbox-bridge/main.go:34-289 | every step of every interleaving keeps the lifecycle invariant |
| EngineTheorems.StopWins | singbox-bridge/main.go:63-70 | once a stop has returned, any published engine came from a call that sampled its generation after that stop's increment |
| EngineTheorems.StopIsNew | singbox-bridge/main.go:63-70 | a stop moves to a generation that no waiting call has sampled |
| EngineTheorems.AtMostOneStarted | singbox-bridge/main.go:140-289 | in every reachable state at most one engine is started and not closed |
| EngineTheorems.FieldsTogether | singbox-bridge/main.go:174-177 | instance, cancel, config and ctx are set together for the started engine and its configuration, or all unset; a published listener belongs to the published engine |
| EngineTheorems.ReloadOutcome | singbox-bridge/main.go:187-270 | what a whole reload leaves, whatever cancels it: everything untouched if no candidate was built; else the candidate, or an engine rebuilt from the previous configuration, or nothing, with the previous engine closed |
| EngineReloads.ReloadDecided | singbox-bridge/main.go:187-270 | which ending a reload has, in any interleaving: the candidate exactly if it started uncancelled, the previous configuration exactly if a rebuilt engine did, nothing exactly if a candidate was built and neither came up, and no change exactly if none was built |
| EngineReloads.CancelledExactly | singbox-bridge/main.go:34-70 | the context of a startup under way is cancelled exactly when a cancel or stop came after it was opened |
| EngineTheorems.Runtime.CancelStartup | singbox-bridge/main.go:63-70 | moves the generation on and cancels a startup under way |
| EngineTheorems.Runtime.BeginStartup | singbox-bridge/main.go:46-55 | opens a startup exactly when the sampled generation is current |
| EngineTheorems.Runtime.FinishStartup | singbox-bridge/main.go:57-61 | ends the startup and cancels its context unless it is kept |
| EngineTheorems.Runtime.CloseCurrent | singbox-bridge/main.go:216-221 | unsets everything and closes exactly the published engine |
| EngineTheorems.Runtime.TryEngine | singbox-bridge/main.go:162-173 | an engine that does not start, or whose context is cancelled by then, is closed again |
| EngineTheorems.Runtime.StartRuntime | singbox-bridge/main.go:140-180 | publishes exactly when nothing runs, the generation is current and the engine starts uncancelled; else changes nothing published |
| EngineTheorems.Runtime.TakeOver | singbox-bridge/main.go:213-242 | the previous engine goes before the candidate starts, and only an uncancelled candidate is published |
| EngineTheorems.Runtime.RestorePrevious | singbox-bridge/main.go:247-270 | an engine rebuilt from the previous configuration, or nothing |
| EngineTheorems.Runtime.Replace | singbox-bridge/main.go:213-243 | what follows a built candidate: it takes over, or the previous configuration comes back, or nothing runs, and when each |
| EngineTheorems.Runtime.ReloadRuntime | singbox-bridge/main.go:187-243 | the cases of reload and rollback, and when each occurs |
| EngineTheorems.Runtime.StopRuntime | singbox-bridge/main.go:277-289 | leaves nothing published, nothing started and a new generation |
| WebSocketFrames.ParseExtends | c/src/clash_websocket.c:710-738 | bytes that arrive later do not change a frame that was parsed, or an oversized verdict |
| WebSocketFrames.IncompleteIsShort | c/src/clash_websocket.c:728-729 | an incomplete frame is shorter than 14 bytes more than the size limit |
| WebSocketFrames.ReadEight | c/src/clash_websocket.c:721-725 | the loop over an eight-byte length gives its big-endian number |
| WebSocketFrames.ReadLength | c/src/clash_websocket.c:713-725 | the three length forms, read as big-endian numbers |
| WebSocketFrames.UnmaskInPlace | c/src/clash_websocket.c:730-731 | each payload byte is unmasked once, with its mask byte, and nothing else changes |
| WebSocketFrames.NextFrame | c/src/clash_websocket.c:710-738 | agrees with the parser specification on the buffer from the offset on, and changes no byte outside the payload |
| WebSocketFrames.ParseEncoded | c/src/clash_websocket.c:710-738 | parsing inverts the encoding of section 5.2 of RFC 6455 for all three length forms, masked or not, whatever follows |
| WebSocketFrames.WriteFrame | c/src/clash_websocket.c:440-443 | writes the two head bytes, the mask and the masked payload, each byte with its mask byte |
| WebSocketFrames.UpstreamFrame | c/src/clash_websocket.c:435-445 | writes the encoding of the payload cut to 125 bytes |
| WebSocketFrames.SendRoundTrip | c/src/clash_websocket.c:435-445 | what is sent parses back to the same opcode, fin set and the payload cut to 125 bytes, for every mask and whatever follows |
| WebSocketRelay.FramesExtend | c/src/clash_websocket.c:776-822 | parsing in two pieces gives the frames of parsing at once |
| WebSocketRelay.ChunkingInvariant | c/src/clash_websocket.c:755-850 | however a stream is cut into reads, the relay ends in the state of the whole stream |
| WebSocketRelay.RelayedFrames | c/src/clash_websocket.c:755-850 | any cutting relays exactly what the parsed frames say, and ends on an oversized one |
| WebSocketRelay.BufferBound | c/src/clash_websocket.c:755-850 | the buffer stays below 14 bytes plus the size limit plus one read |
| WebSocketRelay.Reassembly | c/src/clash_websocket.c:777-815 | on frames that follow section 5.4 of RFC 6455 each data message reaches the browser whole and in order, with control frames passed on as they come |
| WebSocketRelay.ReassemblyToClose | c/src/clash_websocket.c:777-815 | the same up to a close frame, which is passed on and ends the relay whatever frames follow |
| WebSocketRelay.StreamIsRelayed | c/src/clash_websocket.c:755-850 | the same from bytes: any masking, any cutting into reads, with or without a close frame at the end and anything after it |
| WebSocketRelay.PrefixIsRelayed | c/src/clash_websocket.c:755-850 | at any moment of such a stream either side has been sent a beginning of what it is to get, and the relay has ended only after a close frame and everything before it |
| WebSocketRelay.Pump.Append | c/src/clash_websocket.c:845-845 | a read is appended to the buffer, which grows when full |
| WebSocketRelay.Pump.HandleFrame | c/src/clash_websocket.c:777-815 | one frame does what the specification says, also when the answer to a ping cannot be written upstream |
| WebSocketRelay.Pump.Compact | c/src/clash_websocket.c:818-822 | the unparsed bytes move to the front |
| WebSocketRelay.Pump.TakeFrame | c/src/clash_websocket.c:776-776 | the next frame of the buffer is the parser's, and the bytes behind it are as they came |
| WebSocketRelay.Pump.Drain | c/src/clash_websocket.c:770-822 | the loop over a real buffer, unmasking in place, agrees with the specification |
| WebSocketRelay.Pump.Receive | c/src/clash_websocket.c:837-845 | one read feeds the specification one chunk |
| DomainGroups.OverlapIsCommonName | apple/Core/core.c:255-259 | two suffixes overlap if and only if some name is matched by both |
| DomainGroups.CheckDomain | apple/Core/core.c:234-254 | accepts exactly the names whose labels are all well formed |
| DomainGroups.AddDomain | apple/Core/core.c:287-297 | accepts a name exactly when it is valid and overlaps none before it |
| DomainGroups.CheckGroups | apple/Core/core.c:273-302 | accepts exactly the lists of at most 32 groups that are well formed, with unique ids and pairwise disjoint domains across all groups |
| DomainGroups.CheckSettings | apple/Core/core.c:260-302 | accepts exactly the settings with no other key, a selected tag that is empty or a text of at most 512 bytes, and groups as above |
| DomainGroups.AtMostOneGroup | apple/Core/core.c:260-302 | no name belongs to two groups of an accepted list |
| RuleOrder.ProtectPrefix | apple/Core/core.c:385-394 | the in-place loop is a stable partition, and counts its first part |
| RuleOrder.KeptIsSubsequence | apple/Core/core.c:385-394 | each part is a subsequence in the original order |
| RuleOrder.NonePassedOver | apple/Core/core.c:385-394 | a rule is in the part its protection says, and only there |
| RuleOrder.NothingLost | apple/Core/core.c:385-394 | nothing is lost or duplicated |
| RuleOrder.PartitionSettles | apple/Core/core.c:385-394 | partitioning again changes nothing |
| RuleOrder.ControlIsProtected | apple/Core/core.c:367-384 | the rules the builder itself puts first count as protected |
| RuleOrder.InsertGroups | apple/Core/core.c:628-653 | fails exactly on a group without a usable outbound; else puts the groups in preference order behind the protected rules, each with its resolver |
| RuleOrder.BuildRules | apple/Core/core.c:626-677 | the final lists: sniff, hijack-dns, the control host, protected rules, groups, the rest |
| RuleOrder.GroupNameExits | apple/Core/core.c:626-677 | under first-match routing a group's name that no protected rule hits leaves by the group's exit |
| RuleOrder.GroupNameResolves | apple/Core/core.c:643-652 | its DNS query, if no protected DNS rule hits it, goes to the group's own resolver |
| RuleOrder.GroupDnsSameExit | apple/Core/core.c:643-648 | that resolver is found under its tag and dials through the group's exit, or, if that exit is an outbound of type direct, without a detour |
| RuleOrder.OtherNamesUndisturbed | apple/Core/core.c:628-653 | a name of no group is routed as if there were no groups |
| OutboundTags.CutPoint | apple/Core/core.c:205-209 | the longest cut of at most 220 bytes that splits no character |
| OutboundTags.Crowded | apple/Core/core.c:203-211 | only as many candidates can be taken as there are tags |
| OutboundTags.FreshTag | apple/Core/core.c:201-211 | the renaming loop ends, with the first free candidate |
| OutboundTags.ImportTags | apple/Core/core.c:186-215 | the imported tags are pairwise distinct, one for each compatible node up to 256 |
| OutboundTags.AddSubscription | apple/Core/core.c:505-536 | takes a subscription exactly when it is well formed, fits, and all its tags are new |
| OutboundTags.BuildTags | apple/Core/core.c:415-563 | succeeds exactly when there are at most 32 subscriptions and the tags can be built, with the listed result, pairwise distinct |
| OutboundTags.BuiltTagsDistinct | apple/Core/core.c:539-563 | the tags of a built runtime are pairwise distinct, the generated direct and selector tags included |
| RouteLedger.UpdateKeepsTable | c/src/agent_clash.c:594-661 | every report keeps keys and ids unique, at most 1000 entries, and counters non-negative |
| RouteLedger.RunKeepsTable | c/src/agent_clash.c:594-661 | the same over every run, evictions included |
| RouteLedger.AddRecords | c/src/agent_clash.c:467-495 | without eviction adding credits exactly one route with exactly what was given |
| RouteLedger.SubtractRecords | c/src/agent_clash.c:497-506 | subtracting takes exactly what was credited: no clamp at zero takes effect |
| RouteLedger.MovedOut | c/src/agent_clash.c:634-643 | a rerouted connection leaves its route alone and with exactly its credited bytes |
| RouteLedger.EvictionUnbalances | c/src/agent_clash.c:471-476 | an eviction forgets a route that still has connections credited to it |
| RouteLedger.EvictionHappens | c/src/agent_clash.c:471-476 | from the empty table, a report of 1001 routes evicts and leaves the table out of step with its connections |
| RouteLedger.TrackBalanced | c/src/agent_clash.c:603-651 | an entry keeps every route's counters equal to the sums over closed and live connections if and only if it evicts nothing from the table left once a moved connection is off its old route |
| RouteLedger.UpdateBalanced | c/src/agent_clash.c:594-661 | a whole report without eviction does too, moving what it no longer shows to the closed connections |
| RouteLedger.RunBalanced | c/src/agent_clash.c:594-661 | over any run without an eviction the table says what the connections add up to |
| RouteLedger.Table.FindStat | c/src/agent_clash.c:452-457 | the first entry with the key |
| RouteLedger.Table.EvictOldest | c/src/agent_clash.c:471-476 | removes the first of the entries seen longest ago |
| RouteLedger.Table.AddRoute | c/src/agent_clash.c:467-495 | the table and sequence of the specification |
| RouteLedger.Table.SubtractRoute | c/src/agent_clash.c:497-506 | the table of the specification, with the entry erased when nothing is left |
| RouteLedger.Table.TrackEntry | c/src/agent_clash.c:604-651 | one entry: new, moved, grown, or not nameable |
| RouteLedger.Table.Sweep | c/src/agent_clash.c:652-661 | keeps exactly the seen connections, in order |
| RouteLedger.Table.UpdateStats | c/src/agent_clash.c:594-661 | a whole report, the error path in the middle of it included |
| MfaState.ChangesLogOut | c/src/auth_security.c:502-702 | a confirmed enrolment, a disabled factor and a new role leave no challenge and no unrevoked session but the kept one |
| MfaState.AlwaysAnAdmin | c/src/auth_security.c:675-702 | changing roles never removes the last administrator |
| MfaState.SessionsAreFew | c/src/auth_security.c:194-199 | after pruning a user has at most a hundred sessions |
| MfaState.IssuedIsKept | c/src/auth_security.c:183-200 | an issued session survives its own pruning if and only if fewer than a hundred of the user's sessions bear a later time |
| MfaRuns.NextOneTime | c/src/auth_security.c:385-668 | every transaction keeps accepted steps and recovery codes spent and stored secrets apart |
| MfaRuns.CodesAreOneTime | c/src/auth_security.c:385-668 | in no run is a step of a secret, or a recovery code, accepted twice |
| MfaTheorems.AttemptLimit | c/src/auth_security.c:374-381 | with a clock that does not go back, n rejections of a user without a success or a disabled factor between them span at least 300 * floor((n-1)/5) seconds |
| MfaTheorems.SessionOrigin | c/src/auth_security.c:143-202 | a session issued while the second factor is enabled comes from a login with an unexpired, rightly bound challenge and an accepted code, and takes exactly that challenge away |
| MfaTheorems.ChallengesAreOneTime | c/src/auth_security.c:625-668 | no challenge is used for two sessions |
| MfaTheorems.TablesStaySmall | c/src/auth_security.c:581-619 | in every reachable state a user has at most ten challenges and a hundred sessions |
| MfaTheorems.ClockGoesBack | c/src/auth_security.c:183-200 | after a hundred logins, one at an earlier time is answered and its session is in no table |
| AuthStore.FindStep | c/src/auth_security.c:415-425 | the loop finds the latest of the three steps whose code this is |
| AuthStore.Store.FailedLocked | c/src/auth_security.c:374-381 | counts a rejection, and locks after the fifth |
| AuthStore.Store.VerifyLocked | c/src/auth_security.c:385-444 | the tables and outcome of the specification |
| AuthStore.Store.BeginEnrolment | c/src/auth_security.c:475-500 | sets the pending secret and nothing else of an existing row |
| AuthStore.Store.InsertCodes | c/src/auth_security.c:530-540 | all new recovery codes are stored unused |
| AuthStore.Store.ConfirmEnrolment | c/src/auth_security.c:508-548 | the transaction of the specification, rejected attempts included |
| AuthStore.Store.DisableMfa | c/src/auth_security.c:561-579 | removes the factor and its codes and logs the user out |
| AuthStore.Store.IssueLocked | c/src/auth_security.c:143-202 | refuses a malformed method or label, an unknown user, and one whose factor is enabled and not completed; else adds the session and prunes |
| AuthStore.Store.CompleteLogin | c/src/auth_security.c:625-668 | a rejected code is kept as counted; a failure after an accepted one is rolled back with it |
| Radix.DecodeEncode | c/src/auth_security.c:317-366 | dropping the spare bits undoes appending them, for 5- and 6-bit values |
| Radix.EncodeDecode | c/src/auth_security.c:317-331 | the converse, exactly when fewer bits are spare than one value holds |
| Radix.ShiftIn | c/src/auth_security.c:326-327 | one value shifted into a wrapping 32-bit accumulator, with a byte put out when eight bits are there |
| Base64.EmitGroup | apple/Core/support.c:254-263 | one group of up to three bytes, with its padding |
| Base64.EncodeBytes | apple/Core/support.c:245-266 | the loop gives the encoding of the whole |
| Base64.ScanLoop | apple/Core/support.c:290-337 | the decoding loop, in all three modes, with an accumulator that wraps |
| Base64.DecodeText | apple/Core/support.c:290-343 | the decoder of the specification, errors included |
| Base64.RoundTrip | apple/Core/support.c:245-343 | decoding inverts encoding for all byte strings |
| Base64.StrictIsCanonical | apple/Core/support.c:290-343 | the strict modes accept a text for some bytes if and only if it is their canonical encoding |
| Base32.DecodeSecret | c/src/auth_security.c:317-331 | the decoder of the specification; never writes past 80 bytes |
| Base32.NewSecret | c/src/auth_security.c:354-366 | twenty bytes become their 32 symbols |
| Base32.SecretRoundTrip | c/src/auth_security.c:317-366 | decoding inverts encoding for secrets of every length the decoder takes |
| Base32.DecodedIsBounded | c/src/auth_security.c:317-331 | at most 80 bytes are written, and the text is canonical if and only if its length leaves no surplus symbol |
| Base32.SurplusSymbolAccepted | c/src/auth_security.c:317-331 | a text with a surplus symbol that decodes |
| UrlText.EncodeText | apple/Core/support.c:382-392 | the encoding loop |
| UrlText.DecodeText | apple/Core/support.c:366-380 | the decoding loop |
| UrlText.UrlRoundTrip | apple/Core/support.c:366-392 | decoding undoes encoding on text without NUL |

## Left out

- Object identity: Go objects are places in append-only lists; garbage collection and the reuse of addresses are not modelled.
- The timer that triggers expire: only that expire may happen at any time or never.
- ProxyManager.Manager.ApplyMessage: the three regions run one after another; steps between them are in `LeaseRuns`, where the list of passwords is not kept.
- ProxyManager.Manager.TryReset: one round; the two-second polling loop around it is a step that other steps may come between.
- Closing connections after a region unlocks: close is a step of its own that may happen at any later time, or not at all.
- WebSocketRelay.Pump: the 30-second pings, the renewed authorization check and a browser that goes away end or add to the relay from outside and are not modelled.
- EngineLifecycle.NextInv: the 64-bit generation counter is unbounded, so its wrap-around is not modelled.
- RouteLedger.Table.AddRoute: counters are unbounded, so 64-bit overflow is not modelled.
- RuleOrder.Protected: a field is present or absent as parsed; how the JSON was written is not modelled.
- Validity of single nodes, rule sets and endpoints, and the fixed inbound, log and cache sections of a built runtime: field by field copying.
- AuthStore.Store.VerifyLocked: a secret that cannot be decrypted, and statements that fail in the database, are not modelled.
- MfaState.ChangesLogOut: revoking one session by its id, and logout, which revoke a single row, are not modelled.
- Deleting users, listing sessions, device scopes and OpenID Connect logins: only easy members.
- The SHA-256, HMAC, AES-GCM and TOTP computations, TLS, sockets and the engine library: inputs or uninterpreted functions.
- JSON decoding with its duplicate-key and shape checks: the model starts from parsed messages.
- The sort order of the route report, the C lease server and the agent's HTTP plumbing.
