# Verification of the NuoRDS proxy

A Dafny 4.11 model of the NuoRDS proxy daemon with machine-checked proofs. `dafny verify dfyconfig.toml`
checks all of it.

## What is modelled

- **Proxy core** (`Model`, `RouteTable`, `Steps`, `Runs`, `Proxy`). Routes are heap objects shared by the
  cache and by channels; the heap is an explicit map, so that a freed pointer is one that the map no longer
  holds, and every dereference has to show that its pointer is still there. `Proxy.ProxyServer` holds the
  fields of the source's proxy and cache objects and follows the source's methods, including the two loops of
  the sweep, the search and erase of `del_channel`, and the channel loop that erases and appends while it
  counts. Each method is proved equal to a function of module `Steps` or `RouteTable`; the theorems are about
  every run of these functions. Channels and servers are records in sequences, named by identity or position.
- **Sweep** (`SweepRefinement`), **failover** (`FailoverBound`), **slot limits** (`SlotLimits`), **connections**
  (`Connections`) and **cache hits** (`CacheHits`): what the cache amounts to for its callers, how long failover can
  go on, exactly when a limit is passed, who is connected, on whose account, and when a redundant server is used, and
  what a cache hit does not check. **Server health** (`FaultLimits`, `TrackerEffects`): exactly when failed
  connections switch a server off, and what each message about a server means for its later choice.
- **Load balancer** (`Scores`, `Selector`, `Fairness`): scores and the same comparison in integers, the two-round
  selector, the balancer walk with its
  candidate vector that is never cleared, how a run of admissions spreads, and that arrivals at a proxy with one
  balancer and no cache are such a run.
- **Byte relay** (`Relay`): the two buffers of a channel with their partial reads, partial writes, moves and
  growth; the sockets a channel waits for.
- **Reader/writer lock** (`RwLock`) over a recursive mutex, for any number of threads and any interleaving of
  its critical sections.
- **Prefix matching** (`Inet`), **dynamic array** (`Vector`), **server list** of the tracker (`ServerList`, `SilentServers`),
  **line endings** (`LineEndings`), **configuration strings** (`ConfigStrings`, `ConfigLaws`), **buffer size** (`BufferSize`).

Parameters of the model, in place of calls to the system: socket results, the address of a peer, clock
readings (which never go back), handles of new sockets (which are not open), and the junk that the sweep time
holds because the cache's constructor does not set it. One of these is an assumption that `FailoversAreBounded`,
`FailoverProgress` and `Proxy.ProxyServer.Pass` rest on: the address that a failover reads from the source socket,
if it can be read, is the host that the channel's route was made for. Integers are unbounded except for the age of a tracker
entry, which is taken modulo 2^32 as in the source. Scores are real numbers. The configuration is taken as
its loader leaves it: weights of at least 1, server limits of at least 1, a fault limit of at least 1.

A channel record repeats the server and client of its route and remembers whether the route was selected or
came from the cache; a route record remembers the source host it was made for. These fields are fixed when
the record is made and only serve the statements.

## Where code and documentation differ

- `doc/CONFIG.md` says that a client group with `max_slots` 0 prevents connections from the group, and the
  loader (`src/nrdpx_server.cpp:1193`) that it should block its subnets. The code passes over full groups
  before it compares sources, so a later group can admit the address: `CacheHits.BlockedGroupConnects` is such a
  configuration, with a run that connects the address. The exact condition on the configuration: some run from the
  start connects a host if and only if some balancer with a server lists a group of at least one slot that matches
  it (`Connections.ConnectsIffProvided`). The exact condition for one creation, in any consistent state: a channel
  is made if and only if the peer is known, the connection attempt starts, and either the cache shows a route of the
  host that does not lead to the server to avoid, or some balancer has a group with a free slot that matches and an
  eligible server (`Connections.CreateConnectsIff`).
- `doc/CONFIG.md` says that a redundant server is not involved as long as a non-redundant one has a free slot.
  `CacheHits.RedundantServerIsInvolved` is a run in which one is, because the other server, with all its slots free,
  is not active. The exact condition (`Connections.CreateUsesRedundantIff`): a creation that succeeds uses a
  redundant server if and only if it joins a cached route to one, or it joins none and the first balancer that can
  serve the host has no server that is not redundant, not to be avoided, active, and below its slot and user limits.
- `doc/CONFIG.md` calls `max_slots` of a server the maximum number of connections. The code does not check it
  for a host that is in the cache. `CacheHits.LimitCanBeExceeded` is a run of two connections that puts two
  channels on a server configured for one. The exact condition, for servers and client groups alike: a creation
  passes a limit that held if and only if the peer is known, the connection attempt starts, the cache shows a
  route of the host that leads there and not to the server to avoid, and the last slot is taken
  (`SlotLimits.CreateOverfillsIff`); over a whole run the limit holds throughout if and only if no step joins such
  a route while all slots are taken (`SlotLimits.LimitHoldsIffNoFullJoin`). `Runs.AdmissionNeverExceedsLimits`
  proves the limit for channels admitted by selection, and for all channels when caching is off.
- `doc/CONFIG.md` gives 10 as the smallest cache timeout, the loader 5. The proofs hold for any timeout.
- Two readers of the lock that both ask to write never get there (`RwLock.UpgradingReadersStarve`). The exact
  condition: while some threads do not end their readings, a thread can still get to write if and only if none of
  the others among them is reading (`RwLock.WriterGetsInIff`).

## Model

| member | source | states |
|---|---|---|
| Runs.ReachableRoutes | src/nrdpx_server.cpp:109-228 | after any run from an empty proxy: no live channel refers to a freed route, a route is marked cached iff it sits in the cache under its own source host, an uncached route has exactly one channel (none is shared, none is lost) |
| Runs.ReachableSlots | src/nrdpx_server.cpp:186-228 | after any run the slot counters of routes, servers and clients are the numbers of live channels through them |
| Runs.ReachableHandles | src/nrdpx_server.cpp:753-758 | after any run, failovers included, every open handle is one side of exactly one channel, and channels own only open handles |
| Runs.AdmissionNeverExceedsLimits | src/nrdpx_server.cpp:1431-1459 | over any run, channels admitted by selection stay within the limits configured at the start for their server and client group although reports lower limits; with caching off the whole counters of both do |
| Runs.ConfiguredLimitsStay | src/nrdpx_server.cpp:1728-1733 | reports never raise a server's limit, and nothing changes a configured or a client limit |
| Runs.StepKeepsInv | src/nrdpx_server.cpp:654-872 | every step (accept, failover, close, connect, activation, deactivation, report) keeps routes, counters, handles, fault counts below the limit, and that without caching every channel was selected |
| Runs.StepKeepsFaults | src/nrdpx_server.cpp:745-751 | a server's fault count stays below the fault limit |
| FaultLimits.FailoverFaults | src/nrdpx_server.cpp:744-751 | a failover counts one fault for the failed channel's server, which stays active iff it was and the count is below the limit, and else starts again from 0; no other server's activity or faults change |
| FaultLimits.SwitchedOffIff | src/nrdpx_server.cpp:744-751 | over any run in which nobody else switches a server and no connection to it succeeds, it is switched off iff its faults and the failed connections together reach the limit |
| FaultLimits.SwitchedOffAfterSuccess | src/nrdpx_server.cpp:343-352 | after a success exactly max_faults failed connections in a row switch an active server off |
| FaultLimits.ClearedCount | src/nrdpx_server.cpp:910-919 | a success or a deactivation clears the fault count |
| TrackerEffects.EligibleIff | src/nrdpx_server.cpp:1449-1456 | a candidate is active, has a free slot, and fewer users than it allows, which are 65535 unless it says so |
| TrackerEffects.SwitchingOff | src/nrdpx_server.cpp:910-919 | a server that is switched off is not eligible, and its memory and CPU no longer count |
| TrackerEffects.SwitchingOn | src/nrdpx_server.cpp:903-908 | switching on makes a server with room eligible and changes nothing else |
| TrackerEffects.ReportMeans | src/nrdpx_server.cpp:1724-1738 | after a report a server is eligible iff it said that it is active and has fewer users than it allows, and has a free slot within the limit, which only SYNC lowers; its resources are the reported ones, faults and slots stay |
| TrackerEffects.ConnectMeans | src/nrdpx_server.cpp:343-352 | a first connection marks the channel and clears the faults of its own server, and changes nothing else |
| RouteTable.ClampsNeverFire | src/nrdpx_server.cpp:217-225 | all three counters are at least 1 when a channel is destroyed, so the clamps at 0 never change a result |
| RouteTable.UncachedHasOneChannel | src/nrdpx_server.cpp:220-221 | if two channels share a route it is cached, so the destructor frees no route that another channel uses |
| RouteTable.DestroyKeepsCore | src/nrdpx_server.cpp:207-228 | destroying any channel keeps the invariant of routes, cache, channels and counters |
| RouteTable.AttachKeepsCore | src/nrdpx_server.cpp:186-205 | so does a new channel on a cached or a brand-new route |
| RouteTable.FindKeepsCore | src/nrdpx_server.cpp:109-151 | the sweep and the expiry of the key looked up keep the invariant; a returned route is live, cached under the key and unchanged |
| RouteTable.SweepIsExact | src/nrdpx_server.cpp:117-136 | at most once an hour, a sweep frees exactly the cached routes without channels whose timeout is over and erases exactly their entries |
| RouteTable.AddKeepsCore | src/nrdpx_server.cpp:153-171 | adding an uncached route keeps the invariant, also when the key is refused |
| Steps.CreateKeepsCore | src/nrdpx_server.cpp:1385-1555 | channel creation keeps the invariant on every path, with a stale cached route that could not be removed too |
| Steps.CreateShape | src/nrdpx_server.cpp:1535-1555 | creation either appends one channel with the given source and the new target, or closes the source and leaves the list alone |
| Steps.CreateServers | src/nrdpx_server.cpp:1385-1555 | creation changes nothing but slot counters in the records of servers and clients |
| SweepRefinement.SweepIsUnobservable | src/nrdpx_server.cpp:105-151 | for any initial sweep time the proxy makes the same runs as one whose cache is a plain map with timeouts, ending with the same channels over the same routes, counters and sockets |
| SweepRefinement.SameFind | src/nrdpx_server.cpp:109-151 | a lookup returns the same route as the plain map |
| SweepRefinement.SameInsert | src/nrdpx_server.cpp:153-171 | in channel creation, adding succeeds in the swept cache iff it does in the plain map |
| SweepRefinement.CachedRouteLifetime | src/nrdpx_server.cpp:143-150 | after its last channel ends at t, a cached route is found exactly until t plus the timeout |
| SweepRefinement.BusyRouteIsFound | src/nrdpx_server.cpp:128-129 | a cached route with a live channel is found at any time |
| FailoverBound.FailoversAreBounded | src/nrdpx_server.cpp:735-761 | over any run without a successful connection or a reactivation, one client connection is passed on at most 3 * servers * max_faults + 3 times |
| FailoverBound.FailoverDecreases | src/nrdpx_server.cpp:744-758 | each failover lowers three times the fault credit of the active servers plus the rank of the channel |
| FailoverBound.QuietStep | src/nrdpx_server.cpp:735-761 | no other step of such a run raises that measure for the connection |
| FailoverBound.LiveCachedRouteIsFound | src/nrdpx_server.cpp:1409-1414 | a cached route whose failing channel is still live is always found, and its removal always refused |
| FailoverBound.BypassGoesToActive | src/nrdpx_server.cpp:1411-1461 | failing over from a cached route leads to an active server, or to no server |
| FailoverBound.FailoverProgress | src/nrdpx_server.cpp:717-761 | a failover inside a pass lowers the lexicographic measure of the pass although it may append a channel |
| SlotLimits.CreateOverfillsIff | src/nrdpx_server.cpp:1409-1459 | creation, from any server to avoid, takes a server or client group past a limit that held iff it joins a cached route there and the last slot is taken |
| SlotLimits.AcceptOverfillsIff | src/nrdpx_server.cpp:1409-1459 | the same for an accepted connection and the current limit |
| SlotLimits.FailoverOverfillsIff | src/nrdpx_server.cpp:744-758 | the same for a failover, unless the failed channel was itself one of those counted |
| SlotLimits.StepOverfillsIff | src/nrdpx_server.cpp:186-228 | no other step takes a counter past a limit |
| SlotLimits.LimitHoldsIffNoFullJoin | src/nrdpx_server.cpp:1409-1416 | over any run, a limit holds at every moment iff no step joins a cached route while all slots are taken |
| Connections.CreateLands | src/nrdpx_server.cpp:1385-1555 | creation adds one channel for the peer's host to the server and client group of the usable cached route or else of the balancers' choice, and one slot to just these two; or no channel and no slot |
| Connections.CreateChargesFirstAdmitting | src/nrdpx_server.cpp:1422-1462 | without a usable cached route, a new channel counts for the first group with a free slot that matches, in the list of the first balancer that can serve the host, and goes to that balancer's unbeaten server; only these two gain a slot |
| Connections.CreateJoinsRoute | src/nrdpx_server.cpp:1409-1416 | with one, it joins that route, whose server and group gain the slot, and whose own count and activity time are updated |
| Connections.LiveChannelsFit | src/nrdpx_server.cpp:1422-1462 | after any run every live channel's group has slots and matches the host of its route, and some balancer lists both the group and the server |
| Connections.RefusalForgetsIdleRoute | src/nrdpx_server.cpp:1535-1547 | after a creation that made no channel, an idle route of the host is not found any more |
| Connections.CreateConnectsIff | src/nrdpx_server.cpp:1385-1555 | creation makes a channel, one and for its peer's host, iff the peer is known, the attempt starts, and the cache has a usable route or some balancer can serve the host |
| Connections.ConnectsIffProvided | src/nrdpx_server.cpp:1422-1462 | some run from the start connects a host iff some balancer with a server lists a group of at least one slot that matches it |
| Connections.CreateUsesRedundantIff | src/nrdpx_server.cpp:956-1017 | creation puts its channel on a redundant server iff it joins a cached route to one, or the first balancer that can serve the host has no eligible non-redundant server but the one to avoid |
| Connections.AcceptUsesRedundantIff | src/nrdpx_server.cpp:956-1017 | the same for an accepted connection |
| CacheHits.BlockedGroupConnects | src/nrdpx_server.cpp:1428-1443 | a run that connects an address of a group without slots, because a later group matches it too |
| CacheHits.RedundantServerIsInvolved | src/nrdpx_server.cpp:956-1017 | a run that uses a redundant server while a non-redundant one has free slots |
| CacheHits.HitIgnoresLimits | src/nrdpx_server.cpp:1409-1416 | a host that is visible in the cache joins that route and server whatever the limits say |
| CacheHits.LimitCanBeExceeded | src/nrdpx_server.cpp:1409-1416 | a run that puts two channels on a server configured for one |
| CacheHits.BlockedGroupLetsLaterGroupMatch | src/nrdpx_server.cpp:1428-1443 | the group search of one list finds none iff no listed group with a free slot matches; a full group does not keep a later one from matching |
| Selector.SelectServer | src/nrdpx_server.cpp:947-1020 | the two-round loop returns the one pick that comparison of integers determines; it never divides by zero |
| Selector.PickIsUnique | src/nrdpx_server.cpp:956-1017 | a result is the earliest server of maximal score among eligible non-redundant ones, or among redundant ones when there are none, or nothing when there is no eligible server, iff it is the pick |
| Selector.PickIsUnbeaten | src/nrdpx_server.cpp:956-1017 | the same without scores: no server of the round beats the pick by the cross-multiplied comparison of weight, memory, CPU and capacity, and it beats every earlier one |
| Selector.PickIsNotOutdone | src/nrdpx_server.cpp:977-1013 | no candidate that differs from the pick only in more weight, or in more free memory or CPU or fewer connections where these count, is passed over |
| Selector.PickByWeight | src/nrdpx_server.cpp:977-1013 | with no metric the pick is the earliest server of greatest weight in its round |
| Selector.PickIgnoresOtherMetrics | src/nrdpx_server.cpp:979-991 | free memory and CPU have no effect unless their metric is on |
| Selector.CandidatesInOrder | src/nrdpx_server.cpp:1449-1456 | candidates come in list order |
| Selector.OneCandidate | src/nrdpx_server.cpp:1449-1456 | a listed server is a candidate iff it is eligible and not the one to avoid |
| Scores.BeatsIff | src/nrdpx_server.cpp:977-1009 | a higher score is a win in the cross-multiplied comparison of integers, for any two servers, weights and metrics |
| Scores.OutdoesBeats | src/nrdpx_server.cpp:977-1009 | more weight, more free memory or CPU where it counts, or fewer connections where they count, is a win |
| Selector.PickRedundantIff | src/nrdpx_server.cpp:956-1017 | the pick is redundant iff no eligible candidate is not |
| Selector.PickExists | src/nrdpx_server.cpp:1447-1461 | with weights of at least 1, selection yields a server, one of the candidates, iff there are candidates |
| Selector.TryBalancer | src/nrdpx_server.cpp:1425-1461 | a round of the walk that finds no server leaves the uncleared candidate vector empty, and its offer comes from its own balancer |
| Selector.FindRoute | src/nrdpx_server.cpp:1422-1462 | the walk yields the specified choice although the vector of candidates is never cleared |
| Selector.ChosenRouteIsConsistent | src/nrdpx_server.cpp:1422-1462 | a route is chosen iff some balancer can serve the source; it comes from the first such balancer, with its first client group that matches and has room, and an active server of it with room that is not the one to avoid |
| Selector.FirstClientExact | src/nrdpx_server.cpp:1428-1443 | the group found is the first of the list that has a free slot and a matching source; none is found iff there is none |
| Selector.FindClient | src/nrdpx_server.cpp:1428-1443 | the client loop finds the first group with a free slot and a matching source |
| Fairness.AdmissionsStayFair | src/nrdpx_server.cpp:956-1017 | from empty equal-weight servers, after any number of admissions: by busyness (c_i - 1) * l_j <= c_j * l_i, by requests c_i - 1 <= c_j or j is full |
| Fairness.CreateAdmits | src/nrdpx_server.cpp:1422-1462 | with one balancer and no cache, channel creation changes the servers by exactly one admission, or not at all when no group matches or no attempt starts |
| Fairness.ArrivalsAreSpreadFairly | src/nrdpx_server.cpp:956-1017 | after any run of the proxy in which connections only arrive, one balancer without a cache has kept those bounds |
| Proxy.ProxyServer.Sweep | src/nrdpx_server.cpp:117-136 | the two loops free exactly the stale routes and erase exactly their keys, at most once an hour |
| Proxy.ProxyServer.Find | src/nrdpx_server.cpp:109-151 | the sweep and the expiry of the one key equal the cache function; every deleted route was live until then |
| Proxy.ProxyServer.Add | src/nrdpx_server.cpp:153-171 | equals the cache function, and reports whether the key was new |
| Proxy.ProxyServer.Remove | src/nrdpx_server.cpp:173-182 | equals the cache function, which refuses busy routes |
| Proxy.ProxyServer.NewChannel | src/nrdpx_server.cpp:186-205 | the constructor's change to route, client and server |
| Proxy.ProxyServer.DestroyChannel | src/nrdpx_server.cpp:207-228 | the destructor's whole new state; both sockets were still open |
| Proxy.ProxyServer.DeleteChannel | src/nrdpx_server.cpp:423-435 | the search erases exactly the channel asked for, and nothing when it is not there |
| Proxy.ProxyServer.CreateChannel | src/nrdpx_server.cpp:1385-1555 | the statements of channel creation make exactly the step of the specification |
| Proxy.ProxyServer.FailOver | src/nrdpx_server.cpp:744-758 | counting the fault, creating the replacement, handing over the source and dropping the failed channel make exactly the failover step, whose effect on faults `FaultLimits` states |
| Proxy.ProxyServer.SetConnected | src/nrdpx_server.cpp:343-352 | a first connection marks the channel and clears the server's faults; later calls change nothing |
| Proxy.ProxyServer.ActivateServer | src/nrdpx_server.cpp:903-908 | activation sets the flag and nothing else |
| Proxy.ProxyServer.TrackerStep | src/nrdpx_server.cpp:1724-1738 | a callback's update of one server is one step of a run |
| Proxy.ProxyServer.DeactivateServer | src/nrdpx_server.cpp:910-919 | the five fields that deactivation resets |
| Proxy.ProxyServer.ReportServer | src/nrdpx_server.cpp:1724-1738 | a report replaces the info and, in SYNC mode, can only lower the limit |
| Proxy.ProxyServer.Handle | src/nrdpx_server.cpp:717-872 | a channel that is not connected fails over if its time is up or its socket has an error; any other becomes connected if the target answers and ends on a fatal error, if a socket was selected at all |
| Proxy.ProxyServer.Pass | src/nrdpx_server.cpp:717-872 | a pass ends, with any finite number of tracker callbacks between its iterations; it is a run of steps; it handles every channel present at its start and every channel appended meanwhile exactly once, in list order; a channel that was not connected at its start and whose time is up fails over |
| Relay.Buffer.Receive | src/nrdpx_server.cpp:768-782 | bytes read are appended; received = sent + waiting is kept |
| Relay.Buffer.Send | src/nrdpx_server.cpp:816-835 | the front of the waiting bytes is sent and the rest moves down, also after a partial send |
| Relay.Buffer.Grow | src/nrdpx_server.cpp:250-341 | growth keeps every waiting byte |
| Relay.Buffer.Drain | src/nrdpx_server.cpp:827-835 | repeated sends, however partial, deliver exactly what was received |
| Relay.Channel.SetConnected | src/nrdpx_server.cpp:250-352 | once per channel each buffer grows to what its two sockets report, or to the configured or built-in maximum, and never shrinks; no byte is lost |
| Relay.Channel.Read | src/nrdpx_server.cpp:768-782 | a ready socket yields as many of its bytes as there is room for; a fatal error ends the channel |
| Relay.Channel.Write | src/nrdpx_server.cpp:816-835 | a ready socket takes as many waiting bytes as it can; a fatal error ends the channel |
| Relay.Channel.Traffic | src/nrdpx_server.cpp:766-870 | how much each of the four stages moves, in this order up to a fatal error; each direction is FIFO and loses nothing; the channel counts as connected iff it did or the target was ready |
| Relay.Channel.Life | src/nrdpx_server.cpp:768-870 | over any number of passes from a new channel on, what was read from one side is what was sent to the other followed by what is waiting, and a receiver always holds a prefix of what was read |
| Relay.FillFds | src/nrdpx_server.cpp:439-490 | the two sets and the largest handle |
| Relay.SelectedExactly | src/nrdpx_server.cpp:460-487 | a socket is in a set iff some channel has room for its bytes, or bytes for it |
| Relay.SelectedForOne | src/nrdpx_server.cpp:460-487 | a socket is not selected for reading into a full buffer, nor for writing from an empty one |
| Relay.NeverDeaf | src/nrdpx_server.cpp:460-487 | every channel of the list is waited for in each direction: a socket of it is selected for reading or the other one for writing |
| RwLock.WriterExcludesAll | src/com/xtllib/xtl_thread.h:311-384 | in every interleaving: while a thread is in a write section no other thread has begun a read and not ended it, nobody else writes or can enter, its nested begin_write succeeds, its end_write gives the mutex back, and the mutex depth is its number of write sections |
| RwLock.WriteIffAlone | src/com/xtllib/xtl_thread.h:345-361 | with the mutex free for it, a thread's write attempt succeeds iff no other thread has an open read; a failure leaves the mutex free |
| RwLock.UpgradingReadersStarve | src/com/xtllib/xtl_thread.h:363-367 | two threads with open reads that both wait to write never enter, and keep everybody else out |
| RwLock.WriterGetsInIff | src/com/xtllib/xtl_thread.h:323-372 | when the threads of a set never end their readings, some continuation lets a thread write iff none of the others in the set is reading |
| RwLock.StayingReaderBlocks | src/com/xtllib/xtl_thread.h:345-361 | in no continuation does a write attempt succeed while another thread keeps reading |
| RwLock.StepKeepsInv | src/com/xtllib/xtl_thread.h:323-372 | every legal operation of any thread keeps the lock in step with the reads and write sections that the threads themselves count |
| RwLock.RwMutex.TryWriting | src/com/xtllib/xtl_thread.h:345-361 | the scanning loop succeeds iff all entries are the thread's own; then the flag is set and the mutex is held once more, else neither |
| RwLock.RwMutex.BeginReading | src/com/xtllib/xtl_thread.h:323-327 | one entry of the thread is appended, and the mutex is as before |
| RwLock.RwMutex.EndWriting | src/com/xtllib/xtl_thread.h:369-372 | the mutex is given back once if the flag is set |
| RwLock.RwMutex.EndReading | src/com/xtllib/xtl_thread.h:329-343 | exactly one entry of the thread is erased, the first, if it has any, and the mutex is as before |
| Inet.IsAddrInCidr | src/com/xtllib/xtl_inet.h:432-471 | the word loop and the shift decide membership of the address as one wide number, for every prefix |
| Inet.WordsMatch | src/com/xtllib/xtl_inet.h:440-456 | the four-word loop compares every word with its own shift |
| Inet.WordsDecide | src/com/xtllib/xtl_inet.h:443-456 | word by word comparison equals comparison of the shifted wide numbers |
| Inet.InPrefixIsQuotient | src/com/xtllib/xtl_inet.h:432-471 | membership is equality of the quotients by 2^(width - prefix) |
| Inet.InPrefixIsLeadingBits | src/com/xtllib/xtl_inet.h:432-471 | membership means that the first prefix bits agree (section 2.3 of RFC 4291) |
| Inet.LongerPrefixIsNarrower | src/com/xtllib/xtl_inet.h:432-471 | a longer prefix never admits more |
| Inet.BlocksPartition | src/com/xtllib/xtl_inet.h:432-471 | for a fixed prefix membership is an equivalence: reflexive, symmetric, and blocks that meet are equal |
| Inet.FullPrefixIsOneAddress | src/com/xtllib/xtl_inet.h:411-413 | a full prefix names one address |
| Inet.ZeroPrefixAdmitsAll | src/com/xtllib/xtl_inet.h:434-436 | prefix 0 admits the whole family and nothing else |
| Inet.OtherFamiliesDoNotMatch | src/com/xtllib/xtl_inet.h:434 | no prefix admits an address of another family |
| Inet.PrefixIsClamped | src/com/xtllib/xtl_inet.h:440-443 | prefixes out of range count as the nearest one in range |
| Vector.Vector.SetCapacity | src/com/xtllib/xtl_vector.h:119-149 | every reallocation keeps the contents and never has fewer cells than items |
| Vector.Vector.PushBack | src/com/xtllib/xtl_vector.h:370-382 | appends, or refuses at the maximal size; never builds over a live item |
| Vector.Vector.PopBack | src/com/xtllib/xtl_vector.h:384-392 | removes the last item, destroying it once; at most four pages of slack remain |
| Vector.Vector.Insert | src/com/xtllib/xtl_vector.h:433-465 | inserts before the position, or refuses |
| Vector.Vector.EraseRange | src/com/xtllib/xtl_vector.h:494-528 | removes the range, destroying each item once, or refuses; at most four pages of slack remain |
| Vector.Vector.Erase | src/com/xtllib/xtl_vector.h:467-492 | the same for one item; the end is left alone |
| Vector.Vector.Clear | src/com/xtllib/xtl_vector.h:394-405 | empties the vector; at most four pages remain |
| Vector.Vector.Resize | src/com/xtllib/xtl_vector.h:304-352 | cuts or fills up; cutting gives no memory back |
| Vector.Vector.Assign | src/com/xtllib/xtl_vector.h:216-236 | equal contents and capacity in new memory, the source unchanged; a vector assigned to itself stays as it is |
| Vector.Vector.Swap | src/com/xtllib/xtl_vector.h:535-543 | memory and size are exchanged, also with itself |
| ServerList.NobodyLeavesUnexcused | src/nrdnb_client.cpp:312-374 | after any run identifiers are unique, and a server that leaves other than by a clear of the list said IAMLOST or missed two refreshes since it was last heard or appended |
| SilentServers.SilentServerLeavesIff | src/nrdnb_client.cpp:312-374 | a server that stays silent over any run has left the list iff, in this order, it was listed by a check, a refresh came, another that gives up waiting servers, and a check; further states save the first of these |
| SilentServers.SilentServerIsDropped | src/nrdnb_client.cpp:312-374 | a listed server not heard through two refreshes, the second one with lostw, is gone after the next check |
| SilentServers.LostServerLeavesIff | src/nrdnb_client.cpp:345-350 | a known server that said IAMLOST and stays silent is gone iff a check came |
| SilentServers.SilentStep | src/nrdnb_client.cpp:312-374 | what one check or refresh makes of each state |
| SilentServers.AnyTooOldIff | src/nrdnb_client.cpp:359-364 | a check asks for a refresh iff an entry that is not lost is older than the refresh time, as an unsigned 32-bit number |
| ServerList.CheckIsFilter | src/nrdnb_client.cpp:345-368 | a check is the order-preserving filter of lost servers followed by HERE to LIST |
| ServerList.NewsIffChanged | src/nrdnb_client.cpp:347-370 | a change is reported iff the check changes the list |
| ServerList.Tracker.CheckServers | src/nrdnb_client.cpp:336-374 | the walk that erases while it goes equals that function, with the refresh when an entry is too old and the tracker's thread exists |
| ServerList.Tracker.OnDatagram | src/nrdnb_client.cpp:144-181 | an unknown server is appended as HERE, also by an IAMLOST; a known one is LOST by an IAMLOST, LIST if it was listed or waited for under the same name, else HERE; the others stay |
| ServerList.Tracker.RefreshServers | src/nrdnb_client.cpp:312-334 | LIST becomes WAIT, WAIT becomes LOST when asked to, HERE and LOST stay, times are renewed; nothing happens while the tracker's thread does not exist |
| LineEndings.ConversionIsNormalForm | src/com/xtllib/xtl_string.h:337-370 | for all targets a and b, converting to b and then to a equals converting to a, and no line is changed |
| LineEndings.ConvertJoinsLines | src/com/xtllib/xtl_string.h:268-299 | conversion writes the lines of the string with the wanted end between them |
| LineEndings.FirstLine | src/com/xtllib/xtl_string.h:268-299 | a line that ends in CR LF, LF, or CR without LF is a line, and conversion gives it the wanted end |
| LineEndings.PlainLine | src/com/xtllib/xtl_string.h:268-299 | a string without CR and LF is one line, which conversion leaves alone |
| LineEndings.CrlfTo | src/com/xtllib/xtl_string.h:268-299 | the loop with its pending run equals the conversion |
| ConfigStrings.TokeniseIsStable | src/nrdpx_config.cpp:54-86 | tokens joined by any runs of blanks, tabs and commas are read back as the same tokens, for every value |
| ConfigStrings.TokensLoseOnlySeparators | src/nrdpx_config.cpp:59-83 | the tokens together are the value without its unquoted separators |
| ConfigLaws.TokensAreStretches | src/nrdpx_config.cpp:59-83 | the tokens are the longest stretches of the value without a separator, in order, where a blank, a tab or a comma separates unless an odd number of quotes stands before it |
| ConfigLaws.StretchesExist | src/nrdpx_config.cpp:59-83 | every value has such stretches |
| ConfigLaws.LaidOnce | src/nrdpx_config.cpp:59-83 | and only one list of them |
| ConfigLaws.CStringIsPrefix | src/nrdpx_config.cpp:59-83 | a value ends before its first null character |
| ConfigLaws.StrimIs | src/com/xtllib/xtl_string.h:111-135 | trimming cuts exactly the blanks at both ends, and leaves a string of blanks alone |
| ConfigLaws.UnquotedIs | src/nrdpx_config.cpp:226-232 | one quote goes from each end that has one |
| ConfigLaws.LineMeans | src/nrdpx_config.cpp:211-236 | a line sets the item of its name to its value, whatever blanks surround either, and with or without quotes around the value |
| ConfigLaws.SameNameIff | src/nrdpx_config.cpp:167-187 | section names agree iff they do up to the case of letters and are not empty |
| ConfigStrings.ReadStrings | src/nrdpx_config.cpp:59-83 | the character loop yields the tokens, a single empty one for a value without any |
| ConfigStrings.Section.GetStrings | src/nrdpx_config.cpp:54-86 | the result is the tokenisation of the current value, and memos stay empty or right |
| ConfigStrings.SplitLine | src/nrdpx_config.cpp:217-222 | the character loop yields what is before the first equals sign and what is behind it |
| ConfigStrings.Section.Merge | src/nrdpx_config.cpp:250-254 | every item of the other section is set or replaces the one of its name, memo included; the rest stays |
| ConfigStrings.AddItem | src/nrdpx_config.cpp:211-236 | the line is split at its first equals sign, trimmed and unquoted; the item's memo is dropped |
| ConfigStrings.Configuration.FindSection | src/nrdpx_config.cpp:167-187 | the first section of that name without regard to case, and none for an empty name |
| ConfigStrings.Configuration.AddSection | src/nrdpx_config.cpp:238-257 | a section of a known name is merged into the first one of that name, others are untouched, and memos stay right |
| BufferSize.NeverLarger | src/nrdpx_socket.cpp:218-233 | the result is at most the system's size, and whole segments (six or more) where it differs |
| BufferSize.CalcExact | src/nrdpx_socket.cpp:218-233 | small sizes stay; else the result is the largest whole number of segments within buffer and limit, or six segments as far as the buffer goes |
| BufferSize.CalcTwice | src/nrdpx_socket.cpp:218-233 | applying it twice changes nothing |

## Left out

- Socket calls, `select`, DNS, socket options, files, logging, signals, daemonising, the command line and help texts.
- Races between the tracker thread and the main loop: a tracker callback's update of one server, and one iteration of the channel loop, are single steps; any finite number of callbacks comes between the iterations of a pass.
- The restart of the tracker's socket after a refresh; whether its thread exists is a parameter.
- The choice of which server a tracker event is about, and the timers of the checks: any server may be activated, deactivated or reported on at any time.
- Rounding of scores, and overflow of slot counters and times.
- Freeing of all objects when the daemon ends.
- Stream continuity across failover: a replacement channel starts with empty buffers, so the relay is stated per channel.
- Failure of memory allocation, and exceptions thrown by the copy constructor of a vector's items.
- An argument of `push_back` or `insert` that is an element of the same vector: items are passed by value.
- The busy wait of `begin_write` is a sequence of write attempts; waiting time and fairness among writers are not stated.
- The wide-string converters, `rwlocker_impl`, the semaphore and thread creation.
- Parsing of addresses, ports and prefix notation, and of the configuration file into lines; the meaning of the individual settings.
- Proxy.ProxyServer.Pass: of the four read and write stages only "the target answers" and "a fatal error" appear, chosen freely for each channel; their bytes are the subject of `Relay.Channel.Traffic`.
