# Verified model of the DCP compute marketplace

This project models the parts of the DCP repository whose behaviour cannot be read off one function: the
peer-to-peer job protocol, the discovery store, the burst pod lifecycle with its refund ledger, and the smaller
state machines and encoders around them. Everything here is Dafny 4.11; `dafny verify dfyconfig.toml` checks it.

## What is modelled

**The job protocol** (`P2PTypes`, `Relay`, `RenterSide`, `ProviderSide`, `Network`, `Coherence`,
`CoherenceSteps`, `CoherenceTheorems`, `Reconnect`, `JobSafety`, `JobSteps`, `JobTheorems`, `Deliveries`, `Completion`). A relay keeps a registry of peers;
renters keep a cached view of its providers, broadcast jobs, collect bids, accept the cheapest and wait for a result;
providers filter, bid, execute and charge. The three classes `BootstrapServer`, `RenterClient` and `ProviderClient`
do what the Python methods do between two suspensions, over dictionaries they reassign, and are proved against
specification functions and predicates. `Network` composes those same functions into a transition system: one event
per stretch of code between two `await`s, one event per send of a broadcast over the targets it snapshotted, a queue
per connection and direction, a coroutine state per connection. A run is any sequence of enabled events from the
empty network. The main results hold in every state of every run. `Reconnect` drops one guard, that an id connects
again only when the relay is done with its last connection, and gives a run that goes wrong for lack of it.
`Completion` shows that the guards leave room for what the protocol is for: any job a provider is eligible for can go
all the way to a stored result.

**The discovery store** (`Discovery`). An announcement puts an environment under its content id, a provider record
pointing to it, and the peer id into an index; a lookup follows the two levels with an expiry check at each. The
results say what a lookup answers under any interleaving of puts, when the two levels behave as one map, and exactly
when a peer is found for as long as its own record says.

**Burst pods** (`Ledger`, `BurstLaunch`, `BurstLifecycle`, `ShellQuote`). `Ledger` is the pair `job_success` and
`job_fail` over job rows and balances. `BurstLaunch` runs `launch` against a script of outside replies, any of which
may fail, and proves a condition on the script that is necessary and sufficient for a clean end. `BurstLifecycle`
is extend, teardown and reap over the active records, with the exact condition on a run under which a pod's
workspace is saved once. `ShellQuote` gives the tokenizer of the POSIX shell and proves
that it undoes the program's quoting, also where a quoted object sits inside a quoted command line.

**The docs tree** (`DocsTree`). The builder pushes into child lists through an alias; here nodes live in an arena,
indices are references, and the alias is the name of the list it stands for. The sort is a function on the finished
forest.

**Watchdogs and heartbeat** (`VramWatch`, `ServingWatch`, `Heartbeat`). One cron run is a method over the state
dictionary; the theorems range over all sequences of runs and compare the notices with definitions that mention only
the readings. The heartbeat emitter is a transition system over its suspended tasks.

**Tables and encoders** (`Redirects`, `MiningGuard`, `MiningFlags`, `Session`, `Png`). The redirect table is data, checked rule by
rule, with a theory of following redirects. The mining guard's classifier, allowlists and sweep are over its own word
lists; `MiningFlags` says exactly when its two-flag rule fires and which flags are enough alone. Sessions cover minting, base64url and verification. The PNG writer is read back by a chunk parser.

`Options`, `Ids`, `Octets` and `Text` hold what several of these share.

## Where the code does less than its comments or its tests say

* `ops/burst.py:637-640` says no external pod should survive a failed launch. One does when a create reply is lost,
  when a DELETE does not take, and when the relays, the active record or the final report fail after the tunnel is up
  (`BurstLaunch.CleanIffBenign`). A DELETE refused after the tunnel timeout leaves the pod and also skips the refund
  (`BurstLaunch.RefusedDeleteStrandsTheRefund`), because the `SystemExit` is not caught by `except Exception`.
* `ops/burst.py:647-651` says a second teardown does not snapshot again. It does exactly when every earlier teardown of
  the pod left its record, because the DELETE raised something other than `SystemExit` or because the file did not go
  away, and the record as launched, completed through `--job-id` this time, has a volume, a port and a password. Only a
  record without a volume is completed: with the task spec's volume and, where the record has no password, with the task
  spec's (`BurstLifecycle.SnapshotOnceIff`; `BurstLifecycle.LeftRecordSnapshotsAgain` for both ways, and
  `BurstLifecycle.OldRecordSnapshotsAgain` for a record with a port alone).
* `backend/installers/mining_guard.py:233-242` asks for two mining flags. Five listed flags have another listed flag
  inside them and so count twice or more by themselves: `--algorithm`, `stratum+tcp://`, `stratum+ssl://`,
  `-o stratum+tcp` and `-o stratum+ssl` (`MiningFlags.TwoFlagsIff`, `MiningFlags.DoubledFlagCountsTwice`). The rule on a
  weak token and a flag asks for two things as well, but "stratum" is a weak token, so every flag with it in is both.
  The flags that make a miner alone are `--algorithm` and those with "stratum" in (`MiningFlags.LoneFlagIff`). For a
  file (`backend/installers/mining_guard.py:605-686`) they are the latter but for `-o stratum`, which is not one of the
  flags looked for there (`MiningFlags.LonePersistenceFlagIff`).
* A bid's estimate is no bound on the charge when the price is negative, or the timeout under a second, since nothing
  rejects either (`ProviderSide.ChargeBeyondEstimate`, with the exact condition in `ProviderSide.ChargeWithinEstimateIff`).
* `ops/dcp-provider-serving-watch.py:16-17` promises one alert per episode. A provider still not serving is alerted on
  again exactly when the run cannot read the state file, when the first alert's run could not save it, or when a run
  between rewrote it without the provider (`ServingWatch.RepeatedAlertIff`). With a file that always reads and saves, that
  is when it was out of the query while another provider caused a notice (`ServingWatch.RepeatedAlertIffForgotten`).
* With several times to live in use, a peer's environment can disappear before its own expiry, because another peer
  announced the same environment with a shorter one (`Discovery.ShorterTtlHidesAnother`). It stays to the end exactly
  when the latest record of that environment does not expire first (`Discovery.AnsweredUntilExpiryIff`).

## Model

| member | source | states |
|---|---|---|
| Relay.BootstrapServer.constructor | p2p/bootstrap_server.py:52-54 | the registry starts empty |
| Relay.BootstrapServer.ListProviders | p2p/bootstrap_server.py:88-92 | a PEER_LIST names every registered provider but the addressee, once each and with its capacity, and nobody else |
| Relay.BootstrapServer.Snapshot | p2p/bootstrap_server.py:72-76 | a broadcast's targets are the connections of the registered peers of that role, less the excluded one, one for each of them |
| Relay.BootstrapServer.HandleHello | p2p/bootstrap_server.py:80-99 | registers the peer, overwriting an older entry, and lists the other providers as registered then |
| Relay.BootstrapServer.RouteAnnounce | p2p/bootstrap_server.py:124-128 | refreshes a registered sender's capacity only, then addresses every renter but the sender |
| JobSteps.RouteConn | p2p/bootstrap_server.py:134-156 | relaying one bid, accept or result appends it to the queue of the addressee's registered connection and to no other, takes exactly it off the sender's, and leaves every other queue and handler as it was |
| Relay.BootstrapServer.Cleanup | p2p/bootstrap_server.py:182-199 | deletes by id and nothing else; all renters are told if and only if a provider left |
| RenterSide.RenterClient.constructor | p2p/renter_client.py:68-73 | a renter starts with an empty cache, no bids and no results |
| RenterSide.RenterClient.Dispatch | p2p/renter_client.py:97-147 | each message changes the cache, the bids and the results as specified: lists only add, a BYE removes, bids for unknown jobs are dropped, a later result replaces an earlier one |
| RenterSide.OpenedJobCollectsItsBids | p2p/renter_client.py:126-171 | once a job is opened, its list is exactly the bids for it in order of arrival; other lists keep what they held and grow by their own, and none appears that was not opened |
| RenterSide.LastResultIsStored | p2p/renter_client.py:137-142 | over any messages a renter holds for each job the last result that came for it, and else what it held before |
| RenterSide.RenterClient.CloseWindow | p2p/renter_client.py:209-225 | no winner exactly when there are no bids; otherwise the first of the cheapest bids |
| ProviderSide.ProviderClient.constructor | p2p/provider_node.py:76-88 | a provider starts disconnected with no active job |
| ProviderSide.ProviderClient.HandleJobRequest | p2p/provider_node.py:191-233 | bids exactly when VRAM suffices, the price is within the maximum and it is connected; the bid carries the job, both ids, its own price and VRAM, and as estimate the whole halala of its price for the requested timeout at 3600 seconds an hour |
| ProviderSide.ActiveAreUnfinished | p2p/provider_node.py:241-359 | over any sequence of accepts and finishes the active jobs are exactly those accepted and not finished since |
| ProviderSide.ProviderClient.FinishJob | p2p/provider_node.py:311-359 | one result with the job's outcome, lasting at least a second and charged the whole halala of the agreed price for that time, relayed exactly when direct delivery raised and the relay is connected; the job is no longer active |
| ProviderSide.ChargeWithinEstimateIff | p2p/provider_node.py:209-314 | a charge at the bid's price is within the bid's estimate exactly when it is within the timeout at a price that is not negative, beyond it at one that is not positive, or both truncate to the same; at any price and timeout |
| ProviderSide.ChargeBeyondEstimate | p2p/provider_node.py:209-314 | a price of -3600 breaks the bound after one second of sixty, and a timeout of zero breaks it at 3600 |
| P2PTypes.CostAtMostIff | p2p/provider_node.py:313-314 | of two durations, which costs no more, at any price |
| P2PTypes.CostMonotone | p2p/provider_node.py:313-314 | a longer run never costs less at a price that is not negative, and never more at one that is not positive, with Python's truncation |
| P2PTypes.CostIsCharged | p2p/provider_node.py:313-314 | the charge c for x halala-seconds an hour: 3600c is at most x and less than 3600 short of it, mirrored for a negative price |
| P2PTypes.OnlyCostIsCharged | p2p/provider_node.py:313-314 | and no other amount is |
| CoherenceSteps.BroadcastCovers | p2p/bootstrap_server.py:72-76 | what a handler owes after starting a broadcast reaches the connection of every registered renter but the excluded one |
| CoherenceSteps.OwnerSpeaks | p2p/bootstrap_server.py:72-199 | where one connection's message or departure changes what renters should know of its peer, and that peer's views stay consistent, the whole invariant is kept |
| CoherenceSteps.InvStep | p2p/bootstrap_server.py:72-199 | every one of the eighteen events keeps the coherence invariant |
| CoherenceTheorems.InvAlways | p2p/bootstrap_server.py:160-199 | the invariant holds in every state of every run |
| CoherenceTheorems.CacheFollowsRegistry | p2p/renter_client.py:101-124 | in every reachable state, for each registered renter, its cache folded with the messages queued to it and those broadcasts still owe it, in any order, is exactly the registry's providers with their latest capacities; for a connection that has closed and is still registered, queued means sent, though the renter will not read it |
| CoherenceTheorems.QuiescentCacheIsRegistry | p2p/renter_client.py:101-124 | with nothing queued or owed, cache and registry agree |
| Reconnect.RunsAreLooseRuns | p2p/bootstrap_server.py:160-199 | dropping the guard on reconnecting keeps every run there was |
| Reconnect.LateByeHidesProvider | p2p/bootstrap_server.py:182-199 | and adds a run in which an id reconnects early, after which a renter has nothing queued or owed and still lacks a registered provider |
| JobSteps.JobInvStep | p2p/renter_client.py:168-250 | every event keeps the job invariant: one accept per job, one place for it, one execution, results that match it |
| JobTheorems.JobInvAlways | p2p/renter_client.py:168-250 | both invariants hold in every state of every run |
| JobTheorems.AcceptNamesCheapestEligible | p2p/renter_client.py:209-249 | a sent accept names an eligible provider at its own price, and its bid is the first of the cheapest of those recorded when the window closed |
| JobTheorems.AcceptsAreAwards | p2p/bootstrap_server.py:142-148 | every accept on any connection, on its way to the relay or from it, is the award of its job, and the relay sends one only to the provider it names |
| JobTheorems.ChargeWithinWinningEstimate | p2p/provider_node.py:256-314 | in every reachable state a finished execution lasted at least a second and is charged the agreed price per 3600 seconds, cut off to whole halala; and exactly when that is within the winning bid's estimate, at any price and timeout |
| JobTheorems.OneExecutionPerJob | p2p/provider_node.py:241-250 | a job is executed at most once, by the provider its accept names |
| JobTheorems.StoredResultIsTheExecution | p2p/renter_client.py:137-142 | a result a renter stores is the payload of that one execution, though direct and relayed copies may both arrive |
| Deliveries.AwardedOnAllBids | p2p/renter_client.py:209-225 | a job is awarded by its own renter closing its window, on all the bids it holds then |
| Deliveries.JobsAskForWishes | p2p/renter_client.py:168-205 | in every reachable state a job asks for the VRAM, price and timeout its renter wants |
| Deliveries.WinnerSuitsItsRenter | p2p/renter_client.py:209-249 | so an accept goes to a provider with the VRAM its renter asks for, at a price it is willing to pay |
| Deliveries.ReadResultIsStored | p2p/renter_client.py:137-142 | in every reachable state a renter holds, under its job, every result it has read |
| Deliveries.DirectResultIsStored | p2p/renter_client.py:137-142 | and a payload delivered straight to it, as soon as it is no longer under way |
| Deliveries.RequestOwedToProviders | p2p/bootstrap_server.py:130-132 | a job request the relay takes up is owed to every other registered provider |
| Deliveries.SendNextSends | p2p/bootstrap_server.py:72-76 | each send of a broadcast reaches the next connection owed it and leaves the rest owed |
| Completion.JobCompletes | p2p/renter_client.py:150-250 | for any job, any provider eligible for it and any outcome there is a run, over the relay or with direct delivery, at whose end the renter is done and holds the provider's report at the provider's price |
| Completion.AnnouncementArrives | p2p/bootstrap_server.py:124-128 | and one in which a capacity announced again reaches the renter's cache |
| Discovery.Dht.constructor | p2p/dcp-discovery-scaffold.js:259-293 | the store starts empty |
| Discovery.Dht.Announce | p2p/dcp-discovery-scaffold.js:429-467 | files, field by field, what the provider said of itself, with both dates, under the trimmed id it chose or the node's, and links to it; the expiry is at least 30 seconds on |
| Discovery.Dht.UpdateIndex | p2p/dcp-discovery-scaffold.js:301-322 | normalises the index and appends the trimmed id unless it is blank or there |
| Discovery.NormalizedFields | p2p/dcp-discovery-scaffold.js:413-427 | each field filed comes from its own source or sources, the first that is there, numbers only if finite and positive, with the source's defaults; reliability stops at 100 |
| Discovery.TtlIsBounded | p2p/dcp-discovery-scaffold.js:431-435 | a time to live is as asked for between 30 seconds and a day, the nearer bound outside, and two minutes when unusable |
| Discovery.NormalizedIsValidIff | p2p/dcp-discovery-scaffold.js:413-427 | exactly the inputs whose normal form a later lookup accepts as valid, and the ranges of the numbers |
| Discovery.TrimIdempotent | p2p/dcp-discovery-scaffold.js:128-134 | trimming an id twice is trimming it once |
| Discovery.TrimIs | p2p/dcp-discovery-scaffold.js:128-134 | trimming takes all white space off both ends and nothing else |
| Discovery.NormalizedIdsMembers | p2p/dcp-discovery-scaffold.js:136-142 | a normalised list holds exactly the trimmed non-blank ids of the raw one |
| Discovery.NormalizedIdsDistinct | p2p/dcp-discovery-scaffold.js:136-142 | and each of them once |
| Discovery.NormalizedIdsGrow | p2p/dcp-discovery-scaffold.js:136-142 | in the order of their first appearance |
| Discovery.AnswersIff | p2p/dcp-discovery-scaffold.js:486-570 | on any store, whoever filled it, the DHT answers exactly with a usable record of the peer and the usable record it links to |
| Discovery.ReasonIs | p2p/dcp-discovery-scaffold.js:486-570 | otherwise the fallback's reason is the first thing missing |
| Discovery.DhtAnswersAreOwn | p2p/dcp-discovery-scaffold.js:486-570 | under any interleaving of puts, an answer from the DHT for a peer pairs it with an environment it announced itself, under its own unexpired record |
| Discovery.ResolveExactly | p2p/dcp-discovery-scaffold.js:486-570 | after atomic announcements, the answer and the reason for every fallback, at every instant and any mix of times to live |
| Discovery.StoreRefinesMap | p2p/dcp-discovery-scaffold.js:429-570 | where no announcement expires before an earlier one, the store is a map from peer to latest announcement: what is valid and unexpired throughout the lookup is answered with its own environment, and what is not at its start is not answered |
| Discovery.OneTtlRefinesMap | p2p/dcp-discovery-scaffold.js:445-446 | so it is with one time to live and a clock that does not go back, the expiry counted from the announcement's second reading of it |
| Discovery.AnsweredUntilExpiryIff | p2p/dcp-discovery-scaffold.js:429-570 | with any times to live, a peer's valid announcement is answered exactly until it expires if and only if the latest record of its environment does not expire before it |
| Discovery.ShorterTtlHidesAnother | p2p/dcp-discovery-scaffold.js:551-561 | an input with two times to live where it is not |
| Discovery.IndexListsPeers | p2p/dcp-discovery-scaffold.js:301-322 | over any history the index lists exactly the announced peers, trimmed |
| Discovery.IndexIsDistinct | p2p/dcp-discovery-scaffold.js:309-312 | and none twice |
| Ledger.Database.constructor | ops/burst.py:214-220 | a ledger holds the rows it is given |
| Ledger.Database.JobSuccess | ops/burst.py:214-231 | a pulling, queued or assigned job becomes running with its access details and is otherwise as it was; nothing else changes, and nothing at all for another job or on a failed commit |
| Ledger.Database.JobFail | ops/burst.py:233-258 | a live job becomes failed; its renter is credited the cost, and the job marked, if it was not yet; nothing else changes, and nothing at all for a terminal or unknown job or on a failed commit |
| Ledger.WorthKept | ops/burst.py:233-258 | one call keeps the sum of a renter's balance and the cost its un-refunded jobs hold |
| Ledger.TotalKeptIff | ops/burst.py:250-254 | the total over all renters is kept if and only if no refund goes to a renter without a row |
| Ledger.WorthConserved | ops/burst.py:214-258 | so over any sequence of calls, for each renter |
| Ledger.TotalConserved | ops/burst.py:214-258 | and in total where jobs have their renters |
| Ledger.RefundedAtMostOnce | ops/burst.py:250-254 | over any sequence of calls a job is refunded at most once, and is marked when it was |
| Ledger.TerminalStays | ops/burst.py:245-246 | a terminal job keeps its row for ever |
| BurstLaunch.BurstHost.constructor | ops/burst.py:559-571 | a host starts with no pods and no records |
| BurstLaunch.BurstHost.CreatePod | ops/burst.py:503-557 | the first attempt answered with a pod decides; a refused one or one without an id goes on, a lost reply ends the attempts, and each of them may have made a pod all the same |
| BurstLaunch.BurstHost.DeletePod | ops/burst.py:93-101 | the pod goes exactly when the request took, and how the call ends follows the reply |
| BurstLaunch.BurstHost.Undo | ops/burst.py:687-694 | a refused DELETE is only warned about, any other error escapes |
| BurstLaunch.BurstHost.AwaitTunnel | ops/burst.py:582-586 | up exactly if some poll finds it up |
| BurstLaunch.BurstHost.Publish | ops/burst.py:590-634 | from relays to report: what is in the ledger, the pods and the records at each way out |
| BurstLaunch.BurstHost.Attempt | ops/burst.py:573-634 | the same from the start of the try block |
| BurstLaunch.BurstHost.Launch | ops/burst.py:559-643 | for any pattern of failures, ledger, pods and records end as specified, and clean if and only if the script is benign |
| BurstLaunch.CleanIffBenign | ops/burst.py:559-643 | clean means the job's row running with the access on the record and its pod the only new one, or failed and credited with no new pod; benign is a condition on the outside replies |
| BurstLaunch.BenignIff | ops/burst.py:559-643 | that condition, reply by reply |
| BurstLaunch.LaunchLeaves | ops/burst.py:559-643 | clean or not: the status and access of the job's row, and exactly which new pods are left |
| BurstLaunch.FirstPodIs | ops/burst.py:503-557 | attempts go on past refusals and answers without a pod up to the first pod or lost reply, and the orphans are exactly the pods those left behind |
| BurstLaunch.FailedMeansRefunded | ops/burst.py:247-255 | a failed launch pays the whole cost back, and a second `job_fail` changes nothing |
| BurstLaunch.OrdinaryFailuresAreBenign | ops/burst.py:559-643 | enough for a clean end: no create request makes a pod without saying so, the relays start, the record is written, every DELETE is done, `job_fail` commits and the report is printed |
| BurstLaunch.RefusedDeleteStrandsTheRefund | ops/burst.py:586-589 | a refused DELETE after the tunnel timeout leaves the pod and the job's row and balance as they were, and is not benign |
| BurstLifecycle.ActivePods.constructor | ops/burst.py:703-705 | nothing is active at first |
| BurstLifecycle.ActivePods.ExtendPod | ops/burst.py:718-721 | moves the deadline from the later of itself and now; raises without a record |
| BurstLifecycle.ActivePods.TeardownPod | ops/burst.py:645-696 | snapshot if the record, completed through --job-id, has volume, port and password; then DELETE; then drop the record unless the DELETE was lost |
| BurstLifecycle.ActivePods.ReapPod | ops/burst.py:703-716 | one pod past its deadline: the teardown, whose error escapes |
| BurstLifecycle.ActivePods.Reap | ops/burst.py:703-716 | tears down the listed pods past their deadline in order, all of them unless one's DELETE raises, which ends the loop there |
| BurstLifecycle.ReapedAllActive | ops/burst.py:703-716 | the records that go are exactly those of the pods whose teardown ran to its end |
| BurstLifecycle.DueIff | ops/burst.py:703-709 | due are exactly the listed pods past their deadline, each once |
| BurstLifecycle.DeadlineCoversGrants | ops/burst.py:718-721 | over any run a deadline is at least the first one plus every extension granted |
| BurstLifecycle.DeadlineIsGrants | ops/burst.py:718-721 | and is exactly that where no extension came after the deadline |
| BurstLifecycle.NeverReapedEarly | ops/burst.py:703-716 | no pod is reaped before that |
| BurstLifecycle.StepNotes | ops/burst.py:645-696 | which steps touch a pod, and exactly which keep its snapshot before its DELETE |
| BurstLifecycle.SnapshotOnceIff | ops/burst.py:645-696 | over any run, a pod is snapshotted at most once and never after its DELETE if and only if no teardown of it comes after others that all left its record and could save again, read off the steps alone |
| BurstLifecycle.SnapshotOnceBeforeDelete | ops/burst.py:645-696 | so it is where every teardown of the pod is answered and its record goes away |
| BurstLifecycle.LeftRecordSnapshotsAgain | ops/burst.py:674-696 | whatever record and task spec are enough to save by, a teardown whose DELETE raised, or whose record did not go away, lets the next one snapshot again |
| BurstLifecycle.OldRecordSnapshotsAgain | ops/burst.py:659-672 | a record with a port and neither volume nor password is snapshotted twice through --job-id |
| ShellQuote.QuoteRoundTrip | ops/burst.py:336-338 | the shell reads a quoted string as exactly that one word, quoting closed |
| ShellQuote.CommandRoundTrip | ops/burst.py:336-338 | so it does inside any command line of bare words, blanks, operators and quoted strings |
| ShellQuote.QuotedLast | ops/burst.py:305-305 | bare words followed by one quoted string parse to those words |
| ShellQuote.PipedMeaning | ops/burst.py:298-304 | two commands with quoted arguments and a pipe between parse as meant |
| ShellQuote.RestoreReadsObject | ops/burst.py:293-305 | restoring: the outer shell passes one line to bash, and bash reads the object name in it exactly |
| ShellQuote.SnapshotReadsObject | ops/burst.py:321-330 | snapshotting: likewise, as the pipeline's destination |
| DocsTree.KeyDecidesSegment | app/lib/docs.ts:180-183 | siblings with equal keys have equal segments |
| DocsTree.JoinFromFront | app/lib/docs.ts:180-181 | a key is the segments with a slash between, from the front as from the end |
| DocsTree.TitleIs | app/lib/docs.ts:52-56 | a derived title has a space for each - and _, a capital where a word begins, and every other character as it is |
| DocsTree.SortByTitleSorts | app/lib/docs.ts:199-201 | the sort orders siblings by title and keeps the order of ties |
| DocsTree.SortKeepsNodes | app/lib/docs.ts:198-206 | sorting a forest keeps, for every path, the nodes reached by following it |
| DocsTree.SortOrders | app/lib/docs.ts:198-206 | every sibling list at every depth ends in title order |
| DocsTree.TreeBuilder.constructor | app/lib/docs.ts:173-173 | the empty tree represents no documents |
| DocsTree.TreeBuilder.Find | app/lib/docs.ts:183-183 | finds the child with the key, or says no node has that path |
| DocsTree.TreeBuilder.CreateNode | app/lib/docs.ts:163-187 | a node with a new path is pushed through the alias, with a derived title and no href |
| DocsTree.TreeBuilder.LabelLeaf | app/lib/docs.ts:189-192 | the last node of a document gets its title and href, and no other node changes |
| DocsTree.TreeBuilder.Descend | app/lib/docs.ts:178-194 | one segment: found or created once, labelled at the leaf, stepped into through the alias |
| DocsTree.TreeBuilder.AddDoc | app/lib/docs.ts:175-195 | after a document, the nodes are exactly the slug prefixes seen so far, labelled by the last document of each slug |
| DocsTree.ArenaRepresents | app/lib/docs.ts:172-196 | such an arena, read as a tree, reaches one rightly labelled node per prefix and nothing else |
| DocsTree.BuildTree | app/lib/docs.ts:172-209 | for every list of documents: one node per non-empty slug prefix, reached by its segments, none other, in title order throughout |
| DocsTree.HrefsOnDocuments | app/lib/docs.ts:189-192 | hrefs sit on exactly the document nodes, which have the title of the last document with their slug; other nodes have a derived title, and every node its path as key |
| VramWatch.Watch.constructor | ops/dcp-vram-parking-watch.py:65-68 | no file means no episodes |
| VramWatch.ReadingIs | ops/dcp-vram-parking-watch.py:94-120 | parked is memory in use at up to 5% utilisation and outside a paid pod, full above 80%, partial above 40% |
| VramWatch.SkippedIff | ops/dcp-vram-parking-watch.py:94-112 | a row is passed over exactly when a figure is missing, the heartbeat is older than 20 minutes or an exception runs |
| VramWatch.Watch.Observe | ops/dcp-vram-parking-watch.py:122-144 | one usable row updates its provider's episode alone and posts as specified |
| VramWatch.Watch.RunOnce | ops/dcp-vram-parking-watch.py:93-151 | one run: every episode follows its provider's reading, unseen ones are dropped, notices in row order |
| VramWatch.Cron | ops/dcp-vram-parking-watch.py:63-151 | over any sequence of runs the file, and each run's posts in row order, are those the theorems speak of |
| VramWatch.SavedIsTheEpisode | ops/dcp-vram-parking-watch.py:124-127 | the saved episode holds its first run's time, whether any run saw tier full, and whether it was ever due |
| VramWatch.SavedKeysAreParked | ops/dcp-vram-parking-watch.py:146-151 | saved keys are exactly the providers seen parked in the last run |
| VramWatch.AlertExactlyWhenDue | ops/dcp-vram-parking-watch.py:128-136 | an alert goes out at exactly the first run at which all runs since the episode began saw the provider parked, for 30 minutes, or 2 hours if none saw tier full |
| VramWatch.OneAlertPerEpisode | ops/dcp-vram-parking-watch.py:129-136 | two runs of one episode do not both post |
| VramWatch.RecoveryExactlyAfterAlert | ops/dcp-vram-parking-watch.py:137-144 | a recovery goes out exactly when a clear reading ends an episode that had been due |
| VramWatch.RecoveryFollowsItsAlert | ops/dcp-vram-parking-watch.py:137-144 | and some run of that episode posted its alert |
| VramWatch.DueStaysDue | ops/dcp-vram-parking-watch.py:128-129 | with a monotone clock an overdue episode stays due |
| ServingWatch.Watch.constructor | ops/dcp-provider-serving-watch.py:54-59 | no file means nobody is recorded |
| ServingWatch.ReadingIs | ops/dcp-provider-serving-watch.py:105-111 | synthetic accounts are not seen, and serving is an endpoint known to be reachable |
| ServingWatch.Watch.RunOnce | ops/dcp-provider-serving-watch.py:91-135 | one run posts on the edges against what it could read, and rewrites the file exactly when it posted something and could save; it raises when it could not |
| ServingWatch.Cron | ops/dcp-provider-serving-watch.py:91-135 | over any sequence of runs the file, and each run's posts in row order, are those the theorems speak of |
| ServingWatch.DownIsLastRewrite | ops/dcp-provider-serving-watch.py:54-68 | the file holds exactly the providers not serving at its last rewrite |
| ServingWatch.DownExactlyWhen | ops/dcp-provider-serving-watch.py:132-135 | with a file that always reads and saves: exactly when the last run to see a provider saw it not serving and no later run rewrote the file |
| ServingWatch.DownWasAlerted | ops/dcp-provider-serving-watch.py:113-124 | whatever is in the file was alerted on by a run that saved, and no run since posted about it and saved |
| ServingWatch.RecoveryFollowsAlert | ops/dcp-provider-serving-watch.py:125-131 | each recovery is preceded by an alert attempt of a run that saved, with no notice for that provider between by another that saved |
| ServingWatch.PresentProviderEdges | ops/dcp-provider-serving-watch.py:105-131 | with such a file and for a provider present in every run, notices mark exactly the edges of its readings |
| ServingWatch.NoticesAlternate | ops/dcp-provider-serving-watch.py:105-131 | so its alerts and recoveries strictly alternate |
| ServingWatch.RepeatedAlertIff | ops/dcp-provider-serving-watch.py:54-135 | a second alert without a notice between happens if and only if that run cannot read the file, or the first alert did not get into it, or a run between rewrote it without the provider |
| ServingWatch.RepeatedAlertIffForgotten | ops/dcp-provider-serving-watch.py:134-135 | with a file that always reads and saves: if and only if a rewrite dropped it while it was out of sight |
| Heartbeat.Emitter.constructor | p2p/heartbeat-protocol.js:254-307 | one emission started and one timer pending |
| Heartbeat.Emitter.ScheduleNext | p2p/heartbeat-protocol.js:294-303 | a timer for an interval after the last announcement, or for now if that is past, unless stopped |
| Heartbeat.Emitter.FireTimer | p2p/heartbeat-protocol.js:299-300 | a due timer becomes a chain emission |
| Heartbeat.Emitter.Announce | p2p/heartbeat-protocol.js:273-279 | takes the next number, passes it on and suspends |
| Heartbeat.Emitter.FailBeforeAnnounce | p2p/heartbeat-protocol.js:286-291 | a throw before the announcement counts as failed and takes no number |
| Heartbeat.Emitter.Settle | p2p/heartbeat-protocol.js:280-291 | stored counts as announced, a timeout or any error as failed, each once |
| Heartbeat.Emitter.Finish | p2p/heartbeat-protocol.js:291-292 | stamps the time; only a chain emission goes on |
| Heartbeat.Emitter.ChainNext | p2p/heartbeat-protocol.js:301-301 | the chain's token becomes the next timer, or ends |
| Heartbeat.Emitter.StopEmitter | p2p/heartbeat-protocol.js:310-312 | only stops rescheduling |
| Heartbeat.StepInv | p2p/heartbeat-protocol.js:254-317 | every event keeps the invariant |
| Heartbeat.InvAlways | p2p/heartbeat-protocol.js:254-317 | so every interleaving does |
| Heartbeat.SequenceNumbersAreExact | p2p/heartbeat-protocol.js:275-279 | the numbers passed to `announceHeartbeat` are 0 to n-1 in order, without gap or repeat |
| Heartbeat.EveryEmissionIsCounted | p2p/heartbeat-protocol.js:280-290 | announced plus failed equals completed emissions, and at most two are in flight |
| Heartbeat.StatsAreExact | p2p/heartbeat-protocol.js:280-291 | announced counts the puts that were stored and failed everything else, and the last time stamp and the last error are those of the last such event |
| Heartbeat.OneTimerChain | p2p/heartbeat-protocol.js:294-303 | at most one timer-chain token, exactly one until stopped |
| Heartbeat.EmissionsAreSpaced | p2p/heartbeat-protocol.js:296-302 | chain emissions start at least an interval apart |
| Heartbeat.AtMostOneStartAfterStop | p2p/heartbeat-protocol.js:309-312 | stopping is final, and at most the timer then pending still starts an emission |
| Redirects.FirstMatchApplies | next.config.js:126-278 | the hop taken is that of the first rule that applies, and there is none exactly when no rule applies |
| Redirects.MatchesIff | next.config.js:126-278 | a source stands for one path, for all below one, for one with a free segment, or for all below one but /home |
| Redirects.TargetIs | next.config.js:137-159 | a rule keeps what is below its source if it splices, and else goes to one place |
| Redirects.RedirectsGood | next.config.js:126-278 | every rule of the table is of one of three kinds, and the root, /v2, /v2/home and the sweep are there |
| Redirects.RedirectHops | next.config.js:126-278 | a hop out of /v2 strips one v2; any other lands on a fixed page |
| Redirects.LandingStops | next.config.js:161-278 | no landing page is redirected again, except the docs host's root |
| Redirects.NeverIntoV2 | next.config.js:137-159 | no hop introduces a leading v2 |
| Redirects.V2EndsAtItsTwin | next.config.js:139-159 | every /v2 URL ends where its root twin ends, one hop later; /v2/home ends where the root does |
| Redirects.FinalIsFinal | next.config.js:126-278 | following ends on a page outside /v2 to which no rule applies |
| Redirects.RedirectsTerminate | next.config.js:115-278 | on every path the table stops within k + 2 hops, k counting its leading v2 segments |
| Redirects.BoundIsTight | next.config.js:130-159 | where a page goes home on the docs host, the bound is met for every k |
| Redirects.HandoffMeetsTheBound | next.config.js:170-170 | and /dcp-v2 is such a page |
| MiningGuard.MinerIsMonotone | backend/installers/mining_guard.py:233-253 | text before or after a miner's command line never hides it |
| MiningFlags.PlainFlagStandsAlone | backend/installers/mining_guard.py:79-85 | of the seventeen flags, all but five have no other flag inside them |
| MiningFlags.TwoFlagsIff | backend/installers/mining_guard.py:217-222 | at least two flags are counted exactly when two occur of which neither is inside the other, or one of the five |
| MiningFlags.MinerIff | backend/installers/mining_guard.py:225-253 | a command line is a miner's exactly with a definite name, two separate flags, a weak token and a flag, or `--algorithm` |
| MiningFlags.AlgorithmFlagAloneIsAMiner | backend/installers/mining_guard.py:79-85 | a command line with `--algorithm` is a miner's whatever else it holds |
| MiningFlags.DoubledFlagCountsTwice | backend/installers/mining_guard.py:79-85 | each of the five counts at least twice wherever it stands |
| MiningFlags.LoneFlagIff | backend/installers/mining_guard.py:233-253 | of the flags, exactly `--algorithm` and those with "stratum" in make a miner alone |
| MiningFlags.PersistenceHitIff | backend/installers/mining_guard.py:605-623 | a text is a persistence hit exactly with a definite name, two of the five flags, or one of them and a weak token |
| MiningFlags.PersistenceLabel | backend/installers/mining_guard.py:605-623 | the label of a hit is its first listed name, else says whether two flags or a flag and a weak token occur |
| Text.LowerIs | backend/installers/mining_guard.py:217-222 | lower-casing leaves no capital and changes nothing else |
| MiningFlags.LonePersistenceFlagIff | backend/installers/mining_guard.py:605-623 | of the flags, exactly those with "stratum" in but `-o stratum` are a persistence hit alone |
| MiningGuard.MinersAreNeverAllowed | backend/installers/mining_guard.py:436-488 | both host allowlists reject every miner, and neither raises on one |
| MiningGuard.AllowedGpuIff | backend/installers/mining_guard.py:468-488 | a GPU process is allowed exactly if it is no miner and has a listed name, and then, if Python, one of its markers |
| MiningGuard.AllowedHostIff | backend/installers/mining_guard.py:436-467 | a host process exactly by a listed name or as a system tool under a system path, where a blank name raises |
| MiningGuard.FirstWordIs | backend/installers/mining_guard.py:436-461 | the first word is the text's from its first non-space to the next space, and there is none exactly in blank text |
| MiningGuard.AfterLastSlashIs | backend/installers/mining_guard.py:436-461 | the last component is what follows the last slash |
| MiningGuard.ScanHostGpuProcesses | backend/installers/mining_guard.py:499-531 | the findings are those of the processes outside containers above the threshold, miner or unlisted |
| MiningGuard.ScanHostProcessTable | backend/installers/mining_guard.py:534-562 | the allowlist skip never fires: every miner in the table is a finding |
| MiningGuard.ScanHostConnections | backend/installers/mining_guard.py:565-602 | one informational finding per connection to a pool port |
| MiningGuard.HuntPersistence | backend/installers/mining_guard.py:605-686 | one finding per path, at its first place in the list, whose text has a definite name, two flags, or a flag and a weak token |
| MiningGuard.FindingsWarrantQuarantine | backend/installers/mining_guard.py:698-717 | quarantine exactly on a flagged, known-miner or persistence finding |
| MiningGuard.Dedup | backend/installers/mining_guard.py:742-751 | keeps exactly the findings without an earlier one of the same key, in order |
| MiningGuard.KeyIff | backend/installers/mining_guard.py:745-745 | equal keys are equal scope, pid, path, reason and port |
| MiningGuard.DedupKeepsDoomed | backend/installers/mining_guard.py:742-759 | deduplication forgets no pid that is to be killed |
| MiningGuard.DedupKeepsVerdict | backend/installers/mining_guard.py:742-766 | on the sweep's own findings deduplication leaves the verdict alone |
| MiningGuard.DedupAloneCouldHideEvidence | backend/installers/mining_guard.py:745-745 | the scans are needed for that: on a list that no scan makes, the key, which leaves out the flag, drops a flagged finding |
| MiningGuard.RawWarrantsIffEvidence | backend/installers/mining_guard.py:698-717 | the findings warrant quarantine exactly when a miner or a persistence hit was seen; ports and unlisted GPU processes never do |
| MiningGuard.ScanAll | backend/installers/mining_guard.py:734-740 | the scans that ran to the end, in order |
| MiningGuard.RawHas | backend/installers/mining_guard.py:499-686 | what was found is exactly what the completed scans should find: miners and unlisted processes on the GPU, miners in the table, pool ports, files with a hit |
| MiningGuard.CollectInOrder | backend/installers/mining_guard.py:499-686 | in the order of what it was found on |
| MiningGuard.KillMiners | backend/installers/mining_guard.py:753-759 | exactly the killable known miners with a nonzero pid are killed, and only if asked |
| MiningGuard.RunHostMinerSweep | backend/installers/mining_guard.py:720-766 | the first finding of each key in order; with `kill`, exactly the killable pids of miners that a completed scan of GPU or process table saw are killed; the verdict is exactly the evidence whatever was killed |
| Session.EncodeSignature | middleware.ts:12-17 | the binary string and the replacements lose nothing: a strict decoder gives the bytes back, and the text is safe in a cookie |
| Session.AlphabetIs | middleware.ts:12-17 | the symbols are those of RFC 4648, table 2 |
| Session.GroupIsNumber | middleware.ts:12-17 | three bytes and their four symbols' values are the same 24-bit number |
| Session.Base64UrlRoundTrip | middleware.ts:12-17 | a strict standard decoder gives the bytes back, and the text has no '.', '+', '/' or '=' |
| Session.DecodeThenEncode | middleware.ts:12-17 | whatever decodes is the encoding of what it decodes to |
| Session.Mismatch | middleware.ts:53-58 | the OR of XORs is zero exactly on equal strings |
| Session.VerifySession | middleware.ts:27-60 | returns the role exactly for three non-empty parts, an unexpired finite expiry, and signature bytes equal to the HMAC of `role.exp` |
| Session.AcceptableIffSigned | middleware.ts:27-60 | the acceptable cookies are exactly the signed ones that have not expired |
| Session.MintedCookieVerifies | app/api/session/route.ts:33-61 | a minted cookie is role, expiry and signature between dots, and verifies for its own role for seven days, and for no other role and no longer |
| Session.MintedForRolesOnly | app/api/session/route.ts:56-58 | a cookie is minted for a provider, a renter or an admin, and for nobody else |
| Session.DecimalReadsBack | app/api/session/route.ts:34-34 | the expiry's digits read back as the expiry |
| Png.FilterRows | backend/installers/dcp_menubar.py:319-323 | the row loop puts a zero filter byte before each row |
| Png.MakePng | backend/installers/dcp_menubar.py:310-327 | writes the file, or nothing where a length does not fit in four bytes |
| Png.ChunkRoundTrip | backend/installers/dcp_menubar.py:312-314 | a chunk is read back wherever it stands, with its CRC checked |
| Png.EncodedIs | backend/installers/dcp_menubar.py:312-314 | a chunk is length, type, data and the CRC of type and data |
| Png.Be32IsBigEndian | backend/installers/dcp_menubar.py:312-314 | numbers are written most significant byte first |
| Png.FilteredRow | backend/installers/dcp_menubar.py:319-323 | each row is a zero byte and its own bytes |
| Png.FilterRoundTrip | backend/installers/dcp_menubar.py:319-323 | taking off the filter bytes gives the pixels back |
| Png.HeaderCarriesSize | backend/installers/dcp_menubar.py:317-317 | the header holds width, height and 8-bit RGBA |
| Png.PngRoundTrip | backend/installers/dcp_menubar.py:310-327 | the file begins with the PNG signature and parses to exactly IHDR, IDAT and IEND, and inflating and unfiltering gives back the pixels |

## Left out

Premises of the job protocol, each a guard of some event in `Network`:

- fresh ids: job ids never repeat; a renter's id is used by one renter; a connection carries one peer id.
- reconnecting: an id connects again only after the handler of its old connection has returned (`Reconnect.LateByeHidesProvider` shows what happens otherwise).
- sending: a message to an open connection is enqueued before the sender suspends and is not lost; a closed connection may swallow what is sent to it.
- every peer runs this code, a provider's VRAM and hourly price are fixed for its id, and its advertised capacity agrees with them.

What the models abstract from:

- floats: prices, estimates and charges are exact integers; the source divides in floating point before truncating. Percentages in the VRAM watch and capacities in the discovery store are exact reals; times in the watchdogs are whole seconds.
- job execution: containers, time limits and output are an outcome and a duration; the limit in `_execute_job` covers only process creation.
- waiting: the renter's event and its timeout are one step that may happen at any time while it waits.
- the content id is taken as injective on environments, and the DHT as a map; peer routing, gossip, relays and timeouts that lose puts are not modelled beyond a put not landing.
- the discovery index under concurrent updates or failed reads, which can lose ids.
- trimming knows the ASCII whitespace characters only.
- `job_fail` or teardown in two processes at once: both read, then write, without a lock.
- launching without a job id, the preparation of a launch beyond its success or failure, and the split between the REST and GraphQL create paths, which differ in the request but not in how replies are treated.
- BurstLifecycle.ActivePods.TeardownPod: does not read the record's JSON; an unreadable one is a record with nothing to snapshot by. Relays are not part of the state.
- ShellQuote: an unquoted character that expands, and words with a NUL, are outside the tokenizer; reserved words, aliases and field splitting are not modelled.
- the docs tree keeps nodes in an arena instead of heap objects, and takes `localeCompare` as any total preorder; reading files and front matter is not modelled.
- the VRAM watch's sequences hold the runs that end, with the state file read and written: a send or a write that raises ends a run early and lets the next one post again, and a file that does not parse ends every run until it is mended. The serving watch ignores send failures, and so does its model; a state file that parses to something other than an object is not modelled.
- the text of notices and the diagnosis line.
- redirect sources are matched on exact path segments; Next.js matches case-insensitively and normalises trailing slashes and encodings.
- MiningGuard: command lines are lower-cased for ASCII only; findings carry no command text, snippet or severity; collecting the paths to read, the pod scan, the iptables rules and the integrity baseline are not modelled.
- Session: HMAC, UTF-8 encoding and JavaScript's `Number` are parameters; cookie attributes and the route gates after verification are not modelled.
- Png: CRC-32 and zlib are parameters, zlib lossless; drawing the icon is not modelled.
- `Escrow.sol`, the Express backend, the React pages, the tray and menu application, reporting scripts and analytics helpers: user interface, data tables or straight-line plumbing that would add only easy members.
