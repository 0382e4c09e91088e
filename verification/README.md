# Verified models of the cluster control plane

This project models the stateful core of the cluster manager in Dafny and proves what that core is
for, over every input, every run and every interleaving. `dafny verify dfyconfig.toml` checks it.

| part | modules | what is proved |
|---|---|---|
| Quota arithmetic | `Apportionment`, `TokenBank`, `QuotaPolicy` | weighted shares are an exact apportionment; the replay of missed days beats or ties every other schedule; every credited byte is banked, spent or overflowed |
| Sliding IP bitmaps | `IpBitmap`, `IpUsage`, `IpUsageStore`, `IpViews` | the bitmaps refine sets of absolute minutes; predicting known locations commutes with advancing; segments, series and lanes are exactly what the sets say |
| Traffic history | the modules named `Traffic...` | bytes are conserved from counters to buckets to users; daily totals agree with the buckets; every report is compared with that of a run which never prunes anything, with the exact condition for them to be the same; aggregation is exact or absent, in any order |
| Idempotency ledger | `Idempotency` | over every run with failed writes and crashes, the ledger answers like a book that is never pruned and never restarts; ids bound to no request are refused until they expire |
| Peer requests | `PeerBreaker`, `Routing`, `TelemetryFlush` | probes are exclusive under real time; each call is counted once and used one class of route; deferred writes lose nothing |
| Cycle windows | `Calendar`, `CycleWindow` | the windows partition the timeline for every offset and anchor day |
| Joining a node | `JoinSession`, `JoinProtocol`, `JoinRuns` | the order of writes survives crashes and changes of leader between any two of them |

`Words`, `Arith`, `Collections` and `MapSum` hold machine words and the shared facts about sequences,
products and sums.

How the model relates to the code:

- Code that updates state in place is a class or a method with loops, proved against a function on
  values; what the code promises is then proved about that function. Concurrent and crash-prone code
  is a state machine whose runs are sequences of events, and every theorem about it is about every run.
- Times are whole numbers (milliseconds, seconds, minutes or nanoseconds, as each module says). `u64`
  values are bounded and saturate where the code saturates.
- The outside world is a parameter: clock readings, whether a write or a send succeeds, what a peer
  answers, what a stale read returns.
- Membership keys, user names and bucket times are only compared by the code, so numbers stand for
  them, in the same order.

Where a promise does not hold of the code, the code is modelled as it is, a lemma shows a case and
another says exactly when the promise holds:

- A replay with nothing to spend is iterated rollover unless the plan has no cycle or carry days and
  the bank is positive: the replay keeps that bank, rolling over wipes it
  (`QuotaPolicy.IdleReplayMayKeepBank`, `QuotaPolicy.IdleReplayIsIteratedRollover`).
- A probe that is granted and then dropped without a report, as when its URL does not join, leaves its
  peer skipped for good: `PeerBreaker.DroppedProbeWedgesPeer` is such a run from the start. In every
  run the half-open flag is set exactly while a probe is in flight, and every peer whose wait is over
  is probed, if and only if no probe was dropped (`PeerBreaker.FlagsAreExactIff`,
  `PeerBreaker.PeersAreProbedIff`); dropping ordinary attempts does no harm.
- `end_to_end_counts` is exact unless nothing has finished yet while a Mesh attempt has failed
  (`Routing.UnfinishedCallReadsAsFailure`, `Routing.CountsAreExactIff`).
- A consumed session's node has been a voter, but need not be one any more: a coordinator that looks
  with metrics older than the operation it reads may remove it (`JoinRuns.ConsumedNodeMayBeGone`). It
  is a voter if and only if no expiry of the run took its vote without a later promotion
  (`JoinRuns.ConsumedNodeIsVoterIff`).
- Pruning can show in a report. Old buckets and days are never missed
  (`TrafficReport.RetentionNeverShows`), but old baselines are: a counter that comes back after its
  baseline was dropped counts as new, so the day it was last seen on stays complete
  (`TrafficUnprunedReports.PruningMayShow`). For every run, a record with nothing ever pruned is the
  same but for those days (`TrafficUnpruned.UnprunedIsMarked`), and a report of the node or of a user
  is the same if and only if they do not show in it (`TrafficUnprunedReports.PruningShowsIff`,
  `TrafficUnprunedReports.UserPruningShowsIff`): none that its points show is complete in the record,
  and in its summary they hold no bytes that count, end no completeness and move no start.
- Over several nodes it can show in a second way: a node whose only early bucket is pruned no longer
  counts as started, so a gap it made disappears (`TrafficMerged.MergedPruningMayShow`). A slot changes
  if and only if that happens to every node that lacks it and nothing else is missing
  (`TrafficMerged.MergedSlotChangesIff`). Against runs that never prune anything, the exact condition
  for a whole report is `TrafficMerged.MergedPruningShowsIff`.
- The last-seen time of an IP is the newest minute held exactly when the last call that visited the
  record was filed under its own minute (`IpUsage.SeenTimesAreTrueIff`); a call with an earlier minute
  writes that minute (`IpUsage.SeenTimesMayLie`).

## Model

| member | source | states |
|---|---|---|
| `Apportionment.AllocateTotalByWeight` | src/quota_policy.rs:24-76 | every item gets its apportioned share, for any total and weights |
| `Apportionment.FloorShares` | src/quota_policy.rs:38-44 | the first loop gives every item its rounded-down share and adds them up without overflow |
| `Apportionment.DistributeRemainder` | src/quota_policy.rs:46-73 | handing out the remainder in stable order turns floors into shares |
| `Apportionment.ExactApportionment` | src/quota_policy.rs:24-76 | shares sum to the total, are the exact share rounded down or one more, zero weights get nothing, an earlier item of no smaller weight never gets less |
| `Apportionment.RemainderBelowEligible` | src/quota_policy.rs:46-67 | the remainder is smaller than the number of positive weights, so the branch for more than one unit each is never taken |
| `Apportionment.RoundingLoss` | src/quota_policy.rs:38-47 | what rounding down loses is below one unit per positive weight |
| `QuotaPolicy.CapBytesForDay` | src/quota_policy.rs:88-103 | the loop gives the saturated sum of the credits in the carry window |
| `QuotaPolicy.RollAndSpend` | src/quota_policy.rs:150-165 | one day of the replay credits, caps and spends by the rule |
| `QuotaPolicy.ReplayRolloversAndSpend` | src/quota_policy.rs:134-168 | the loop computes the replay, including the ranges and plans it skips |
| `QuotaPolicy.RolloverFollowsRule` | src/quota_policy.rs:106-122 | daily rollover is the credit-then-cap rule that schedules are measured by |
| `QuotaPolicy.ReplayIsOptimal` | src/quota_policy.rs:124-168 | no schedule over the same days leaves less unspent or ends with more bank and spending together |
| `QuotaPolicy.ReplayClearsIffFeasible` | src/quota_policy.rs:124-168 | nothing stays unspent exactly when some schedule spends everything |
| `QuotaPolicy.ReplaySplits` | src/quota_policy.rs:134-168 | replaying two adjacent ranges is replaying them at once |
| `QuotaPolicy.IdleReplayIsIteratedRollover` | src/quota_policy.rs:134-168 | with nothing to spend, replay is iterated rollover exactly when the plan has cycle and carry days, the bank is empty or the range is |
| `QuotaPolicy.IdleReplayMayKeepBank` | src/quota_policy.rs:134-168 | a plan without carry days and a positive bank: the replay keeps what rolling over wipes |
| `QuotaPolicy.CycleCreditsSumToBase` | src/quota_policy.rs:78-86 | the credits of a cycle add up to the base quota |
| `QuotaPolicy.CreditsNeverIncrease` | src/quota_policy.rs:78-86 | a later day never gets more credit |
| `QuotaPolicy.BankConservation` | src/quota_policy.rs:78-122 | for any daily spends within the bank: credits so far are bank plus spent plus overflow, the bank stays within the cap, nothing saturates |
| `QuotaPolicy.NoOverflowWhileCarrying` | src/quota_policy.rs:88-122 | nothing overflows while the carry window reaches back to the first day |
| `TokenBank.GreedyStaysAhead` | src/quota_policy.rs:124-168 | the exchange argument, for any credits and caps: spending early is never behind |
| `TokenBank.GreedyClearsIffFeasible` | src/quota_policy.rs:124-168 | spending early finds a schedule that spends everything exactly when there is one |
| `IpBitmap.TestBit` | src/inbound_ip_usage.rs:785-792 | reading a bit is membership in the set the bitmap stands for |
| `IpBitmap.PutBit` | src/inbound_ip_usage.rs:794-804 | writing a bit adds or removes one element and out-of-range writes change nothing |
| `IpBitmap.MarkedCount` | src/inbound_ip_usage.rs:806-808 | counting bits byte by byte is the size of the set |
| `IpBitmap.MarkedDetermines` | src/inbound_ip_usage.rs:785-808 | the set determines the bitmap |
| `IpBitmap.ShiftBitmap` | src/inbound_ip_usage.rs:831-848 | shifting keeps exactly the elements that stay in the window, moved down |
| `IpBitmap.BitmapHasAnyBitAfterShift` | src/inbound_ip_usage.rs:810-829 | the masked-byte test says whether anything survives the shift |
| `IpBitmap.SurvivesIffShiftedCount` | src/inbound_ip_usage.rs:810-848 | that test agrees with shifting and counting, for every shift |
| `IpUsage.RunHoldsTheWindow` | src/inbound_ip_usage.rs:405-556 | after any run, an IP is held at a minute exactly when it was sampled then and the minute is in the window |
| `IpUsage.FiledUnderOwnMinute` | src/inbound_ip_usage.rs:518-525 | with minutes that never go back, each call is filed under its own minute |
| `IpUsage.RecordsAreNotEmpty` | src/inbound_ip_usage.rs:527-556 | a record exists exactly when it holds a minute |
| `IpUsage.SeenTimesAfterRun` | src/inbound_ip_usage.rs:475-492 | after any run, first seen is no later than any minute held, last seen is the minute of the last call that visited the record, and the newest minute held the one that call was filed under |
| `IpUsage.SeenTimesAreTrueIff` | src/inbound_ip_usage.rs:475-526 | so last seen is the newest minute held exactly when that call was filed under its own minute |
| `IpUsage.SeenTimesMayLie` | src/inbound_ip_usage.rs:489-526 | a call whose minute has gone back leaves a last-seen time older than a minute held |
| `IpUsage.SeenTimesAreTrue` | src/inbound_ip_usage.rs:475-492 | with minutes that never go back, both times are always true |
| `IpUsage.PredictThenAdvance` | src/inbound_ip_usage.rs:235-256 | the locations predicted for a future minute are those known after advancing to it |
| `IpUsageStore.InboundIpUsage.constructor` | src/inbound_ip_usage.rs:109-120 | an empty store stands for no minutes |
| `IpUsageStore.InboundIpUsage.AdvanceToMinute` | src/inbound_ip_usage.rs:518-556 | sliding the bitmaps forgets exactly the minutes that left the window, and empty records |
| `IpUsageStore.InboundIpUsage.RecordMinuteSamples` | src/inbound_ip_usage.rs:405-516 | one call changes the bitmaps as it changes the sets of minutes and locations |
| `IpUsageStore.InboundIpUsage.RecordAll` | src/inbound_ip_usage.rs:405-516 | a whole run of calls does |
| `IpUsageStore.InboundIpUsage.BitMeansMinute` | src/inbound_ip_usage.rs:60-72 | bit i is set exactly when minute latest - (10079 - i) is in the set, and `minutes` counts the bits |
| `IpUsageStore.CollectKnownGeo` | src/inbound_ip_usage.rs:235-256 | the loop finds, for each IP, the location of the first surviving record that has one |
| `IpUsageStore.KnownForCall` | src/inbound_ip_usage.rs:311-345 | the locations a call starts from, with and without reuse |
| `IpViews.BuildSegments` | src/inbound_ip_usage.rs:862-893 | the segments are the maximal runs of present minutes |
| `IpViews.RunsAreUnique` | src/inbound_ip_usage.rs:862-893 | the flags have only one such list, so segments expand back to them |
| `IpViews.ExtractWindowFlags` | src/inbound_ip_usage.rs:850-854 | a flag says whether the record is marked at that offset of the window |
| `IpViews.UnionFlags` | src/inbound_ip_usage.rs:856-860 | as far as both lists reach, a minute is present in the union exactly when it is in either; the rest of the target stays |
| `IpViews.CollectFlags` | src/inbound_ip_usage.rs:573-620 | per IP and per lane, the union of the listed memberships' records, without those never seen |
| `IpViews.CountPresent` | src/inbound_ip_usage.rs:624-626 | the loop over the IPs counts those present at a minute |
| `IpViews.BuildSeries` | src/inbound_ip_usage.rs:622-627 | each point counts the distinct IPs present that minute |
| `IpViews.SeriesAddsUp` | src/inbound_ip_usage.rs:622-662 | the points add up to the per-IP minutes |
| `IpViews.BuildWindowView` | src/inbound_ip_usage.rs:559-671 | the whole view, stated over the sets of minutes: IPs, flags, series and lane segments |
| `TrafficSample.MeasureSample` | src/node_history.rs:880-1008 | the sampling loops leave the new baselines and what the counters' changes amount to, for the node and for each user |
| `TrafficSample.MeasuresGrowth` | src/node_history.rs:910-930 | measured bytes are the exact growth, up to saturation |
| `TrafficSample.MeasuresCompleteness` | src/node_history.rs:927-999 | a measure is complete exactly while every counter grew from the slot before, known once one did |
| `TrafficSample.GrowthIsShared` | src/node_history.rs:899-939 | a node's growth is its users' plus that of probes, userless memberships and deleted users |
| `TrafficSeries.Put` | src/node_history.rs:1169-1179 | replacing or appending and sorting keeps the list sorted and changes one time only |
| `TrafficSeries.UpdateDaily` | src/node_history.rs:1181-1218 | one reading added to its day, which an incomplete reading spoils |
| `TrafficSeries.MarkIncomplete` | src/node_history.rs:1220-1244 | every day of a gap becomes incomplete and no other changes |
| `TrafficSeries.Note` | src/node_history.rs:1014-1039 | a reading reaches the bucket, its day and the days a gap spoiled, and nothing else |
| `TrafficPrune.Retain` | src/node_history.rs:373-390 | the cut-off keeps exactly the buckets from it on |
| `TrafficPrune.KeepNewest` | src/node_history.rs:380-393 | the cap keeps exactly the newest buckets |
| `TrafficPrune.PruneRollup` | src/node_history.rs:373-409 | both, for the two lists of a node or a user |
| `TrafficPrune.CapsKeepEverything` | src/node_history.rs:373-393 | with buckets on the grid and none from the future, the caps never remove what the cut-off kept |
| `TrafficHistory.UpdateLegacy` | src/node_history.rs:1140-1167 | the older daily map adds known readings and stays silent about unknown new days |
| `TrafficHistory.NoteUsers` | src/node_history.rs:1051-1089 | every measured user gets its reading and becomes active, the others are untouched |
| `TrafficHistory.RemoveUsers` | src/node_history.rs:1091-1138 | a user whose memberships are gone leaves one incomplete bucket and becomes inactive, once |
| `TrafficHistory.PruneUsers` | src/node_history.rs:394-415 | users are pruned like nodes and dropped when inactive and empty |
| `TrafficHistory.TrafficRecord.constructor` | src/node_history.rs:330-343 | an empty record |
| `TrafficHistory.TrafficRecord.RecordSample` | src/node_history.rs:870-1138 | a sample changes the stored lists and maps as it changes the record looked up by time |
| `TrafficHistory.TrafficRecord.Prune` | src/node_history.rs:360-418 | so does pruning |
| `TrafficHistory.TrafficRecord.RecordLocalSample` | src/node_history.rs:577-604 | and so does every call, with or without a sample |
| `TrafficRuns.PruningOnlyRestricts` | src/node_history.rs:373-393 | over every run with a monotone clock, the buckets and days of the record are the recent part of all that the run recorded |
| `TrafficAgreement.DailyRollupAgrees` | src/node_history.rs:1014-1049 | after every run from empty, a day is complete exactly when both values are there, and then equals the sum of its five-minute values and the older daily entry |
| `TrafficAgreement.NotedAgrees` | src/node_history.rs:1169-1244 | a reading in a fresh slot, complete or not and with any gaps, keeps every day truthful |
| `TrafficAgreement.LegacyStepAgrees` | src/node_history.rs:1140-1167 | and keeps the older daily map equal to every complete day |
| `TrafficUsers.UserPruningOnlyRestricts` | src/node_history.rs:394-415 | over every run a user's buckets and days are the recent part of all that the run recorded for it, and a dropped record had nothing recent |
| `TrafficUsers.UserRollupAgrees` | src/node_history.rs:1051-1138 | after every run each user's complete days hold the sum of its five-minute values |
| `TrafficCycle.UpdateCycle` | src/node_history.rs:1246-1303 | the in-place update resets on a new window and feeds the reading |
| `TrafficCycle.AccumulatorIsExact` | src/node_history.rs:1246-1303 | after any run the accumulator is the saturated sum of the readings since its window began, complete exactly when the cycle before led into it and no reading is missing |
| `TrafficConservation.NodeIsUsersAndOthers` | src/node_history.rs:899-939 | unless it overflows, the node's measure is the sum of its users' measures plus probe, userless and deleted-user growth |
| `TrafficConservation.NodeBucketIsUserBuckets` | src/node_history.rs:1014-1063 | a complete node bucket holds what its users' buckets hold plus that other growth, unless a user with counters is unavailable |
| `TrafficConservation.GrowthIsDifference` | src/node_history.rs:910-928 | the growth of a sample is its counters minus the baselines, whatever their order |
| `TrafficConservation.BucketsConserveTraffic` | src/node_history.rs:870-1043 | the buckets that a run of consecutive samples fills after its first add up to the counters' growth |
| `TrafficReport.BuildSummary` | src/node_history.rs:1644-1712 | the loop gives the 30-day summary of the days found |
| `TrafficReport.SummaryCompleteIff` | src/node_history.rs:1662-1690 | the summary is complete exactly when every day is there and complete |
| `TrafficReport.SummaryAddsUp` | src/node_history.rs:1662-1690 | and holds the saturated sum of the days that have values |
| `TrafficReport.ReadSlots` | src/node_history.rs:1468-1501 | the loop gives 288 slots in order, each point read from its own bucket |
| `TrafficReport.ReadDays` | src/node_history.rs:1502-1538 | likewise 31 days, today marked |
| `TrafficReport.ClearToday` | src/node_history.rs:1552-1561 | a stale record shows nothing for today |
| `TrafficReport.BuildTrafficReport` | src/node_history.rs:1461-1583 | on the sorted lists of a record, the loops give the report of its buckets looked up by time |
| `TrafficReport.RestrictionNeverShows` | src/node_history.rs:1461-1588 | a report reads nothing that an earlier prune could have dropped |
| `TrafficReport.RetentionNeverShows` | src/node_history.rs:1461-1588 | after every run, a later 24h or 31d report of the node shows all buckets and days that the run recorded, dropped or not |
| `TrafficMarks.MarksShowIff` | src/node_history.rs:1461-1583 | exactly when marking slots and days incomplete changes a report, for either window, stale or not |
| `TrafficMarks.MarksShowInPointsIff` | src/node_history.rs:1466-1561 | its points change exactly when one they show had values to lose, today of a stale record aside |
| `TrafficMarks.SummaryHidesIff` | src/node_history.rs:1644-1712 | its summary stays exactly when it was incomplete or has no marked day, starts on the same day, and the marked days held no bytes or the sum saturates without them |
| `TrafficMarks.AbsentDaysMoveStart` | src/node_history.rs:1662-1690 | marking days that were not there can only move the day a summary starts on |
| `TrafficUnpruned.UnprunedIsMarked` | src/node_history.rs:360-418 | over every run, a record with nothing ever pruned has the same buckets and older daily entries, and the same days but for those lost with a dropped baseline; the kept baselines are the recent ones |
| `TrafficUnpruned.UnprunedUserIsMarked` | src/node_history.rs:394-418 | likewise each user's record, which is active in both or in neither |
| `TrafficUnpruned.ClassifyForgets` | src/node_history.rs:940-985 | a returning counter is a gap, unless its baseline was dropped: then it counts as new |
| `TrafficUnpruned.NodeForgets` | src/node_history.rs:899-999 | dropped baselines change nothing in what a sample measures but the days of its gaps |
| `TrafficUnprunedReports.PruningShowsIff` | src/node_history.rs:360-418 | after every run, a later report of the node is the one of a record with nothing ever pruned if and only if the lost days do not show |
| `TrafficUnprunedReports.PruningShowsInPointsIff` | src/node_history.rs:360-418 | its points are, if and only if no lost day they show is complete in the record; those of a 24h report always are |
| `TrafficUnprunedReports.UserPruningShowsIff` | src/node_history.rs:394-418 | the same for a user on one node |
| `TrafficUnprunedReports.UserPruningShowsInPointsIff` | src/node_history.rs:394-418 | and its points |
| `TrafficUnprunedReports.DroppedUserShowsNothing` | src/node_history.rs:412-414 | a user record dropped as empty would show nothing had nothing ever been pruned |
| `TrafficUnprunedReports.PruningMayShow` | src/node_history.rs:415-416 | a run of four calls whose 31d report shows a day as complete that a never-pruned record marks incomplete |
| `TrafficAggregate.Aggregate` | src/node_history.rs:1311-1424 | a value is present exactly when every holder is complete and no applicable node lacks it, and is then the saturating sum |
| `TrafficAggregate.AddSources` | src/node_history.rs:1317-1342 | the nested loops join the buckets of each time in the order of the nodes |
| `TrafficAggregate.AnyLacks` | src/node_history.rs:1380-1387 | the gap test finds an applicable node without the bucket exactly when there is one |
| `TrafficAggregate.ClearGaps` | src/node_history.rs:1380-1408 | the second pass clears exactly the buckets with a gap |
| `TrafficAggregate.JoinedMeans` | src/node_history.rs:1453-1459 | joining in turn gives the sum, complete exactly when everything joined was |
| `TrafficAggregate.AggregationIsOrderFree` | src/node_history.rs:1311-1424 | the same nodes in another order give the same buckets |
| `TrafficUserReports.UserTrafficReport` | src/node_history.rs:774-796 | nothing without a record, otherwise the report of the selected records' aggregate, last sampled when the latest of them was |
| `TrafficUserReports.Select` | src/node_history.rs:782-790 | the loop keeps the user's records, of one node or of all, in order |
| `TrafficUserReports.OneNodeSelectsOne` | src/node_history.rs:782-790 | asking for one node selects its record alone, or nothing |
| `TrafficUserReports.AggregateUserRecords` | src/node_history.rs:1311-1424 | both lists are aggregated exactly, sorted, with the latest sample time |
| `TrafficUserReports.LatestSample` | src/node_history.rs:1376-1378 | the loop finds the latest sample time, none when there is none |
| `TrafficUserReports.AggregateList` | src/node_history.rs:1410-1413 | the aggregate as a sorted list |
| `TrafficUserReports.SingleSourceIsItself` | src/node_history.rs:1311-1451 | a single list is its own aggregate |
| `TrafficUserReports.MergingOneIsItself` | src/node_history.rs:774-796 | so the report over one record is that record's own |
| `TrafficUserReports.UserRetentionNeverShows` | src/node_history.rs:774-796 | after every run, a later report of a user on the node shows all buckets and days that the run recorded for it, and a dropped record had none left to show |
| `TrafficMerged.GapChangesIff` | src/node_history.rs:1426-1451 | pruning makes a node stop lacking a slot exactly when it had buckets before the cut, keeps none up to the slot, and is active or has a later one |
| `TrafficMerged.MergedSlotChangesIff` | src/node_history.rs:1311-1451 | over several nodes, each cut at its own time, a slot past the cuts changes exactly when every node lacking it loses its start and nothing else is missing |
| `TrafficMerged.MergedPointsChangeIff` | src/node_history.rs:1466-1561 | the points of a report over several nodes change exactly when a slot or day they show does, today of a stale record aside |
| `TrafficMerged.MergedReportChangesIff` | src/node_history.rs:1461-1583 | a whole report, 24h or 31d, stale or not, changes exactly when one of those changes shows in its points or its summary |
| `TrafficMerged.MergedPruningMayShow` | src/node_history.rs:1380-1394 | two nodes for which a slot does change: incomplete before pruning, complete after |
| `TrafficMerged.RemnantSlot` | src/node_history.rs:1311-1451 | never-pruned lists give a slot as incomplete when some node holds it incomplete or lacks it, otherwise the same as the pruned ones |
| `TrafficMerged.MergedPruningShowsIff` | src/node_history.rs:774-796 | after every run of every node, a user's report over all of them is the one of records with nothing ever pruned if and only if the spoiled slots and days do not show |
| `TrafficMerged.MergedPruningShowsInPointsIff` | src/node_history.rs:774-796 | its points are, if and only if none they show is spoiled there and complete here |
| `TrafficMerged.DroppedRecordIsNeutral` | src/node_history.rs:394-415 | a record dropped as inactive and empty does not change an aggregate |
| `TrafficMerged.DroppedWasStale` | src/node_history.rs:394-415 | its last sample is too old to keep a report from being stale |
| `TrafficMerged.DroppedRecordNeverShows` | src/node_history.rs:774-796 | so dropping it changes no report |
| `TrafficMerged.DroppedTimeIsStale` | src/node_history.rs:1376-1378 | and the latest sample time only when the dropped record had it, staleness never |
| `Idempotency.Prune` | src/internal_idempotency.rs:210-232 | the loop drops exactly the expired ids from both structures |
| `Idempotency.PruneTwice` | src/internal_idempotency.rs:210-232 | an earlier prune leaves no trace in a later one |
| `Idempotency.Open` | src/internal_idempotency.rs:84-113 | loading fails exactly on an unknown schema, drops the requests of schema 2, and publishes the pruned file |
| `Idempotency.Blank` | src/internal_idempotency.rs:98-104 | the loop drops every entry's request and nothing else |
| `Idempotency.InternalIdempotencyLedger.constructor` | src/internal_idempotency.rs:107-112 | a file whose schema was accepted is published pruned |
| `Idempotency.InternalIdempotencyLedger.Begin` | src/internal_idempotency.rs:115-154 | persist, then publish; a failed write publishes nothing |
| `Idempotency.InternalIdempotencyLedger.Finish` | src/internal_idempotency.rs:156-193 | likewise, and only for the request that began |
| `Idempotency.LedgerRefinesBook` | src/internal_idempotency.rs:84-232 | every run gives the answers of a book that is never pruned, and loses no live entry |
| `Idempotency.AnswerFollowsLastStore` | src/internal_idempotency.rs:115-154 | a repeated id is answered from its last stored entry within 10 minutes of its stamp, and starts afresh exactly afterwards |
| `Idempotency.ReloadsAreInvisible` | src/internal_idempotency.rs:84-113 | crashing and reloading anywhere changes no later answer |
| `Idempotency.UnboundIsRefusedWhileLive` | src/internal_idempotency.rs:105-193 | over every run, an id whose entry is bound to no request is refused by every begin and finish until the entry expires |
| `Idempotency.SchemaTwoFailsClosed` | src/internal_idempotency.rs:98-108 | so are all ids of a schema 2 file, in every run from its loading |
| `PeerBreaker.PeerCircuitBreakers.constructor` | src/control_plane_mesh.rs:47-58 | every circuit starts closed |
| `PeerBreaker.PeerCircuitBreakers.BeforeAttempt` | src/control_plane_mesh.rs:61-76 | grants an attempt, one probe once the wait is over, or nothing, and sets the half-open flag only for a probe |
| `PeerBreaker.PeerCircuitBreakers.RecordSuccess` | src/control_plane_mesh.rs:78-85 | a success resets its own circuit only |
| `PeerBreaker.PeerCircuitBreakers.ReleaseHalfOpenProbe` | src/control_plane_mesh.rs:87-92 | a release clears the flag and nothing else |
| `PeerBreaker.PeerCircuitBreakers.RecordRetryableFailure` | src/control_plane_mesh.rs:94-106 | from the third failure on, each opens for the next longer wait |
| `PeerBreaker.WaitsNeverShrink` | src/control_plane_mesh.rs:29-36 | consecutive failures wait ever longer, between 30 s and 5 min |
| `PeerBreaker.MeshAttemptBudget` | src/control_plane_mesh.rs:123-126 | an attempt never gets less than 0.5 s or more than 5 s |
| `PeerBreaker.StepKeepsInv` | src/control_plane_mesh.rs:29-126 | every grant, report and tick keeps what a request in flight knows about its circuit |
| `PeerBreaker.EveryRunIsSafe` | src/control_plane_mesh.rs:29-126 | in every timed interleaving no two probes to a peer are in flight, and the three marks of an open circuit agree |
| `PeerBreaker.FlagsAreExactIff` | src/control_plane_mesh.rs:61-106 | after a run, the flag is set exactly while a probe is in flight if and only if no probe was dropped without a report |
| `PeerBreaker.PeersAreProbedIff` | src/control_plane_mesh.rs:61-76 | after a run, the next request to every peer past its wait is a probe exactly when none is under way, if and only if no probe was dropped |
| `PeerBreaker.DroppedProbeWedgesPeer` | src/control_plane_mesh.rs:470-484 | a run from the start in which one is, and the peer ends up skipped with no probe under way |
| `PeerBreaker.AbandonedProbeBlocksPeer` | src/control_plane_mesh.rs:470-484 | a probe that never reports leaves its peer skipped in every later run |
| `PeerBreaker.AbandoningAProbeWedges` | src/control_plane_mesh.rs:481-484 | returning after a grant without a report does that |
| `Routing.TryMesh` | src/control_plane_mesh.rs:470-578 | every ending of a direct attempt: counts, breaker report, and whether the outcome is ambiguous |
| `Routing.TryRelays` | src/control_plane_mesh.rs:580-625 | a relay answers and is counted once, or the outcome is ambiguous once anything was sent |
| `Routing.TryPublic` | src/control_plane_mesh.rs:627-690 | the public address is used only when allowed and not after an ambiguous outcome that forbids it |
| `Routing.Send` | src/control_plane_mesh.rs:452-691 | one end-to-end count per call whose URLs join, a success exactly on a response; one breaker report per granted attempt; one class of route without leave to repeat |
| `Routing.TelemetryBucket.constructor` | src/mesh_telemetry.rs:628-660 | a fresh bucket has counted nothing |
| `Routing.TelemetryBucket.RecordSample` | src/mesh_telemetry.rs:301-319 | a sample is counted for its path and, when final, end to end |
| `Routing.TelemetryBucket.RecordTerminalFailure` | src/mesh_telemetry.rs:410-436 | a final failure is counted end to end |
| `Routing.PathsMatchEndToEnd` | src/mesh_telemetry.rs:301-319 | at every moment the two paths' successes add up to the end-to-end successes |
| `Routing.TallyIsOrderFree` | src/mesh_telemetry.rs:249-342 | the counters do not depend on the order of concurrent calls |
| `Routing.EveryRunIsAccounted` | src/control_plane_mesh.rs:452-718 | over any interleaving, the counts are the numbers of calls that answered and that failed |
| `Routing.CountsAreExactIff` | src/mesh_telemetry.rs:691-699 | reading the counts is exact unless nothing has finished while a Mesh attempt has failed |
| `Routing.UnfinishedCallReadsAsFailure` | src/mesh_telemetry.rs:691-699 | such a reading shows an unfinished call as a failure |
| `TelemetryFlush.TelemetryState.constructor` | src/mesh_telemetry.rs:204-222 | what is loaded is clean |
| `TelemetryFlush.TelemetryState.PersistLocked` | src/mesh_telemetry.rs:490-506 | a write brings disk to memory or asks for a retry |
| `TelemetryFlush.TelemetryState.PersistSampleIfDue` | src/mesh_telemetry.rs:458-483 | a sample is written when due, or one flush is scheduled |
| `TelemetryFlush.TelemetryState.PersistImmediately` | src/mesh_telemetry.rs:485-488 | any other change is written at once |
| `TelemetryFlush.TelemetryState.FlushWakes` | src/mesh_telemetry.rs:515-543 | one round of the flush task: stop, sleep on, or write |
| `TelemetryFlush.NothingIsLost` | src/mesh_telemetry.rs:458-543 | in every reachable state dirty means scheduled or retrying, a flush has exactly one task, clean means on disk |
| `TelemetryFlush.MissingLastPersistIsUnreachable` | src/mesh_telemetry.rs:524-530 | a waking flush always knows the last sample write |
| `TelemetryFlush.SamplesAreSoonDurable` | src/mesh_telemetry.rs:458-543 | without write failures every sample is on disk within 5 s |
| `Calendar.MonthOfIsUnique` | src/cycle.rs:26-39 | a day belongs to exactly one month |
| `Calendar.GregorianTiles` | src/cycle.rs:26-39 | the Gregorian months tile the days, across leap years and centuries |
| `CycleWindow.WindowContainsItsInstants` | src/cycle.rs:81-105 | a window contains its instant and is the window of every instant in it |
| `CycleWindow.WindowsAbut` | src/cycle.rs:81-105 | the next window starts where this ends, the previous ends where it starts, each 28 to 31 days long |
| `CycleWindow.WindowStartsOnAnchorDay` | src/cycle.rs:26-39 | each window starts at local midnight of the anchor day, or of the month's last day |
| `CycleWindow.WindowsPartitionTime` | src/cycle.rs:115-135 | for every accepted offset and every anchor day the windows partition time |
| `JoinProtocol.StepKeepsInv` | src/join_coordinator.rs:162-534 | every await of every coordinator, on any stale reads, keeps the cluster safe and never moves it backwards |
| `JoinProtocol.TransitionKeepsInv` | src/join_coordinator.rs:24-58 | recording a phase is safe once it tells the truth about session and node |
| `JoinRuns.WriteOrderSurvivesCrashes` | src/join_coordinator.rs:162-534 | in every reachable state: learner phases never with a reserved session, completed only with a consumed one, expired only with an expired one; consumed only through LearnerRegistered of a promoted node |
| `JoinRuns.SessionsOnlyMoveForward` | src/join_session.rs:14-86 | along every run identity is fixed, the required log index never decreases, consumed and expired are final |
| `JoinRuns.VoteIsRemovedIff` | src/join_coordinator.rs:273-307 | a vote stands removed after a step exactly when the step is an expiry of a voter whose operation and metrics both show a voter, or it stood removed and the step is no successful promotion |
| `JoinRuns.ConsumedNodeIsVoterIff` | src/join_coordinator.rs:162-307 | after a run, a consumed session's node is a voter if and only if no expiry took its vote since it was last promoted |
| `JoinRuns.ConsumedNodeIsVoter` | src/join_coordinator.rs:162-307 | in particular while no look trusts metrics older than its operation |
| `JoinRuns.ConsumedNodeMayBeGone` | src/join_coordinator.rs:210-307 | a run in which one look does, and a session is consumed for a node that has been removed |

## Left out

- Cryptography, certificates, tokens, HTTP clients, DNS and JSON: sends and file writes are outcomes chosen by the environment.
- `CycleTimeZone::Local` and daylight saving: they depend on a time zone database; chrono's year limits are not modelled.
- IP parsing and normalisation, public-address tests, and location formatting: IPs arrive normalised and a lookup is a function.
- IpUsageStore.InboundIpUsage.RecordMinuteSamples: does not model membership labels, the time of the last call and the `changed` result; schema upgrades of the file are not modelled.
- IpViews.BuildWindowView: does not model sorting and truncating the lists, last-seen times, endpoint tags and locations of the listed IPs.
- Merging quota cycle accumulators across nodes: the merged one depends on the order of the nodes when cycles differ.
- TrafficCycle.UpdateCycle: stands beside the record, one accumulator at a time; warnings are not modelled.
- TrafficReport.BuildSummary: the 30-day branch, for records without a monthly cycle; the branch that copies a monthly cycle's accumulator is not modelled.
- TrafficReport.RestrictionNeverShows: reports of records without a monthly cycle; window bounds and warning texts are not modelled.
- TrafficReport.BuildTrafficReport: for records without a monthly cycle; window bounds, the shown sample time and warning texts are not modelled.
- TrafficUserReports.AggregateUserRecords: quota cycle accumulators are not merged.
- TrafficUserReports.UserTrafficReport: as above, without the monthly cycle.
- TrafficHistory.TrafficRecord.RecordSample: cycle accumulators and the sample time stand beside the record (TrafficCycle and the report's parameter); warnings are not modelled.
- TrafficHistory.TrafficRecord.RecordLocalSample: does not model the guard for a deleted node or the recording of component status.
- TrafficHistory.TrafficRecord.Prune: component status and its events are not part of the model, and stored timestamps are taken to parse.
- Replacing a node's record by a snapshot from that node, and clearing nodes and users.
- PeerBreaker.PeerCircuitBreakers.BeforeAttempt: the clock reading and the step are one moment, while the code reads the clock before it waits for the lock.
- PeerBreaker.PeerCircuitBreakers.RecordRetryableFailure: likewise, so a wait may be counted from a moment slightly before the failure is recorded.
- The breaker's `state` query and the breaker field of the telemetry.
- Idempotency.SchemaTwoFailsClosed: the file counts as blanked from the start, since every load blanks it until the first write replaces it.
- Routing.Send: telemetry is attached; latencies, transport observations, peer reasons and the active route are not modelled, nor is the overflow of 32-bit counters.
- Routing.TelemetryBucket.RecordSample: counts one bucket; the choice and the eviction of minute buckets are not modelled.
- TelemetryFlush.SamplesAreSoonDurable: a flush task runs as soon as its sleep is over, and is spawned in the same step that schedules it.
- JoinProtocol.StepKeepsInv: one joining node; Raft is a facade that applies accepted writes in order, membership is that node's role, reads return some past state; the process-local gate is not modelled, so more interleavings are covered than can happen.
- Liveness of the join protocol, pruning of finished operations, and node removal by an operator.
- Floating-point availability and latency percentiles, warning texts, the user interface, configuration and build scripts.
