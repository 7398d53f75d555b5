# Quorum commit, and what it leans on

A model of the quorum-commit protocol of Patroni, together with some smaller pieces of the same repository that
carry an argument of their own.

Two registers decide which standbys hold a commit and which may be promoted: the `/sync` key of the DCS with
(leader, quorum, voters), and `synchronous_standby_names` of PostgreSQL with (numsync, sync). They are written one
after the other and never together. `QuorumStateResolver` plans the order of the writes so that at every moment any
group of nodes able to acknowledge a commit meets any group able to elect a leader.

## How the model is laid out

| file | contents |
|---|---|
| `Names.dfy` | node names as ranks in the order of `sorted()`; finite-set arithmetic, pigeonhole |
| `QuorumState.dfy` | what each phase of a pass computes, on values: `Done` with the new state or `Raised` with the state at that moment |
| `Resolver.dfy` | `QuorumStateResolver` as a class; every method is proved equal to its function |
| `Overlap.dfy`, `Election.dfy` | the meaning of the invariant: groups that elect and groups that acknowledge; the vote loop |
| `Replay.dfy`, `Iteration.dfy` | the registers after each planned transition; merging of neighbours of one kind |
| `Phases.dfy`, `Growth.dfy`, `Repairs.dfy` | each phase from every state: where it ends, and exactly when it raises |
| `Passes.dfy`, `Transfer.dfy` | whole passes: convergence, fail-over, change of the factor, silence |
| `PassEnds.dfy` | every pass under a known primary in closed form: exactly when it raises, and the registers it ends with |
| `Traces.dfy`, `Hints.dfy` | every transition a pass records, in closed form; what precedes and follows a hint to restart |
| `Seen.dfy`, `Earlier.dfy` | commits from before a pass, paired with every key of it that others see and with the one it ends with |
| `HaLoop.dfy`, `Rounds.dfy` | the real registers over runs of interrupted passes and changes of the primary; where an iteration ends |
| `Survival.dfy`, `Handover.dfy` | earlier commits through every key the HA loop writes, and across changes of the primary |
| `Corners.dfy` | inputs on which a promise of the documentation fails, each next to the exact condition |
| `MultiSync.dfy`, `Readiness.dfy` | the older protocol with several synchronous standbys, and when a standby counts as synchronous |
| `Executor.dfy` | the executor of long tasks, as interleaved steps |
| `JsonStream.dfy`, `Units.dfy`, `Topology.dfy`, `CaseInsensitiveSet.dfy` | stream splitting, unit conversion, the replication tree, the name set |
| `Bank.dfy` | the cache-aside bank service |

The code that assigns fields is a class or a method with a loop here; its contract equates the new state with a
function of the old one, and the properties are proved about that function.

## Main results

- Safety of an election: `Election.VotesHoldCommits`, and `Election.InvariantIsSafety`, which says the check of the
  resolver accepts exactly the registers under which no vote can lose an acknowledged position.
- Safety of every run: `HaLoop.NoCommitLost`, over passes cut short anywhere, repeated passes and changes of the primary.
- Safety of every pass from any state: `Replay.PassIsSound`; and of what is handed out: `Iteration.MergedPassGuarded`.
- Convergence and its limits: `Passes.PassReaches`, `Passes.MembershipChange`, `Passes.SecondPassOptimal`,
  `Transfer.SilentIffOptimal`; and exactly when a pass raises and where it ends otherwise, from every state under a
  known primary: `PassEnds.PassExact`, with the explicit families of `Passes.PassFromBalanced`; for a new primary
  `Transfer.FailoverExact`.
- Where an iteration of the loop ends that is carried out in full: `Rounds.IterationEnds`, key, names and number.
- Every transition of every pass, in order: `Traces.PassRecords`, under a known primary from any registers and for the
  first pass of a new primary.
- Commits from before a pass: `Seen.PassSeen`, from the same starts exact for every key that others see, and
  `Survival.EarlierCommitsSurvive`, the same for every key the loop goes through in any number of iterations, with
  `Survival.CommitsBeforeSurvive` for one iteration in terms of what it sees; `Earlier.UnchangedFactorKept` says it in a
  few words from a balanced start with an unchanged factor.
- Hand-over: `HaLoop.PrepromoteConsistent` with `Handover.WinnerClaims`; commits from before it through the new primary's
  loop, `Handover.HandoverSurvives`, and through any number of fail-overs, `Handover.HeirsHoldCommits`.
- The older protocol: `Readiness.EarlierCommitsHeld`, over whole runs: who may be promoted holds everything acknowledged
  so far; and the other half, who gets into the key and stays there: `Readiness.JoinsKey`, `Readiness.StaysInKey`.
- The other pieces: `Executor.ClearExact`, `JsonStream.IterResponseObjects`,
  `Units.RoundTripExact`, `Topology.ListingExact`, `Bank.RunCoherent` and `Bank.MoneyConserved`.

## What is assumed

- The primary is in none of `voters`, `sync` and `active` of its own pass; a non-empty `sync` has `numsync >= 1`;
  `sync_wanted >= 1`; the confirmed standbys are among those both listed and active. (`WellFormed`, `Startable`.)
- The members of the key are its leader and its voters (`patroni/dcs/__init__.py:667-672`).
- A write of the key is a compare-and-set that may fail, and the pass then ends.
- No node reports a WAL position below one it acknowledged (`Truthful`); for the older protocol, that positions do not
  fall, and that rows of `pg_stat_replication` show positions already reached (`Growing`, `Timely`).
- For JSON: a successful decode is not changed by what follows (`Settled`). True of objects (section 2 of RFC 8259);
  a lemma shows what happens otherwise.

## Where the code and its documentation differ

- The docstring of the resolver speaks of reaching the optimum "from any other arbitrary state". A pass that returns
  does (`PassReaches`), but some passes raise: `PassExact` says exactly which, from every state under a known primary,
  broken and interrupted ones included, and `Corners` holds an input for each family.
- The check of a new quorum comes before its adjustment, so that a pass can ask for more votes than there are voters.
  `QuorumExceedsExact` says exactly when, `FactorExceeds` in short for a change of the factor alone, and
  `UnchangedFactorBelow` that it never happens while the factor stays and a standby is alive.
- The overlap is that of the list in force. A commit acknowledged before a pass can be missed by an election under a
  key the pass writes (`EarlierCommitMissed`, from a balanced start; `SlackCommitMissed`, from equal sets with slack).
  `PassSeen` says exactly when none is, for every start under a known primary (balanced, with slack, interrupted or
  broken) and for the first pass of a new primary: each key that is not replaced at once by another has to cover the
  earlier list, and the keys are those after the repair, the removal, the addition and the change of the factor, in closed
  form (`TailKeeps`). `EarlierCommitsSurvive` lifts it to the loop. In short, from a balanced start with an unchanged
  factor: if no standby died, or all standbys were waited for, or as many as the factor are alive and the confirmed ones
  and the dead together do not exceed it (`UnchangedFactorKept`).
- A former leader may keep the lead without votes. That is safe exactly if it is the running primary, or if the running
  primary waits for every standby of a list that names it (`LeadSafeExact`).
- `_SyncState.numsync` is documented as 0 when the list contains `*`; the code passes the number on, and the
  constructor of the resolver cuts it to the size of the (then empty) set. The model follows the code.
- `AsyncExecutor`: that a cancelled thread reaches its `finally` before the next `schedule` is not enough for mutual
  exclusion, because `cancel` itself resets the action late (`LateResetLetsTwoRun`). `Clear` states both conditions,
  and `ClearExact` that together they are exact.

## Model

| member | source | states |
|---|---|---|
| Resolver.QuorumStateResolver.constructor | code/postgres-ha/patroni-master/patroni/quorum.py:111-140 | the initial fields, with `numsync` cut to the size of `sync` |
| Resolver.QuorumStateResolver.CheckInvariantsHere | code/postgres-ha/patroni-master/patroni/quorum.py:142-165 | succeeds exactly when the invariant holds, and changes nothing |
| Resolver.QuorumStateResolver.UpdateQuorum | code/postgres-ha/patroni-master/patroni/quorum.py:167-211 | new fields, recorded transitions and error of a write of the key: guard before adjustment, reset without voters and confirmations, hint to restart |
| Resolver.QuorumStateResolver.UpdateSync | code/postgres-ha/patroni-master/patroni/quorum.py:213-233 | the same for a write of the standby list |
| Resolver.QuorumStateResolver.EvictVoters | code/postgres-ha/patroni-master/patroni/quorum.py:264-269 | the vote taken from nodes neither listed nor alive equals its function |
| Resolver.QuorumStateResolver.ListVoters | code/postgres-ha/patroni-master/patroni/quorum.py:270-273 | listing the living voters equals its function |
| Resolver.QuorumStateResolver.UnlistDead | code/postgres-ha/patroni-master/patroni/quorum.py:278-283 | dropping dead standbys while the registers keep a common node equals its function |
| Resolver.QuorumStateResolver.AdmitVoters | code/postgres-ha/patroni-master/patroni/quorum.py:284-287 | votes for the living standbys equal their function |
| Resolver.QuorumStateResolver.UnlistVoteless | code/postgres-ha/patroni-master/patroni/quorum.py:288-293 | unlisting what has no vote equals its function |
| Resolver.QuorumStateResolver.RepairFewerListed | code/postgres-ha/patroni-master/patroni/quorum.py:260-273 | case 1 equals its function: evict voters that are neither listed nor alive, then list the living ones |
| Resolver.QuorumStateResolver.RepairMoreListed | code/postgres-ha/patroni-master/patroni/quorum.py:274-293 | case 2 equals its function: drop the dead, admit the living, drop what has no vote |
| Resolver.QuorumStateResolver.TrimSafetyMargin | code/postgres-ha/patroni-master/patroni/quorum.py:298-311 | cases 3 and 4 equal their function |
| Resolver.QuorumStateResolver.RepairInterrupted | code/postgres-ha/patroni-master/patroni/quorum.py:255-311 | the whole repair, with its assertion as an error outcome |
| Resolver.QuorumStateResolver.UnlistThenUnvote | code/postgres-ha/patroni-master/patroni/quorum.py:330-337 | the list is written before the key, with the factor raised if wanted |
| Resolver.QuorumStateResolver.SpendQuorum | code/postgres-ha/patroni-master/patroni/quorum.py:325-337 | at most as many dead nodes leave as the quorum covers |
| Resolver.QuorumStateResolver.SpendFactor | code/postgres-ha/patroni-master/patroni/quorum.py:338-346 | the rest is paid by the factor, key before list; a quorum left over is an assertion error |
| Resolver.QuorumStateResolver.RemoveGone | code/postgres-ha/patroni-master/patroni/quorum.py:313-346 | removal of dead nodes equals its function, from the end of the sorted order |
| Resolver.QuorumStateResolver.ListThenVote | code/postgres-ha/patroni-master/patroni/quorum.py:365-367 | the list is written before the key |
| Resolver.QuorumStateResolver.RaiseByAdding | code/postgres-ha/patroni-master/patroni/quorum.py:358-368 | nodes added while the wanted factor is not reached |
| Resolver.QuorumStateResolver.AddOthers | code/postgres-ha/patroni-master/patroni/quorum.py:369-373 | the others, key before list |
| Resolver.QuorumStateResolver.AddNew | code/postgres-ha/patroni-master/patroni/quorum.py:348-373 | addition of new nodes equals its function, from the start of the sorted order |
| Resolver.QuorumStateResolver.ChangeFactor | code/postgres-ha/patroni-master/patroni/quorum.py:375-393 | change of the replication factor equals its function |
| Resolver.QuorumStateResolver.EnterPass | code/postgres-ha/patroni-master/patroni/quorum.py:405-417 | fail-over or check, as one function |
| Resolver.QuorumStateResolver.EnterOrRecover | code/postgres-ha/patroni-master/patroni/quorum.py:404-420 | fail-over or check, and the handler that rewrites the key |
| Resolver.QuorumStateResolver.ProceedFromEntry | code/postgres-ha/patroni-master/patroni/quorum.py:422-437 | the leader assertion, the estimate of the confirmed count, and the four phases |
| Resolver.QuorumStateResolver.SettleDown | code/postgres-ha/patroni-master/patroni/quorum.py:429-437 | the four phases in order, each on the fields the earlier ones left |
| Resolver.QuorumStateResolver.Generate | code/postgres-ha/patroni-master/patroni/quorum.py:395-437 | a whole pass equals `GenerateTransitions`, errors and fields left behind included |
| Names.GreatestSorted | code/postgres-ha/patroni-master/patroni/quorum.py:329-329 | the nodes picked for removal sort after all that stay |
| Names.SmallestSorted | code/postgres-ha/patroni-master/patroni/quorum.py:361-361 | the nodes picked for addition sort before all that wait |
| Overlap.GuardedOverlaps | code/postgres-ha/patroni-master/patroni/quorum.py:55-57 | in a guarded state every electing group meets every acknowledging group |
| Overlap.InvariantIsOverlap | code/postgres-ha/patroni-master/patroni/quorum.py:150-165 | the check accepts a state if and only if all electing and acknowledging groups meet |
| Election.IsHealthiestNode | code/postgres-ha/patroni-master/patroni/ha.py:1321-1386 | the vote loop returns true if and only if every reachable, promotable node lets this one and, under quorum commit, the distinct supporters suffice or the former leader sees nobody ahead |
| Election.VotesHoldCommits | code/postgres-ha/patroni-master/patroni/ha.py:1336-1386 | whoever wins on votes in a guarded state holds every position acknowledged by the primary and `numsync` listed standbys |
| Election.InvariantIsSafety | code/postgres-ha/patroni-master/patroni/quorum.py:150-165 | the check accepts a state if and only if no run of the vote count elects a node without an acknowledged position |
| Election.SafeExact | code/postgres-ha/patroni-master/patroni/quorum.py:150-165 | for any two sets under a key that names the primary: votes are safe if and only if all members of the key are needed or key and list are small enough together |
| Election.WinnerHoldsCommits | code/postgres-ha/patroni-master/patroni/ha.py:1382-1386 | once the key names the running primary, a winner holds the acknowledged positions however the race was won |
| Election.LeadSafeExact | code/postgres-ha/patroni-master/patroni/ha.py:1382-1386 | the former-leader shortcut is safe if and only if the key names the running primary, or that primary waits for every standby of a list naming the former leader |
| Election.Ask | code/postgres-ha/patroni-master/patroni/ha.py:1339-1380 | what one answer means: a veto, being ahead, or a vote |
| Election.NobodyVetoes | code/postgres-ha/patroni-master/patroni/ha.py:1339-1372 | in terms of the raw answers: nobody ends the race if and only if each node that can be promoted is no running primary, is not ahead unless it is the leader of a synchronous key, and is not preferred by priority |
| Election.NoSecondPrimary | code/postgres-ha/patroni-master/patroni/ha.py:1340-1352 | so a node becomes primary neither beside a running one nor behind a node that could take over instead |
| Election.WhoVotes | code/postgres-ha/patroni-master/patroni/ha.py:1353-1378 | votes come exactly from members of the key that can be promoted, report a position and are not ahead |
| Election.WhoKeepsLead | code/postgres-ha/patroni-master/patroni/ha.py:1386-1386 | the shortcut applies exactly if the key names this node and nobody that can be promoted is ahead |
| Election.FormerLeaderMissesCommits | code/postgres-ha/patroni-master/patroni/ha.py:1386-1386 | an instance: before that, the shortcut elects a former leader without its successor's commits |
| Replay.HandleNonSteadyCasesSound | code/postgres-ha/patroni-master/patroni/quorum.py:255-311 | every transition of a repair that ends leads to a guarded state |
| Replay.RemoveGoneNodesSound | code/postgres-ha/patroni-master/patroni/quorum.py:313-346 | every transition of a removal leads to a guarded state |
| Replay.AddNewNodesSound | code/postgres-ha/patroni-master/patroni/quorum.py:348-373 | every transition of an addition leads to a guarded state |
| Replay.ChangeReplicationFactorSound | code/postgres-ha/patroni-master/patroni/quorum.py:375-393 | every transition of a change of the factor leads to a guarded state |
| Replay.RecoverSound | code/postgres-ha/patroni-master/patroni/quorum.py:404-420 | so do the transitions of fail-over and recovery |
| Replay.PassIsSound | code/postgres-ha/patroni-master/patroni/quorum.py:395-437 | from any startable state, broken ones included, replaying any prefix of a pass gives a guarded state, and replaying all of it the final registers |
| Replay.PassOverlaps | code/postgres-ha/patroni-master/patroni/quorum.py:55-57 | so at every moment of a pass elections meet commits |
| Iteration.Iterate | code/postgres-ha/patroni-master/patroni/quorum.py:235-253 | the loop hands out the last of each run of equal kinds and stops after a hint to restart |
| Iteration.MergeVisits | code/postgres-ha/patroni-master/patroni/quorum.py:238-242 | each state after a transition handed out is a state of the unmerged list, in order |
| Iteration.MergeEnds | code/postgres-ha/patroni-master/patroni/quorum.py:238-242 | without a hint to restart, both lists end in the same state |
| Iteration.MergeShape | code/postgres-ha/patroni-master/patroni/quorum.py:245-253 | the list handed out alternates between kinds, and nothing follows a hint to restart |
| Iteration.MergedPassGuarded | code/postgres-ha/patroni-master/patroni/ha.py:876-908 | stopping after any number of handed-out transitions leaves a guarded state |
| Phases.RemoveGoneNodesTotal | code/postgres-ha/patroni-master/patroni/quorum.py:313-346 | from every steady state nothing is raised, the assertion holds, and the living nodes are left in a steady state |
| Phases.RemoveRemainingAsserts | code/postgres-ha/patroni-master/patroni/quorum.py:338-339 | paying by the factor with votes still asked for, and only that, is an assertion error |
| Phases.QuorumRule | code/postgres-ha/patroni-master/patroni/quorum.py:183-211 | when a write of the key under an unchanged leader succeeds, what it records, and when it is silent |
| Phases.SyncRule | code/postgres-ha/patroni-master/patroni/quorum.py:226-233 | when a write of the list succeeds, and what it records |
| Phases.RemoveGoneNodesReaches | code/postgres-ha/patroni-master/patroni/quorum.py:313-346 | the exact quorum and factor after the removal, and exactly what it records |
| Growth.AddNewNodesExact | code/postgres-ha/patroni-master/patroni/quorum.py:348-373 | raises if and only if `AddFails`; otherwise all active nodes are listed, with the exact quorum and factor, and vote unless nothing is confirmed |
| Growth.AddNewNodesRecords | code/postgres-ha/patroni-master/patroni/quorum.py:348-373 | exactly what an addition records: list before key for the nodes that raise the factor, key before list for the others |
| Growth.AddFirst | code/postgres-ha/patroni-master/patroni/quorum.py:363-367 | with no standbys yet all nodes are listed at once, and vote only once some are confirmed |
| Growth.RaiseFactorRule | code/postgres-ha/patroni-master/patroni/quorum.py:382-386 | the exact record of a raised factor |
| Growth.LowerFactorRule | code/postgres-ha/patroni-master/patroni/quorum.py:387-393 | the exact record of a lowered factor, and exactly when it raises |
| Growth.ChangeReplicationFactorExact | code/postgres-ha/patroni-master/patroni/quorum.py:375-393 | raises if and only if `FactorFails`; otherwise reaches the requested factor with the exact quorum |
| Growth.ChangeRecords | code/postgres-ha/patroni-master/patroni/quorum.py:375-393 | exactly what a change of the factor records |
| Repairs.MatchSetsExact | code/postgres-ha/patroni-master/patroni/quorum.py:260-296 | the sets fail to match if and only if `RepairFails`; otherwise both hold exactly `Matched`, with the exact quorum and factor |
| Repairs.RepairVotersExact | code/postgres-ha/patroni-master/patroni/quorum.py:260-273 | case 1 raises if and only if nothing is listed while some voters are gone and some are not; otherwise the exact quorum and nodes |
| Repairs.RepairWithoutDropping | code/postgres-ha/patroni-master/patroni/quorum.py:284-293 | case 2 without dead nodes to drop: where it ends, and exactly when it raises |
| Repairs.RepairAfterDropping | code/postgres-ha/patroni-master/patroni/quorum.py:274-296 | case 2 after dropping dead nodes: the same, with the assertion it can violate |
| Repairs.TrimMarginExact | code/postgres-ha/patroni-master/patroni/quorum.py:298-311 | raises if and only if `TrimFails`; otherwise the exact quorum and factor, and the one write or none it records |
| Repairs.HandleNonSteadyCasesExact | code/postgres-ha/patroni-master/patroni/quorum.py:255-311 | raises if and only if `RepairFails` or `MarginFails`, which of the two errors, and the exact quorum, factor, nodes and transitions otherwise |
| Repairs.InterruptedCompleted | code/postgres-ha/patroni-master/patroni/quorum.py:255-296 | an update that stopped between its two writes is completed, with the exact quorum and factor, and the assertion that the sets match holds |
| Passes.BrokenRepaired | code/postgres-ha/patroni-master/patroni/quorum.py:416-420 | a state that violates the invariant is repaired by exactly one write, which changes the key and leaves equal sets |
| Passes.PassReaches | code/postgres-ha/patroni-master/patroni/quorum.py:57-67 | from any state, a pass that returns lists exactly the active nodes and waits for as many as wanted; they vote unless no voter was alive and nothing confirmed |
| Passes.PassFromBalanced | code/postgres-ha/patroni-master/patroni/quorum.py:429-437 | from equal sets with the optimal quorum, a pass raises if and only if `JoinFails` or `LeaveFails` |
| Passes.BalancedExact | code/postgres-ha/patroni-master/patroni/quorum.py:429-437 | the same for the four phases alone |
| Passes.PassFromSteady | code/postgres-ha/patroni-master/patroni/quorum.py:429-437 | from any equal sets, slack included, a pass raises if and only if `SteadyFails` |
| Passes.MembershipChange | code/postgres-ha/patroni-master/patroni/quorum.py:313-373 | with an unchanged factor one pass follows any change of membership that leaves a standby alive, never raises, and bounds the quorum on both sides |
| Passes.SecondPassOptimal | code/postgres-ha/patroni-master/patroni/quorum.py:298-311 | once enough standbys are confirmed, the next pass releases the slack and ends in the optimum |
| PassEnds.PassExact | code/postgres-ha/patroni-master/patroni/quorum.py:395-437 | for every state of the registers under a known primary, active set, factor and confirmed count: the pass raises if and only if `PassFails`, with which error, and otherwise ends with the registers `Ended` |
| PassEnds.SettleExact | code/postgres-ha/patroni-master/patroni/quorum.py:429-437 | the same for the four phases from any state the repair can start from |
| Traces.PassRecords | code/postgres-ha/patroni-master/patroni/quorum.py:395-437 | under a known primary from any registers, and for the first pass of a new primary: exactly when the pass raises, and otherwise every transition it records, in order, in closed form |
| Traces.SettleRecords | code/postgres-ha/patroni-master/patroni/quorum.py:429-437 | the transitions of the four phases from any state the repair can start from |
| Traces.DerivedCount | code/postgres-ha/patroni-master/patroni/quorum.py:425-427 | the literal confirmed count of every pass under a known primary, given or derived, with a broken key counted as just rewritten |
| Traces.DerivedCountClaimed | code/postgres-ha/patroni-master/patroni/quorum.py:425-427 | the same for the first pass of a new primary |
| Traces.DerivedCountTrims | code/postgres-ha/patroni-master/patroni/quorum.py:298-311 | from equal sets with a derived count the slack of the key is left alone; the one possible write asks for more votes, where fewer standbys are alive than the key relies on |
| Traces.DerivedCountSilent | code/postgres-ha/patroni-master/patroni/quorum.py:57-64 | with everybody listed and voting and no count given, the pass records nothing whatever the slack of the key |
| Hints.PassTidy | code/postgres-ha/patroni-master/patroni/quorum.py:200-211 | in every pass a hint comes first or right after a list that waits for somebody, and from it on no key lets anybody else vote; a new primary's first pass has none |
| Seen.PassSeen | code/postgres-ha/patroni-master/patroni/quorum.py:238-253 | from the same starts: all keys that are not replaced at once cover the list from before the pass if and only if `PassKeeps`, a condition on what the pass sees |
| Seen.TailSeen | code/postgres-ha/patroni-master/patroni/quorum.py:313-393 | the same for the phases after the repair and any earlier list |
| Seen.RepairSeen | code/postgres-ha/patroni-master/patroni/quorum.py:255-311 | of the repair only the last key can fail to cover, however many it writes |
| Earlier.BalancedEnds | code/postgres-ha/patroni-master/patroni/quorum.py:429-437 | from a balanced state the final quorum is the number of active nodes less the confirmations relied on, in closed form |
| Earlier.EndKeyExact | code/postgres-ha/patroni-master/patroni/quorum.py:55-57 | from any state: the final key is safe for commits from before the pass if and only if its closed-form quorum covers the earlier list |
| Earlier.BalancedEndKey | code/postgres-ha/patroni-master/patroni/quorum.py:55-57 | from a balanced state: if and only if the confirmations it relies on survive the dead |
| Earlier.BalancedSeen | code/postgres-ha/patroni-master/patroni/quorum.py:238-253 | from a balanced state: every key of a pass that others can see covers if and only if `EarlierKept`, told in numbers of dead, alive, joining and confirmed standbys |
| Earlier.UnchangedFactorKept | code/postgres-ha/patroni-master/patroni/quorum.py:55-57 | from a balanced state with an unchanged factor: if and only if no standby died, or all were waited for, or enough are alive and the confirmed ones survive the dead |
| Earlier.LeavingKept | code/postgres-ha/patroni-master/patroni/quorum.py:55-57 | from a balanced state, when standbys only leave and enough are confirmed: if and only if none left, or all were waited for |
| Survival.CommitsBeforeSurvive | code/postgres-ha/patroni-master/patroni/ha.py:879-909 | one iteration carried out in full, from any registers under a known primary or as the first pass of a new one: no commit from before it can be missed under any key it writes if and only if the pass raises or `PassKeeps` |
| Survival.RoundSurvives | code/postgres-ha/patroni-master/patroni/ha.py:879-909 | the same for commits of any earlier list, cut short anywhere: kept with `RoundKeeps`, and if carried out in full only with it |
| Survival.EarlierCommitsSurvive | code/postgres-ha/patroni-master/patroni/ha.py:876-913 | the same for every configuration of the whole loop, with any number of iterations: kept if each iteration meets the condition, and if none is cut short only then |
| Survival.StartKeeps | code/postgres-ha/patroni-master/patroni/quorum.py:55-57 | for the list in force at the start the condition is `PassKeeps` |
| Survival.NextStarts | code/postgres-ha/patroni-master/patroni/ha.py:909-913 | after a hint to restart the registers are again such that a pass may start, whatever it then observes |
| Transfer.FailoverExact | code/postgres-ha/patroni-master/patroni/quorum.py:405-415 | the first pass of a new primary claims the key if and only if the old quorum is below the number of remaining nodes; it then stops early, or raises if and only if the phases do, or ends with the registers `Ended` |
| Transfer.FailoverBalanced | code/postgres-ha/patroni-master/patroni/quorum.py:405-415 | if the list waits for just enough members or there was none, the claim is balanced and the pass raises only in the families known for that |
| Transfer.FailoverClaims | code/postgres-ha/patroni-master/patroni/quorum.py:405-412 | the claim itself: its exact transitions, and equal sets of the remaining members that satisfy the invariant |
| Transfer.FailoverStuck | code/postgres-ha/patroni-master/patroni/quorum.py:405-422 | without room for the old quorum the pass raises |
| Transfer.FactorChangeOrdered | code/postgres-ha/patroni-master/patroni/quorum.py:69-76 | the exact transitions of a change of the factor: list before votes when it grows, votes before list when it falls, and nothing raised |
| Transfer.SilentIffOptimal | code/postgres-ha/patroni-master/patroni/quorum.py:57-64 | with enough confirmed standbys, a pass plans nothing if and only if the state is optimal |
| HaLoop.Ha.CarryOut | code/postgres-ha/patroni-master/patroni/ha.py:891-908 | one transition written to the real registers, with the bump to the minimum and `*` for nobody |
| HaLoop.Ha.CarryOutAll | code/postgres-ha/patroni-master/patroni/ha.py:879-909 | one iteration: the writes are the steps of the planned list up to the interruption, and it asks for another exactly after a full list that ends in a hint |
| HaLoop.Ha.Loop | code/postgres-ha/patroni-master/patroni/ha.py:876-913 | the loop writes exactly the configurations of `Visits` |
| HaLoop.Ha.ProcessQuorumReplication | code/postgres-ha/patroni-master/patroni/ha.py:852-913 | the same with the key claimed first when it is empty |
| HaLoop.Ha.ProcessPrepromote | code/postgres-ha/patroni-master/patroni/ha.py:999-1033 | the registers before a promotion, and failure when the key cannot be written |
| HaLoop.RoundRepairs | code/postgres-ha/patroni-master/patroni/ha.py:879-908 | from any sane configuration, each write of an iteration leaves a consistent one, wherever it is cut short |
| HaLoop.VisitsConsistent | code/postgres-ha/patroni-master/patroni/ha.py:876-913 | so does each write of any number of iterations |
| HaLoop.PrepromoteConsistent | code/postgres-ha/patroni-master/patroni/ha.py:1012-1032 | the list written before a promotion fits the unchanged key of the old leader, whether the new one was a voter or not |
| HaLoop.WinnerWaits | code/postgres-ha/patroni-master/patroni/ha.py:1012-1018 | after a won vote the number to wait for is neither negative nor more than the names |
| HaLoop.MinimumKept | code/postgres-ha/patroni-master/patroni/ha.py:900-906 | under a written list nothing is acknowledged by fewer standbys than the required minimum |
| HaLoop.CarriedList | code/postgres-ha/patroni-master/patroni/ha.py:897-908 | the list written is the planned one: the same names, and exactly the planned number or the required minimum if that is more; otherwise it is untouched |
| HaLoop.PlannedNumber | code/postgres-ha/patroni-master/patroni/ha.py:897-908 | so after any number of planned transitions the list waits for the planned number, raised at most to the minimum |
| HaLoop.PrepromoteExact | code/postgres-ha/patroni-master/patroni/ha.py:1008-1033 | the registers before a promotion in terms of the key, the members, the quorum and the minimum |
| Rounds.IterationEnds | code/postgres-ha/patroni-master/patroni/ha.py:876-913 | an iteration carried out in full without an error or a hint ends with the closed-form key, exactly the active nodes listed, and the wanted number of them or the minimum if the list was written |
| Rounds.FirstStandbys | code/postgres-ha/patroni-master/patroni/ha.py:909-913 | with nobody voting or listed, all active nodes are listed and the loop goes on with another iteration |
| Rounds.ThenTheyVote | code/postgres-ha/patroni-master/patroni/ha.py:909-913 | once some of the listed are confirmed, an iteration ends with votes for all active nodes |
| HaLoop.RunConsistent | code/postgres-ha/patroni-master/patroni/ha.py:852-1033 | every configuration of every run of interrupted passes and promotions is consistent |
| HaLoop.NoCommitLost | code/postgres-ha/patroni-master/patroni/ha.py:1317-1386 | in each of them, a node that wins on votes holds every position acknowledged under it, by names or by `*` |
| Handover.WinnerClaims | code/postgres-ha/patroni-master/patroni/ha.py:1012-1032 | the winner's first pass starts from the state the fail-over branch expects and, with a quorum below the number of voters, claims the key with equal sets; what was acknowledged before is held by as many of its standbys as its list waits for, and meets every election under the claimed key |
| Handover.HeirAcked | code/postgres-ha/patroni-master/patroni/ha.py:1012-1018 | the list set before a promotion counts every commit that meets all elections and that the new primary holds as acknowledged |
| Handover.HandoverSurvives | code/postgres-ha/patroni-master/patroni/ha.py:876-913 | later winners, under any key the new primary's loop goes through, hold what was acknowledged before its promotion, as far as the loop keeps the list set before it |
| Handover.HeirsHoldCommits | code/postgres-ha/patroni-master/patroni/ha.py:1012-1032 | through any number of fail-overs, with the key claimed or left to the next, every winner holds what was acknowledged before the first |
| Handover.FailoverRoom | code/postgres-ha/patroni-master/patroni/quorum.py:406-412 | such a quorum always leaves room to take over |
| Corners.JoinRaises | code/postgres-ha/patroni-master/patroni/quorum.py:357-367 | a balanced state whose pass raises while a node joins |
| Corners.LeaveRaises | code/postgres-ha/patroni-master/patroni/quorum.py:389-393 | a balanced state whose pass raises while a node leaves |
| Corners.RepairRaises | code/postgres-ha/patroni-master/patroni/quorum.py:274-296 | an interrupted update that is not completed |
| Corners.RepairedThenRaises | code/postgres-ha/patroni-master/patroni/quorum.py:357-367 | an interrupted update that is completed by a pass that raises afterwards |
| Corners.QuorumExceedsExact | code/postgres-ha/patroni-master/patroni/quorum.py:183-200 | from every state under a known primary: exactly when a pass ends with more votes required than voters |
| Corners.BalancedExceeds | code/postgres-ha/patroni-master/patroni/quorum.py:183-200 | from a balanced state with a living standby: if and only if it relies on fewer than no confirmations |
| Corners.FactorExceeds | code/postgres-ha/patroni-master/patroni/quorum.py:387-392 | when only the factor changes: if and only if it falls below the number of listed standbys that are not confirmed |
| Corners.UnchangedFactorBelow | code/postgres-ha/patroni-master/patroni/quorum.py:313-373 | with an unchanged factor and a living standby the quorum stays below the number of voters |
| Corners.QuorumExceedsVoters | code/postgres-ha/patroni-master/patroni/quorum.py:185-200 | an optimal state in which lowering the factor ends with more votes required than voters |
| Corners.EarlierCommitMissed | code/postgres-ha/patroni-master/patroni/quorum.py:329-337 | a pass after which a commit of the earlier list can be missed by an election |
| Corners.SlackCommitMissed | code/postgres-ha/patroni-master/patroni/quorum.py:298-337 | equal sets with slack from which a pass that does not raise fails `PassKeeps` |
| Corners.EarlierCommitCovered | code/postgres-ha/patroni-master/patroni/quorum.py:150-165 | for any later key that names the primary: an earlier list is covered if and only if all members of the key are needed or the two fit together |
| MultiSync.Ha.ProcessMultisyncReplication | code/postgres-ha/patroni-master/patroni/ha.py:915-979 | every write of the pass, in order, equals `Process`, for each outcome of the conditional writes |
| MultiSync.ProcessOrdered | code/postgres-ha/patroni-master/patroni/ha.py:918-923 | the voters stay among the listed nodes after every write, with `*` and with failed writes |
| MultiSync.ProcessEndExact | code/postgres-ha/patroni-master/patroni/ha.py:925-979 | where a pass ends for every outcome of its conditional writes: a failed one is the last, the list is set after all removals from the key, and nodes join the key after the list |
| MultiSync.ProcessEnds | code/postgres-ha/patroni-master/patroni/ha.py:945-979 | without failed writes: exactly the candidates listed, all of them waited for, or `*` where strict mode has none; and exactly who is then in the key |
| MultiSync.SilentIffSynchronous | code/postgres-ha/patroni-master/patroni/ha.py:933-946 | a pass writes nothing if and only if key, list, candidates and confirmed nodes are the same, the list waits for all of them, and the key is the primary's own |
| MultiSync.RunOrdered | code/postgres-ha/patroni-master/patroni/ha.py:915-979 | the order is kept over any number of passes |
| MultiSync.PromotableHoldsCommits | code/postgres-ha/patroni-master/patroni/ha.py:918-923 | in every state of every run, a standby that may be promoted holds every commit acknowledged under that state |
| MultiSync.HoldsEarlierExact | code/postgres-ha/patroni-master/patroni/ha.py:918-923 | judged by the lists alone: a later key promotes only holders of what was acknowledged under an earlier list if and only if it stays within that list |
| MultiSync.EarlierListExact | code/postgres-ha/patroni-master/patroni/ha.py:948-979 | every key of a pass stays within the earlier list unless `Grants`, told from the registers and what the pass sees, and nodes that were not on it are among those allowed |
| Readiness.SyncHandler.HandleSynchronousStandbyNamesChange | code/postgres-ha/patroni-master/patroni/postgresql/sync.py:295-325 | a new list is remembered with the primary's position, and who is not on it is no longer ready |
| Readiness.SyncHandler.ProcessReplicaReadiness | code/postgres-ha/patroni-master/patroni/postgresql/sync.py:327-350 | exactly the listed nodes that the key names, or that are reported synchronous beyond the position, become ready |
| Readiness.SyncHandler.CurrentState | code/postgres-ha/patroni-master/patroni/postgresql/sync.py:371-404 | one look: the change, the readiness, and the candidates confirmed by it |
| Readiness.ObservePlausible | code/postgres-ha/patroni-master/patroni/postgresql/sync.py:394-396 | only listed candidates are ever confirmed |
| Readiness.FirstConfirmed | code/postgres-ha/patroni-master/patroni/postgresql/sync.py:334-350 | exactly which candidates the first look confirms: listed, synchronous now, and in the key, known to be ready, or beyond the remembered position |
| Readiness.SecondConfirmed | code/postgres-ha/patroni-master/patroni/postgresql/sync.py:334-350 | the same for the second look, with the position of the new list |
| Readiness.StaysReady | code/postgres-ha/patroni-master/patroni/postgresql/sync.py:312-315 | a ready node that stays a candidate stays ready |
| Readiness.StaysInKey | code/postgres-ha/patroni-master/patroni/postgresql/sync.py:347-350 | a standby of the primary's own key that stays a synchronous candidate is in every key the pass writes, however far it is behind a new position |
| Readiness.JoinsKey | code/postgres-ha/patroni-master/patroni/ha.py:968-976 | a candidate that is synchronous and beyond the position is in the key when a pass without failed writes has ended |
| Readiness.PassChained | code/postgres-ha/patroni-master/patroni/ha.py:945-979 | at each write of a pass only listed nodes that have reached the remembered position join those that may be in the key |
| Readiness.ChainHolds | code/postgres-ha/patroni-master/patroni/postgresql/sync.py:280-285 | then what was acknowledged at one moment is held by those nodes at every later one |
| Readiness.EarlierCommitsHeld | code/postgres-ha/patroni-master/patroni/ha.py:918-923 | in every state of every run, a standby that may be promoted holds every commit acknowledged at that moment or earlier in the run, under whatever list |
| Executor.AsyncExecutor.Schedule | code/postgres-ha/patroni-master/patroni/async_executor.py:108-127 | refuses and returns the earlier action, or sets the three fields |
| Executor.AsyncExecutor.Enter | code/postgres-ha/patroni-master/patroni/async_executor.py:157-161 | the body follows exactly if the flag is not set; the event is then cleared |
| Executor.AsyncExecutor.Leave | code/postgres-ha/patroni-master/patroni/async_executor.py:169-174 | action reset and event set |
| Executor.AsyncExecutor.RequestCancel | code/postgres-ha/patroni-master/patroni/async_executor.py:209-214 | sets the flag and waits exactly if an action is scheduled |
| Executor.RunSound | code/postgres-ha/patroni-master/patroni/async_executor.py:121-221 | the invariant of every interleaving of careful steps |
| Executor.OneBody | code/postgres-ha/patroni-master/patroni/async_executor.py:157-177 | at most one task body runs at a time |
| Executor.CancelWaits | code/postgres-ha/patroni-master/patroni/async_executor.py:204-221 | `cancel` gets past its wait only when the body it found running has finished and its thread has left |
| Executor.FlaggedNeverStarts | code/postgres-ha/patroni-master/patroni/async_executor.py:157-161 | a task flagged before it started never starts |
| Executor.Refused | code/postgres-ha/patroni-master/patroni/async_executor.py:121-127 | with an action scheduled another is refused, and without one `cancel` changes nothing |
| Executor.RunsThrough | code/postgres-ha/patroni-master/patroni/async_executor.py:108-177 | an accepted action that nobody cancels runs to its end and leaves the executor free with the event set |
| Executor.CancelSkips | code/postgres-ha/patroni-master/patroni/async_executor.py:196-221 | a call of `cancel` that finds a pending task makes it skip its body and waits until it has left |
| Executor.ClearNeeded | code/postgres-ha/patroni-master/patroni/async_executor.py:121-221 | from every state with a schedule over what a cancellation has left, two bodies can run, however careful every later step is |
| Executor.ClearExact | code/postgres-ha/patroni-master/patroni/async_executor.py:121-221 | in every state a careful run can reach: one body at a time is kept after the next schedule if and only if it finds everything clear |
| Executor.LateResetLetsTwoRun | code/postgres-ha/patroni-master/patroni/async_executor.py:217-221 | with a call of `cancel` under way at a schedule, two bodies can run |
| Executor.RescheduleRevivesTask | code/postgres-ha/patroni-master/patroni/async_executor.py:121-127 | with a flagged task still pending at a schedule, that task can start |
| JsonStream.IterResponseObjects | code/postgres-ha/patroni-master/patroni/utils.py:882-910 | however the text is cut, the documents are those of the whole text |
| JsonStream.SplitChunk | code/postgres-ha/patroni-master/patroni/utils.py:892-910 | one chunk with its left-over is split like a whole text |
| JsonStream.SkipExact | code/postgres-ha/patroni-master/patroni/utils.py:48-48 | blanks, tabs and both characters of a line break are skipped, and nothing else |
| JsonStream.SplitAppend | code/postgres-ha/patroni-master/patroni/utils.py:889-910 | splitting composes over concatenation |
| JsonStream.SplitStream | code/postgres-ha/patroni-master/patroni/utils.py:882-887 | every document sent is read once, in order, with nothing left over |
| JsonStream.NumbersDependOnChunks | code/postgres-ha/patroni-master/patroni/utils.py:900-903 | a decoder of bare numbers changes its mind with what follows, and reads a number cut in two as two |
| Units.ConvertIntFromBaseUnit | code/postgres-ha/patroni-master/patroni/utils.py:323-364 | the loop prints the first unit of the table that fits |
| Units.StrtolPrint | code/postgres-ha/patroni-master/patroni/utils.py:234-240 | printing an integer before a unit and reading it back gives both |
| Units.MagnitudeHex | code/postgres-ha/patroni-master/patroni/utils.py:234-240 | hexadecimal numbers are read whole, with their value |
| Units.MagnitudeOctal | code/postgres-ha/patroni-master/patroni/utils.py:234-240 | so are octal ones, up to the first other character |
| Units.DigitExact | code/postgres-ha/patroni-master/patroni/utils.py:44-47 | the digits of the three bases by their values, in either case |
| Units.DigitOnly | code/postgres-ha/patroni-master/patroni/utils.py:44-47 | there are no other digits |
| Units.StripExact | code/postgres-ha/patroni-master/patroni/utils.py:234-234 | white space around a text does not matter |
| Units.StrtodExact | code/postgres-ha/patroni-master/patroni/utils.py:269-274 | a decimal number is read with its sign, all digits before and after the point, and its exponent; the rest is left |
| Units.ExponentExact | code/postgres-ha/patroni-master/patroni/utils.py:47-47 | an exponent is the letter, perhaps a sign, and all digits that follow |
| Units.MovedExact | code/postgres-ha/patroni-master/patroni/utils.py:272-272 | the value of a decimal number: its digits, divided by ten for each digit after the point, times ten to the exponent |
| Units.PowerExact | code/postgres-ha/patroni-master/patroni/utils.py:47-47 | a power of ten is a one followed by that many zeros |
| Units.ParseFraction | code/postgres-ha/patroni-master/patroni/utils.py:501-512 | a number with a fraction is read whole, converted by the unit that follows, and rounded |
| Units.RoundNearest | code/postgres-ha/patroni-master/patroni/utils.py:319-319 | rounding gives the nearest integer, and of two equally near ones the even one |
| Units.UnitNames | code/postgres-ha/patroni-master/patroni/utils.py:51-79 | the unit names in their order, and the base unit worth one of itself |
| Units.UnitSteps | code/postgres-ha/patroni-master/patroni/utils.py:51-79 | how many of the next smaller unit each unit is worth |
| Units.OtherUnits | code/postgres-ha/patroni-master/patroni/utils.py:75-79 | only the six base units have a table |
| Units.ConvertExact | code/postgres-ha/patroni-master/patroni/utils.py:308-320 | a conversion fails exactly for a unit that does not go with the base unit, and for a base unit of nothing |
| Units.ParseNothing | code/postgres-ha/patroni-master/patroni/utils.py:501-504 | a text that begins with neither a digit, a sign nor a point is no number |
| Units.LargestLossless | code/postgres-ha/patroni-master/patroni/utils.py:326-327 | the printed number of units is exactly the value, and no larger unit can express it |
| Units.RoundTripExact | code/postgres-ha/patroni-master/patroni/utils.py:308-320 | for a multiple of a base unit, reading undoes printing if and only if the value is a whole number of the unit below the printed one |
| Units.RoundTrip | code/postgres-ha/patroni-master/patroni/utils.py:456-521 | for plain base units it always does |
| Units.MultipleUndisturbed | code/postgres-ha/patroni-master/patroni/utils.py:314-319 | and for multiples that divide the step between units |
| Units.RoundTripLoses | code/postgres-ha/patroni-master/patroni/utils.py:314-319 | a value of base unit `2048MB` that is lost |
| Topology.TopologySort | code/postgres-ha/patroni-master/patroni/ctl.py:1527-1536 | the order of the members and their new names, written in place, are those of the walk from the root |
| Topology.GenerateTopology | code/postgres-ha/patroni-master/patroni/ctl.py:1497-1506 | the recursion terminates for all tags and lists and renames exactly its subtree |
| Topology.BuildTree | code/postgres-ha/patroni-master/patroni/ctl.py:1527-1534 | each replica is filed under the node it streams from |
| Topology.UpExact | code/postgres-ha/patroni-master/patroni/ctl.py:1528-1534 | from tags, names and roles: a replica hangs below the other replica its tag names, or below the root |
| Topology.LabelExact | code/postgres-ha/patroni-master/patroni/ctl.py:1499-1500 | a listed name is indented by two blanks a level, with a plus sign before it |
| Topology.OpeningExact | code/postgres-ha/patroni-master/patroni/ctl.py:1527-1536 | the listing opens with the first leader, if it has a name |
| Topology.ListingExact | code/postgres-ha/patroni-master/patroni/ctl.py:1497-1536 | listed are exactly the replicas whose chain of parents reaches the root, once, after the parent, labelled with the length of the chain; the others keep their names |
| CaseInsensitiveSet.SameName | code/postgres-ha/patroni-master/patroni/collections.py:52-61 | two spellings are one name if and only if they differ in the case of letters at most |
| CaseInsensitiveSet.LowerIsLower | code/postgres-ha/patroni-master/patroni/collections.py:82-90 | the stored form differs from the name in case at most, has no capital letter, and is its own stored form |
| CaseInsensitiveSet.NameSet.Add | code/postgres-ha/patroni-master/patroni/collections.py:82-90 | the lower-cased name joins, and the stored spelling is the last one |
| CaseInsensitiveSet.NameSet.Discard | code/postgres-ha/patroni-master/patroni/collections.py:92-99 | the name leaves, whatever its case |
| CaseInsensitiveSet.NameSet.Contains | code/postgres-ha/patroni-master/patroni/collections.py:52-61 | membership of the lower-cased name |
| CaseInsensitiveSet.NameSet.Len | code/postgres-ha/patroni-master/patroni/collections.py:70-80 | the number of distinct lower-cased names |
| CaseInsensitiveSet.NameSet.Union | code/postgres-ha/patroni-master/patroni/quorum.py:150-151 | union of the lower-cased names, spelled as in the second operand where both have one |
| CaseInsensitiveSet.NameSet.Intersection | code/postgres-ha/patroni-master/patroni/quorum.py:271-271 | intersection of the lower-cased names |
| CaseInsensitiveSet.NameSet.Difference | code/postgres-ha/patroni-master/patroni/quorum.py:318-318 | difference of the lower-cased names |
| CaseInsensitiveSet.NameSet.IsSubset | code/postgres-ha/patroni-master/patroni/collections.py:101-107 | true if and only if the lower-cased names are a subset |
| CaseInsensitiveSet.NameSet.IsProperSubset | code/postgres-ha/patroni-master/patroni/quorum.py:260-260 | true if and only if they are a proper subset |
| CaseInsensitiveSet.NameSet.Equals | code/postgres-ha/patroni-master/patroni/quorum.py:296-296 | true if and only if the lower-cased names are the same |
| CaseInsensitiveSet.ChangedExact | code/postgres-ha/patroni-master/patroni/collections.py:82-99 | after any additions and removals, exactly the names last added are present, as last written |
| Bank.Service.GetBalance | code/bank-cache-demo/backend/main.py:227-248 | the answer is the balance in the database, from the cache or not; what is cached |
| Bank.Service.GetAccountSummary | code/bank-cache-demo/backend/main.py:91-145 | the answer is the summary of accounts and log now, from the cache or not; what is cached |
| Bank.Service.Transfer | code/bank-cache-demo/backend/main.py:255-306 | refusals in the order of the code; otherwise balances, log and the four cache keys |
| Bank.Service.ClearCache | code/bank-cache-demo/backend/main.py:312-314 | empties the cache and nothing else |
| Bank.RunCoherent | code/bank-cache-demo/backend/main.py:291-298 | after any requests and expiries every cached value equals a recomputation |
| Bank.MoneyConserved | code/bank-cache-demo/backend/main.py:275-281 | the total over all accounts never changes |
| Bank.BalanceExplained | code/bank-cache-demo/backend/main.py:264-281 | each balance is the opening one plus received minus sent, and no account is overdrawn |
| Bank.SummaryAddsUp | code/bank-cache-demo/backend/main.py:104-138 | the figures of one summary add up, cached or not |
| Bank.AggregateExact | code/bank-cache-demo/backend/main.py:104-120 | the figures of the aggregate over the raw log: counts, totals, average over the transactions taken part in, and the last of their dates |
| Bank.RefusalExact | code/bank-cache-demo/backend/main.py:255-275 | exactly when a transfer goes through, and which status a refusal has |
| Bank.TransferExact | code/bank-cache-demo/backend/main.py:275-298 | the amount moved, the entry written, other accounts untouched, and what is cached for others left alone |
| Bank.ReadExact | code/bank-cache-demo/backend/main.py:227-248 | a read caches what it read and changes nothing else |
| Bank.SummaryShows | code/bank-cache-demo/backend/main.py:127-132 | a summary shows the account as it is in the database |

## Left out

- Time: waits, `loop_wait`, TTLs and leases. An iteration of the loop is told how many transitions it carries out; the expiry of a cached value may happen at any moment.
- Several nodes racing for the DCS: a failed compare-and-set ends the pass, and what the other writer wrote is a later event of the run.
- Quorum commit: when standbys catch up is not modelled; a commit from before a pass is held by the primary and as many standbys as its list asked for, and no others.
- The first pass of a new primary is followed from the states `HandedOver` describes: the list of the other members, waiting for at least as many as the quorum leaves open, or no list yet.
- The former-leader shortcut of the vote loop is outside `NoCommitLost`; `LeadSafeExact` says exactly when it is safe.
- `nosync`, `nofailover` and `maximum_lag_on_syncnode` of `patroni/postgresql/sync.py`, and readiness under quorum commit: the sets they produce are parameters. Readiness is modelled for the older protocol.
- Readiness.EarlierCommitsHeld: a change of the list is noticed by the next look at the latest; the model notices it when the list is set.
- Parsing and quoting of `synchronous_standby_names`; a number below one with names, which PostgreSQL refuses, is written as it is.
- Names in `quorum.py` are lower-cased already, identified with their rank in the sorted order; `CaseInsensitiveSet.dfy` treats the case by itself, with ASCII letters only. The set operators themselves come from Python's `collections.abc`, which is not part of the repository.
- Pause, manual failover, standby clusters, bootstrap and rewind in `ha.py`.
- `CriticalTask` of `async_executor.py`, and subprocess cancellation: only the reset in `finally` touches the protocol.
- HaLoop.Ha.ProcessQuorumReplication: the confirmed count and the active set of an iteration are given, not read from `pg_stat_replication`.
- JsonStream.IterResponseObjects: works on characters, so a chunk that ends inside a UTF-8 sequence is not modelled.
- Units.RoundTripExact: exact arithmetic in place of floating point, and integers without bounds.
- Floating-point output (`convert_real_from_base_unit`), fractional printing and `parse_real`.
- Topology.TopologySort: names are rewritten in an array beside the members, so aliasing of the member objects is not captured; unique names are required, as the recursion needs them.
- Executor.RunSound: each section under the locks is one step; a thread that dies between `schedule` and `run` is not modelled.
- Bank.Service.Transfer: money is counted in whole smallest units, and a request is atomic; the rounding of the average to two digits is left out.
- Credit scores and exchange rates of the bank service; a transfer does not invalidate scores.
