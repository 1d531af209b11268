# Bay: a verified model of its fleet protocol, routers and translations

Bay keeps one fleet repository in step across several machines, compiles it and deploys it.
This project models the parts of Bay whose correctness is hard to see by reading one function,
and proves what they are for. `dafny verify dfyconfig.toml` checks all of it.

| file | what it models |
|---|---|
| `Options.dfy`, `Text.dfy` | missing values; decimals, splitting, joining, stripping of ASCII text |
| `Commits.dfy` | commits as values (parent, tree, author, serial), trees, HEAD, index and work tree |
| `Checkout.dfy` | a checkout as an object: `commit_paths`, the undo of a run path by path, the fast-forward that sets plan records aside; any git or file call may fail |
| `FleetProtocol.dfy` | many machines, one remote branch: begin, write, commit, push, check, undo, deploy, receipt, rebase, interrupt and kill as steps of a transition system; pushes that land although they report failure, and pushes that report success and land nowhere |
| `FleetSafety.dfy` | what that protocol promises over whole runs, and runs in which a promise ends |
| `ReceiptPush.dfy` | the push with a bounded number of rebases after a deploy, against a branch that others move between any two calls |
| `RuleText.dfy` | the proxy's rule language: lexer, parser ("and" binds tighter than "or"), meaning of a rule for a host and a path, printing of rule shapes; a request also names the listener it arrives on |
| `Routers.dfy`, `RouterLabels.dfy` | rule texts and their meaning; the writer that fills routers, priorities, chains and backends of one container |
| `Dispatch.dfy`, `PathDispatch.dfy` | which router the proxy picks; the VPN gate, the health carve-out, services that share the domains of the main container by path |
| `LockRecord.dfy`, `BoxResults.dfy` | the lock of a project over every run of ups, rollbacks, cut runs and side deploys; the result per box that a deploy records |
| `TomlWriter.dfy`, `TomlText.dfy`, `TomlFile.dfy` | the TOML writer of the importer from document to text, and a strict reader back |
| `Cron.dfy` | cron lines to OnCalendar texts, each side with a meaning of its own |
| `DocsToc.dfy`, `DocsTocTwice.dfy` | anchors, fences, and the contents block that is put in and taken out of a Markdown file; when putting it in twice is putting it in once |
| `InventoryGraph.dfy` | the reader of the printed inventory graph |
| `RetryProbe.dfy` | the readiness probe with backoff, on a real clock |
| `BuildFanout.dfy` | which services a push builds: siblings, local aliases, the hook groups |

State that the source changes in place is in classes and methods; each method is proved against a
specification function or an outright property, and the lemmas are about those. Automatic
induction is off in the lemmas that call themselves, so each of those proofs says where it uses a
smaller case; in `TomlWriter.dfy`, whose documents nest through maps, it is off in all of them.

## What turned out to be false, and when the code does meet it

- An undo that says `done` is the identity only when no probe failed: `has_path` answers "not there"
  both for an absent path and for a git call that failed, and the undo then drops a tracked path.
  `Checkouts.CommitThenUndo` gives the exact condition, `Checkouts.FailedProbeDropsATrackedPath` a case.
- `commit_paths` can raise an error with HEAD moved: when HEAD cannot be read after the commit, or the
  commit was killed after it took effect (`Checkouts.Checkout.CommitPaths`).
- `claim` takes a commit back although the remote holds it exactly when the commit landed and the
  checking fetch failed or `is_ancestor` answered None, which `landed` reads as "not held, no problem"
  (`FleetSafety.RefusedClaim`; histories of both kinds are in `FleetSafety.UndoneClaimMayBeOnTheRemote`).
- An interrupt takes back a commit that the remote holds in exactly two cases, both with HEAD still at
  it: the claim has started, the fetch worked and `is_ancestor` answered None; or the claim has not
  started and someone pushed the commit by hand (`FleetSafety.InterruptIsAllOrNothing`; histories are in
  `FleetSafety.UnwoundClaimMayBeOnTheRemote` and `FleetSafety.HandPushIsTakenBack`).
- Ctrl-C in the middle of the undo of `claim` finds HEAD moved back already, so the unwind stops and
  the remaining paths keep what the run wrote. `FleetSafety.CutUndoStaysCut` says exactly when the undo
  is complete all the same.
- After a rebase a file need have neither side's version, a local commit may be gone, and HEAD may be
  in the middle of a rebase: `ReceiptPush.RebaseKeepsChanges`, `ReceiptPush.RebaseCount` and
  `ReceiptPush.Session.PullRebase` say when it does, when none is and when it stays.
- The TOML writer prints text that TOML v1.0.0 refuses in exactly two cases: a string or key with the
  character U+007F, which JSON does not escape, and a key that is a bare key followed by one newline,
  which the pattern `^[A-Za-z0-9_-]+$` accepts (`TomlFile.TomlRoundTrip`).
- The VPN gate of a public service covers its vpn routes only where the vpn routers listen: it holds
  for every request exactly when every public entry point is a vpn one, as the documented ones are, or
  no vpn route can be reached under the path of the service (`Dispatch.GateHoldsIff`).
- For a `vpn` service the health carve-out keeps the chain of the ordinary router exactly when its
  public routes cover the health path on a segment boundary if and only if they do by plain prefix on
  a public listener; `_path_under` says it has the proxy's prefix semantics, and it has not
  (`Dispatch.VpnHealthCarveOut`, `Dispatch.CarveOutCrossesTheGate`).
- The service with the longest path takes a request only on listeners where one of its routers hears
  it: on a tailnet listener a vpn main container takes the requests of a public path service
  (`PathDispatch.OwnerTakesWhereOpen`, `PathDispatch.MainTakesTheTailnet`).
- The first up of a fresh environment can put a pin behind that no environment confirmed: exactly when
  that is the project pin and another one than the new pin (`LockRecord.UnconfirmedPinGoesBehindIff`).
- The cron module says that every field takes comma lists of steps; a list that starts with `*/n` is
  refused outside the weekday field, and only such lists are (`Cron.FieldIsAccepted`).
- Rendering a file twice is rendering it once exactly when no block starts ahead of the new one
  (`DocsTocTwice.RenderTwice`); the second rendering of a text with two contents lists differs from the first
  (`DocsTocTwice.TwoListsChangeAgain`).
- One push reaches a service twice exactly when it is posted for an alias of a member in the same
  regions (`BuildFanout.ReachedTwiceIff`).

## Model

| member | source | states |
|---|---|---|
| Checkouts.Checkout.CommitPaths | src/bay_cli/gitrepo.py:371-394 | the state and the answer under any pattern of failing calls: a new HEAD is a child of the old one whose tree has the work tree at these paths and the old tree at every other, whatever else is staged; the index takes these paths and nothing else moves; nothing to commit returns HEAD; an error leaves HEAD moved exactly when the commit was made and then killed or HEAD could not be read |
| Checkouts.CommitIff | src/bay_cli/gitrepo.py:371-394 | HEAD moves if and only if git add accepts the paths, some path differs from HEAD in the work tree and the commit works; a commit is returned if and only if HEAD can be read as well, and also when nothing differs |
| Checkouts.Checkout.Undo | src/bay_cli/fleetsync.py:960-1015 | state and result of an undo under any pattern of failing calls: moved (also when HEAD cannot be read), reset failed, partial with the failed paths in order, done |
| Checkouts.UndoWords | src/bay_cli/fleetsync.py:960-1015 | when an undo says moved, reset failed, partial or done; the first two change nothing, the last two have HEAD back; partial if and only if a path failed |
| Checkouts.Checkout.RestorePaths | src/bay_cli/fleetsync.py:978-991 | the first loop: each path back from the earlier commit, or removed when that commit lacks it |
| Checkouts.Checkout.UnstagePaths | src/bay_cli/fleetsync.py:992-1009 | the second loop: index entries back, remembered bytes rewritten |
| Checkouts.FailedPathsAt | src/bay_cli/fleetsync.py:978-1015 | `failed` names exactly the paths of which some call failed |
| Checkouts.FailedCallsLeaveTheirPath | src/bay_cli/fleetsync.py:978-1015 | a path whose git or file call failed keeps the index entry or the file it had |
| Checkouts.UndoFrame | src/bay_cli/fleetsync.py:960-1015 | whatever fails, an undo moves no index entry off its plan and no file it does not restore, rewrite or drop |
| Checkouts.UndoDoneAt | src/bay_cli/fleetsync.py:960-1015 | an undo that says done has every path of the plan where it was before |
| Checkouts.CommitThenUndo | src/bay_cli/fleetsync.py:960-1015 | a commit, also an empty one, then an undo that says done: HEAD and the run's files are back, the rest untouched, and the index is back if and only if no probe of a tracked path failed |
| Checkouts.FailedProbeDropsATrackedPath | src/bay_cli/fleetsync.py:976-991 | an undo that says done although a tracked path is gone: its probe failed |
| Checkouts.CommitThenUndoWholeTree | src/bay_cli/gitrepo.py:371-394 | with sound probes and a run that wrote only what it undoes, the whole checkout is the one before |
| Checkouts.Checkout.FastForward | src/bay_cli/fleetsync.py:644-672 | the answer and the state of a fast-forward under any pattern of failing calls, also when the records cannot be listed; an untracked file outside the plans folder stays as it is |
| Checkouts.FastForwardsIff | src/bay_cli/fleetsync.py:594-672 | it goes through if and only if the merge call works, upstream descends from HEAD and every path changed upstream is clean or is an untracked file below `plans/` that upstream tracks, that can be listed and unlinked |
| Checkouts.UntrackedFilesStay | src/bay_cli/fleetsync.py:594-672 | no untracked file outside `plans/` is ever removed or overwritten |
| Checkouts.Checkout.SetAsidePlans | src/bay_cli/fleetsync.py:613-626 | exactly the untracked plan records that the upstream tracks and that can be unlinked are set aside, with their bytes; none when the listing fails |
| Checkouts.Checkout.SettlePlans | src/bay_cli/fleetsync.py:629-641 | after a refused merge every record that can be written is back, and one that another session wrote meanwhile stays as it is |
| Checkouts.FastForwardTakesUpstream | src/bay_cli/fleetsync.py:594-672 | what changes upstream is taken, no file is lost but those the upstream deletes or holds, the rest stays |
| Checkouts.RefusedFastForwardChangesNothing | src/bay_cli/fleetsync.py:629-672 | a refused fast-forward changes nothing, up to records that could not be written back |
| FleetProtocol.NextKeepsInv | src/bay_cli/apply.py:947-1018 | every step of every machine, of outsiders and of others who edit, commit or push in a checkout keeps the protocol invariant |
| FleetSafety.LandingOrderIsAncestry | src/bay_cli/fleetsync.py:443-470 | commits of the branch form one chain in landing order |
| FleetSafety.DeploysFollowClaims | src/bay_cli/apply.py:947-1035 | in every interleaving a deployed commit is on the branch from its playbook on, and is built on every commit that landed before it |
| FleetSafety.WhatIsLogged | src/bay_cli/apply.py:947-1035 | only the start of a playbook is a deploy, of a claimed commit that is on the branch; the branch moves only by a push from elsewhere or a push that lands from a HEAD built on its tip |
| FleetSafety.RunCommitHoldsItsFiles | src/bay_cli/apply.py:945-954 | the commit of a run takes the lock files, the services file and the plan record from the work tree and every other path from its parent |
| FleetSafety.InterruptIsAllOrNothing | src/bay_cli/apply.py:296-409 | wherever a run is interrupted, everything is put back or nothing is, and nothing once the playbook started; a new commit that the branch holds is taken back if and only if HEAD is still at it and either the claim has started, the fetch worked and git could not tell, or the claim has not started and someone pushed it by hand |
| FleetSafety.InterruptedRunIsAllOrNothing | src/bay_cli/apply.py:335-409 | the same at any moment of any run, and the branch and the deploy log do not move |
| FleetSafety.RefusedClaim | src/bay_cli/fleetsync.py:1054-1116 | a claim that is not on the branch is refused; one that landed is refused if and only if the fetch failed or git could not tell; a refused one restores everything but a new plan record |
| FleetSafety.UndoneClaimMayBeOnTheRemote | src/bay_cli/fleetsync.py:461-470 | runs in which a claim that the remote holds is undone: with a failed fetch, and with a git that cannot tell |
| FleetSafety.UnwoundClaimMayBeOnTheRemote | src/bay_cli/apply.py:367-372 | a run in which an interrupt takes back a claim that the remote holds |
| FleetSafety.HandPushIsTakenBack | src/bay_cli/apply.py:395-404 | a run in which an interrupt takes back a commit that someone pushed by hand before the claim |
| FleetSafety.CutUndoStaysCut | src/bay_cli/apply.py:367-409 | an interrupt after any number of paths of the undo of a claim: everything is back if and only if the unwind finishes (empty commit, working fetch, commit not seen) or every path the undo had not reached was as before; else those paths keep what they had |
| FleetSafety.CutUndoLeavesTheLock | src/bay_cli/fleetsync.py:1054-1116 | a run that ends with HEAD back and the lock still pending |
| FleetProtocol.ReplayOnto | src/bay_cli/fleetsync.py:1157-1183 | a rebase builds on the remote; it leaves a branch that is up to date alone, and otherwise brings in no older commit that the remote lacks |
| ReceiptPush.RebaseIsByFile | src/bay_cli/fleetsync.py:1157-1183 | a rebase treats each file by itself: the changes of each local commit that is not left out, merged into the version of the remote one after the other |
| ReceiptPush.RebaseKeepsChanges | src/bay_cli/fleetsync.py:1157-1183 | a file no local commit changed has the version of the remote; a file the remote has not changed has the local version, unless git leaves out a commit that changed it |
| ReceiptPush.OneCommitRebased | src/bay_cli/fleetsync.py:1157-1183 | the rebase of one commit, file by file: one-sided changes and equal changes are kept, only a file that both sides changed differently is merged; left out if git skips it or nothing of it is left |
| ReceiptPush.RebaseCount | src/bay_cli/fleetsync.py:1157-1183 | a rebase adds no commit, and keeps the number if and only if none is left out |
| ReceiptPush.Session.PushUpstream | src/bay_cli/fleetsync.py:443-458 | the branch takes HEAD exactly when the push reaches it and it is a fast-forward; the report is independent |
| ReceiptPush.Session.PushChecked | src/bay_cli/fleetsync.py:1186-1206 | pushed means the branch holds HEAD, whatever git reported; refused exactly when git said so |
| ReceiptPush.Session.PullRebase | src/bay_cli/fleetsync.py:1143-1183 | HEAD becomes the replay of the local commits on the branch, or stays, or, when the rebase can be neither finished nor aborted, the replay of those before the stop; which problem is named, and the conflicts |
| ReceiptPush.RebaseMovesHead | src/bay_cli/fleetsync.py:1143-1183 | after a fetch or rebase that fails HEAD stays; else it is the replay, on the branch as fetched, of all local commits, or of all but the newest ones when the rebase is stuck |
| ReceiptPush.RebaseEnds | src/bay_cli/fleetsync.py:1157-1183 | a rebase finishes if and only if the fetch works and git says so; which problem is named else, and which files |
| ReceiptPush.Session.PushWithRebase | src/bay_cli/fleetsync.py:1209-1235 | call by call against any script of answers: a refused push with attempts left is followed by a fetch and a rebase, a finished rebase by the next push; the number of rebases is that of the finished ones; pushed exactly when git accepts a push within the bound and the fetch after it finds HEAD on the branch; else problem and conflicts are those of the call that stopped it |
| ReceiptPush.PushKeepsTheClaim | src/bay_cli/fleetsync.py:1209-1235 | the branch only moves forward, and a commit that was on it and in HEAD stays in HEAD by the same id |
| RuleText.ShownTextParses | filter_plugins/bay_filters.py:741-793 | the printed form of any rule shape parses, with "and" tighter than "or", to that meaning |
| RuleText.UngroupedAlternativesAreLoose | filter_plugins/bay_filters.py:851-860 | without the parentheses the rule of a split pair would match the whole first domain |
| Routers.HostRuleMeans | filter_plugins/bay_filters.py:765-793 | for any domains and path the rule means: some host matches and the path is covered on a segment boundary |
| Routers.SplitRuleMeans | filter_plugins/bay_filters.py:851-868 | the rule of the path-matched router means host, path and some route |
| Routers.HealthRuleMeans | filter_plugins/bay_filters.py:709-719 | the health rule means host, path and exactly the health path |
| Routers.VpnRegexpCovers | filter_plugins/bay_filters.py:613-647 | the generated pattern matches exactly the paths that start with the route, ignoring case |
| RouterLabels.Labels.TraefikLabels | filter_plugins/bay_filters.py:383-404 | the labels of a service are the routers, backends and chains specified, and it is refused exactly when a value would break out of its rule |
| RouterLabels.PrintableIff | filter_plugins/bay_filters.py:613-765 | a service gets labels if and only if it has a domain, no printed value holds a backquote or a line break, and no vpn route holds one of the characters refused in patterns |
| RouterLabels.Labels.ComputeMiddlewareChains | filter_plugins/bay_filters.py:407-445 | the public and the VPN list of middlewares, and the custom chain when one is needed; what is in them is `RoutersNameWhatIsDeclared` and `ProxyApplies` |
| Dispatch.RoutersNameWhatIsDeclared | filter_plugins/bay_filters.py:420-445 | each ordinary router names a rate limit, in-flight limit, basic auth, circuit breaker or retry of its service if and only if the service declares it |
| Dispatch.ListsAre | filter_plugins/bay_filters.py:420-445 | both lists are one chain and then the declared middlewares in that order |
| Dispatch.ProxyApplies | filter_plugins/bay_filters.py:407-445 | seen through the chains, the proxy applies security headers and compression if and only if service and host want them, error pages if and only if the host does, and the VPN gate if and only if the list is the VPN one |
| RouterLabels.Labels.AddRouterLabels | filter_plugins/bay_filters.py:512-601 | single or split routers by access and routes, then the health router |
| RouterLabels.Labels.AddSingleRouterLabels | filter_plugins/bay_filters.py:812-825 | one router, with a priority only for a path service |
| RouterLabels.Labels.AddDualRouterLabels | filter_plugins/bay_filters.py:828-881 | the split pair with its priorities and its one backend |
| RouterLabels.Labels.AddHealthRouterLabels | filter_plugins/bay_filters.py:669-738 | when there is a health router, and its rule, chain, entry points and backend |
| Dispatch.OrdinaryMatch | filter_plugins/bay_filters.py:512-601 | which ordinary routers a service has and exactly which requests each matches |
| Dispatch.ChainsAndTheGate | filter_plugins/bay_filters.py:407-445 | the VPN list holds the gate and the public list does not, with default and custom chains |
| Dispatch.VpnRoutesAreGated | filter_plugins/bay_filters.py:512-738 | in every shape of a public service a request goes to a gated router if and only if its path starts, ignoring case, with a vpn route and the vpn routers listen where it arrives |
| Dispatch.GateHoldsByRequest | filter_plugins/bay_filters.py:512-560 | the same, request by request: the vpn routers hear each reachable request for a vpn route that the public routers hear |
| Dispatch.GateHoldsIff | filter_plugins/bay_filters.py:512-560 | every request for a vpn route is gated and no other, if and only if every public entry point is a vpn one or no vpn route meets the path of the service |
| Dispatch.HealthCarveOut | filter_plugins/bay_filters.py:577-738 | in a public service only the health path changes router, on the listeners of the health router, and it keeps backend, entry points and chain minus the basic auth; the health router is missing on a listener exactly when a vpn route covers the path and the vpn routers do not listen there |
| Dispatch.VpnHealthCarveOut | filter_plugins/bay_filters.py:650-707 | in a vpn service the backend is kept, and the chain exactly when the boundary reading of the public routes agrees with the prefix reading on that listener; the entry points then too, or when both lists are the same |
| Dispatch.RouteReadingsDiffer | filter_plugins/bay_filters.py:650-663 | the boundary reading and the prefix reading of a route differ both ways |
| Dispatch.CarveOutCrossesTheGate | filter_plugins/bay_filters.py:650-707 | two vpn services whose carve-out moves the health path behind the gate, and out of it |
| Dispatch.HealthRouterTakesItsPath | filter_plugins/bay_filters.py:720-738 | with rules shorter than the health priority, the health path goes to the health router and to it alone wherever that router listens, and where it would go without it elsewhere |
| Dispatch.HealthRouterIff | filter_plugins/bay_filters.py:669-716 | a service has a health router if and only if it declares basic auth and a health path that for a path service is its path or lies below it |
| PathDispatch.PathRules | src/bay_cli/bay_toml.py:594-621 | one violation for each path that is the whole domain or the same route as an earlier one, naming the first; none exactly when the paths are apart |
| PathDispatch.VerdictSays | src/bay_cli/bay_toml.py:594-621 | each violation names the entry, its path and the first earlier entry of the same route, or an entry whose path is slashes only |
| PathDispatch.RuleLength | filter_plugins/bay_filters.py:765-793 | rule length grows by two for each character of the path |
| PathDispatch.LongerPathOutranks | filter_plugins/bay_filters.py:796-809 | a longer path outranks every router of a shorter one, split pairs included, and any path outranks the main container |
| PathDispatch.LongestPrefixDispatch | src/bay_cli/compiler.py:673-680 | health carve-outs aside, on every listener a request is taken by exactly the service with the longest path covering it on a segment boundary among those that listen there |
| PathDispatch.OwnerTakesWhereOpen | src/bay_cli/compiler.py:673-680 | the owner of a path takes a request for it exactly on the listeners where one of its routers hears it |
| PathDispatch.MainTakesTheTailnet | filter_plugins/bay_filters.py:521-527 | with a vpn main container and a public path service, main takes the requests for the path on a listener of the vpn routers alone |
| PathDispatch.EveryRequestHasOneOwner | src/bay_cli/bay_toml.py:594-621 | every request of the domains has one owner and no other request has any; on each listener every request that some service hears has one owner there |
| LockRecord.Lock.Claim | src/bay_cli/apply.py:879-921 | the lock after the claim of an up or a rollback |
| LockRecord.ClaimWrites | src/bay_cli/apply.py:879-921 | field by field what a claim writes into its record (pin, pending, plan, claim, box, previous with its reason, freeze or thaw), and that no other record changes |
| LockRecord.Lock.Replace | src/bay_cli/apply.py:883-897 | which pin is put behind: the replaced pin when it was confirmed, none when the new pin is the previous one, else the previous as it was |
| LockRecord.Lock.Freeze | src/bay_cli/apply.py:2126-2156 | a rollback freezes at its pin; an up thaws only past it |
| LockRecord.Lock.Settle | src/bay_cli/apply.py:1075-1108 | the lock after the receipt |
| LockRecord.SettleWrites | src/bay_cli/apply.py:1075-1108 | field by field what a receipt writes, and that pin, previous, box, plan and freeze stay |
| LockRecord.Lock.PinDeployed | src/bay_cli/apply.py:1914-1983 | the lock of a project that another deploy ran too: which records are stamped, with what, and which stay exactly as they were |
| LockRecord.PreviousIsLastConfirmedReplaced | src/bay_cli/apply.py:431-470 | over every run the previous pin never is the pin, and it is `p` exactly when `p` is the last confirmed pin that was replaced and it has not been pinned since |
| LockRecord.RollbackSwapsIffConfirmed | src/bay_cli/apply.py:2251-2297 | a plain rollback goes to the previous pin, freezes there, and leaves the replaced pin behind exactly when it was confirmed |
| LockRecord.RollbackTwice | src/bay_cli/apply.py:2251-2297 | after an up that went well a rollback swaps the pins and two are the identity on them |
| LockRecord.RollbackAfterFailedUp | src/bay_cli/apply.py:883-897 | after a failed or cut up a rollback leaves no previous, and a second one is refused |
| LockRecord.FreshEnvTakesTheProjectPin | src/bay_cli/apply.py:883-897 | which events give a record its first commit; that commit replaces the project pin, and what is put behind, for every lock and every event |
| LockRecord.UnconfirmedPinGoesBehindIff | src/bay_cli/lockfile.py:106-110 | a pin that no environment confirmed is put behind a fresh record if and only if it is the project pin, not the pin of the event, and the record has no failed or pending result |
| LockRecord.FailedPinGoesBehind | src/bay_cli/lockfile.py:106-110 | the first up of one environment after a failed up of another is such a case |
| LockRecord.FrozenUntilNewerUp | src/bay_cli/apply.py:2126-2156 | over every run a record is frozen at `f` exactly when the last rollback, plain or to a named commit, went to `f` and no later up went past `f` |
| LockRecord.SideDeployAt | src/bay_cli/apply.py:1914-1983 | a covered record changes if and only if the deploy reached its box and does not report a failure of a confirmed pin that stays; then its pin is that of the deploy, its result the word of its own box, its time, plan and receipt those of the deploy, its claim is gone and the freeze stays; every other record is left alone |
| BoxResults.BoxResultsOf | src/bay_cli/apply.py:1766-1807 | a box failed exactly when some receipt of this deploy on it is not ok, is ok exactly when it has entries and all are of this deploy and ok, else is absent; and the unmapped hosts |
| BoxResults.OneEntry | src/bay_cli/apply.py:1766-1807 | the host of the row decides the box, the host named in the receipt only when the row has none; a receipt of this deploy says ok or failed, any other nothing |
| BoxResults.OneUnmapped | src/bay_cli/apply.py:1766-1807 | a host is reported as unmapped if and only if a row is of it and it has no box |
| BoxResults.OrderDoesNotMatter | src/bay_cli/apply.py:1766-1807 | neither the order of the receipts nor repeats matter |
| BoxResults.EnvWideResults | src/bay_cli/apply.py:1737-1763 | the one result of all boxes when hosts cannot be mapped |
| BoxResults.Judge | src/bay_cli/apply.py:1031-1088 | a member is ok exactly when the run did not fail and its own box is ok; the run is ok exactly when no box failed and every member is |
| TomlWriter.Writer.Emit | src/bay_cli/importer.py:1632-1648 | the recursion appends plain keys, then headers and bodies, leaving out the header of a table that holds only tables |
| TomlWriter.RoundTrip | src/bay_cli/importer.py:1632-1648 | reading the statements back, with implicit super-tables and `[[ ]]` opening a new last element, gives the document |
| TomlText.StringReads | src/bay_cli/importer.py:1602-1608 | a printed string reads back exactly when it lacks U+007F |
| TomlText.KeyReads | src/bay_cli/importer.py:1598-1599 | a printed key reads back unless it holds U+007F or is a bare key with a newline after it |
| TomlText.ValueReads | src/bay_cli/importer.py:1602-1613 | a printed value, lists and inline tables at any nesting, reads back exactly when its strings and keys do |
| TomlText.LineReads | src/bay_cli/importer.py:1632-1648 | the same for each printed line |
| TomlFile.ToToml | src/bay_cli/importer.py:1624-1629 | the text is that of the lines, stripped and collapsed |
| TomlFile.TomlIsTheLines | src/bay_cli/importer.py:1624-1629 | stripping takes away one blank line at most and collapsing nothing |
| TomlFile.TomlRoundTrip | src/bay_cli/importer.py:1593-1648 | the whole text reads back as the document if no string or key is bad, and is no TOML otherwise |
| Cron.Field | src/bay_cli/cron.py:72-93 | one field as an OnCalendar component, or refused |
| Cron.ToOnCalendar | src/bay_cli/cron.py:96-111 | the timer text of a line, or refused: not five good fields, or both days restricted |
| Cron.WordsAre | src/bay_cli/cron.py:101 | how a line is cut: white space separates the words and no word is empty |
| Cron.NamesAreRead | src/bay_cli/cron.py:27-38 | `sun` to `sat` in any letter case are read as 0 to 6 and printed by the same name, `jan` to `dec` as 1 to 12 |
| Cron.OtherWordsAreNumbers | src/bay_cli/cron.py:19-44 | everything else is read as a number from 0-59, 0-23, 1-31, 1-12 or 0-7, by field |
| Cron.FieldMeans | src/bay_cli/cron.py:32-93 | a translated field matches a value exactly when the cron field does: lists, ranges, steps, names, weekday 7, over-wide steps |
| Cron.TranslationKeepsMeaning | src/bay_cli/cron.py:96-111 | for every accepted line the timer matches a moment exactly when cron does |
| Cron.ItemIsRead | src/bay_cli/cron.py:32-69 | each documented form of a comma part is read as what it says |
| Cron.ReadPartsAreItems | src/bay_cli/cron.py:32-69 | every part that is read has a documented form |
| Cron.FieldIsAccepted | src/bay_cli/cron.py:72-93 | a field is accepted if and only if it is a comma list of documented parts and no list that starts with a star step outside the weekday field |
| Cron.LineIsAccepted | src/bay_cli/cron.py:96-111 | a line is accepted if and only if it has five such fields and the day of the month or the weekday is a star |
| Cron.StarStepListIsRefused | src/bay_cli/cron.py:77-80 | a documented list that starts with a star step is refused outside the weekday field |
| DocsToc.NextSlug | scripts/docs-toc.py:74-78 | the loop ends, and from the cached counter it finds the least unused suffix |
| DocsToc.Anchors | scripts/docs-toc.py:67-82 | every anchor is the one of the plain search, and no two are equal |
| DocsToc.SlugsAreUnique | scripts/docs-toc.py:67-82 | the plain search has one answer for all headings |
| DocsToc.HeadingsIn | scripts/docs-toc.py:41-59 | the loop finds the headings of `HeadingsAre` |
| DocsToc.HeadingsAre | scripts/docs-toc.py:41-59 | the headings are exactly those of lines that are no fence marker and lie in no fence, in the order of the lines |
| DocsToc.FenceReads | scripts/docs-toc.py:24 | a marker is at most three spaces and then three or more backquotes or tildes, and it is bare when only white space follows |
| DocsToc.OpenFenceIff | scripts/docs-toc.py:44-53 | a fence is open at a line if and only if a marker opened it where none was open and no bare marker of its character, at least as wide, came since |
| DocsToc.ListedAt | scripts/docs-toc.py:91-98 | the list has one line for each heading of level 2 or 3, in order, linking to its own anchor, indented at level 3, and no other line |
| DocsToc.StripUndoesInsert | scripts/docs-toc.py:101-133 | taking the block out undoes putting it in, at the front, at the end or after the first paragraph |
| DocsToc.StripIs | scripts/docs-toc.py:101-111 | what is cut from a text with a block, one without, and one whose block does not end |
| DocsToc.AnchorIs | scripts/docs-toc.py:114-126 | the block follows the first heading of level 1, else a closed fenced banner at the top |
| DocsToc.Render | scripts/docs-toc.py:136-141 | the new text, or too short, or a block without an end |
| DocsToc.LongMeans | scripts/docs-toc.py:139 | a text is long enough with more than 150 lines, where a final newline ends the last one |
| DocsToc.RenderIsIdempotent | scripts/docs-toc.py:136-141 | rendering the result again gives it back when no block starts ahead of the new one |
| DocsToc.StrayStartIsSwallowed | scripts/docs-toc.py:101-141 | with a start line ahead of the new block and no end line after it there, rendering again never gives the same text |
| DocsTocTwice.RenderTwice | scripts/docs-toc.py:101-141 | for every file: rendering the result again gives it back if and only if no block starts ahead of the new one |
| DocsTocTwice.SecondGivesLines | scripts/docs-toc.py:112-133 | there is one way to see a text as lines with a block at their place |
| DocsTocTwice.TwoListsChangeAgain | scripts/docs-toc.py:101-141 | a text of a title, two lists and a long paragraph, of which the second rendering differs from the first |
| InventoryGraph.ParseGraph | src/bay_cli/receipts.py:213-235 | the stack loop equals the step function of a row |
| InventoryGraph.ReadsTheTree | src/bay_cli/receipts.py:213-235 | on the printed form of any tree: a row for exactly its groups and hosts, with exactly the hosts below each anywhere |
| RetryProbe.CheckDomain | src/bay_cli/healthcheck.py:297-355 | the probe stops at the first attempt that is over, reports that attempt, and never stops because of the attempt cap |
| RetryProbe.CapNeverBinds | src/bay_cli/healthcheck.py:288-294 | for any budget the sleeps alone have spent it before the cap |
| RetryProbe.ProbeIsBounded | src/bay_cli/healthcheck.py:326-341 | with exact sleeps a probe takes at most the larger budget plus its last attempt |
| RetryProbe.BackoffValues | src/bay_cli/healthcheck.py:283-285 | the sleeps asked for are 2, 4, 8 and then 10 seconds |
| RetryProbe.KindsDecide | src/bay_cli/healthcheck.py:266-280 | a status from 200 to 399 ends the probe; else a host that does not resolve costs one attempt, a definitive answer ends the probe exactly when the next sleep would pass ten seconds, whatever the budget, and a starting service has the whole budget |
| RetryProbe.FailureKinds | src/bay_cli/healthcheck.py:266-280 | 502, 503, 504, a timeout and a refused connection mean starting, an unresolved name is final, all else is definitive; error texts are read up to the colon, in any letter case |
| BuildFanout.DedupMap | filter_plugins/bay_filters.py:1357-1393 | every service gets the first member of its image group with a build of its own, or the first one, as primary |
| BuildFanout.RoleMeans | filter_plugins/bay_filters.py:1357-1393 | the primary of an image is the first of its services, in order, with a build of its own, or the first of all when every one shares its build |
| BuildFanout.LocalAliases | filter_plugins/bay_filters.py:1265-1278 | exactly the non-primary local builds, with their primaries |
| BuildFanout.LocalMeans | filter_plugins/bay_filters.py:1259-1278 | a build is local if it says so, or says nothing and the fleet says local or nothing |
| BuildFanout.PrimariesAreNoAliases | filter_plugins/bay_filters.py:1357-1393 | a primary is no alias |
| BuildFanout.PushSiblings | filter_plugins/bay_filters.py:1180-1240 | the siblings are the other members minus the aliases that a member's build reaches |
| BuildFanout.MemberMeans | filter_plugins/bay_filters.py:1215-1256 | when a push is for a project, and which other services are its members, in terms of bay.toml path, project, clone and `shared_from` |
| BuildFanout.PushReachesTheProject | filter_plugins/bay_filters.py:1180-1240 | one push reaches every member, directly or through a triggered primary in the same regions |
| BuildFanout.ReachedTwiceIff | filter_plugins/bay_filters.py:1180-1240 | every other member once; the posted service twice exactly when it is an alias of a member in the same regions |
| BuildFanout.PushSiblingGroups | src/bay_cli/github_webhook.py:231-258 | exactly the groups of two or more by repository, branch and project |
| BuildFanout.GroupedMeans | src/bay_cli/github_webhook.py:231-258 | two services are grouped if and only if both have a build of their own, of one project, from one repository and branch |
| BuildFanout.GroupsAgree | src/bay_cli/github_webhook.py:231-258 | with distinct slugs and a build of its own, the group of a push is the hook group |

## Left out

- Subprocess, SSH, Ansible, Docker and network calls: git operations are steps with stated effects, the deploy and the receipts are nondeterministic results.
- Merge commits: local history is linear, so a rebase replays a chain. Whether git can rebase, how it merges the text of a file that both sides changed, and which commits it leaves out are inputs; renames are not followed.
- The conflicted files of a rebase that is stuck: its HEAD is modelled, its work tree is taken as clean.
- A git call that is killed after it took effect is modelled for the commit and the rebase, and an interrupt inside an undo falls between two paths.
- Runs without a push (`--no-push`), the run lock, nesting of write runs, and the freshness, host and process checks of claims.
- Failures inside the undo of an unwind: the protocol takes those git calls as working, `Checkout.dfy` has them all.
- The saving of the plan record just before a run begins is part of the first write of the run.
- Commits, edits and pushes by other people in a checkout are allowed at any moment and with any content, more freely than a checkout allows.
- Router names are kept apart per service, so two services whose names collide after a suffix are not modelled; labels carry a priority as a number, not as digits.
- Text is ASCII where case, white space or digits matter; `isdigit` and `lower` are those of ASCII.
- The headers, redirects, rate limits and hashes that middlewares carry; only which middleware is in which chain.
- Other parts of the lock record (adoption, code targets of a rollback, per-container history): `previous.containers` is carried, not computed.
- `bay remove` is no event of the runs of a lock: it marks records pending or failed with their pin as it is, and takes records out.
- Integers of the TOML writer are unbounded, and the reader knows the forms that the writer prints: no dates, floats, literal or multi-line strings, dotted keys, comments.
- The regular expressions for a heading, a slug and a link text of the contents generator are inputs; of them it is used that they make no second line and that a heading has a hash mark after its spaces.
- Colour codes and the line splitting in front of the graph reader, and the sorting of its result; the orders of the fan-out results.
- The slug and the image digest of a build are inputs; the alias fan-out script is taken to trigger the aliases of its primary on its box.
- The time stamps in milliseconds and the redirect chain of a probe result, and the mapping of HTTP library exceptions to error texts.
- Entry points are a comma list without blanks; the proxy's default entry points are not used.
- `plan.py`, `scope.py`, `routes.py`, the reconciler, alerts, Watchtower, catalog, doctor, vault, schemas, crypto and all rendering for people: wide and shallow, or not needed by a property above.
