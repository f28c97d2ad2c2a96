# Environment provisioner: a verified model

The provisioner hands out short-lived Docker environments. An API inserts a row and queues a message; workers build
and tear down stacks; three periodic sweeps (reap, recover, reconcile) clean up after expiry and after crashes. This
project models that machinery and proves what holds over every interleaving of requests, deliveries, redeliveries,
retries, kills and sweeps.

## How it is laid out

- `Lifecycle` is the environment row, its status machine, and what the two database sweeps do to a whole table.
  `Worlds` is what the Docker daemon holds, and what listing, grouping and removing mean on it. `Naming` turns ids
  into names. Everything below is stated with the functions of these three.
- `Protocol` is the whole service as one transition system: 27 kinds of step, with a worker split at every commit and
  every Docker call, able to vanish between any two. `Invariants` proves what every reachable state satisfies;
  `Safety`, `Guarantees`, `Passes`, `Pace`, `Reaping`, `Quota` and `Convergence` are the properties of runs; `Limits`
  and `Late` show by runs what is *not* promised. `Effects` spells out what single steps do, in columns, names and
  numbers.
- `Templates`, `Docker`, `Orm`, `Sweeps`, `Tasks` and `Router` are the code that works by changing things: a
  daemon, a manager, mapped rows with dirty columns, sessions, a broker and metrics as classes, and the loops of the
  source with their invariants. The methods are proved against the functions the transition system takes its steps
  with (`SetStatus`, `Launched`, `FailWith`, `ReapRows`, `RecoverRows`, `RemoveAll`, `Sweepable`, `CreateAllowed`).
- `Timestamps` and `ApiKeys` are the two parsers: Docker's creation stamps, and the list of API keys. `Clock` says what
  the first makes of texts, without its own arithmetic: a second later, a minute further east, a digit more.

Time is in whole microseconds. Docker calls may fail, may do their work and then fail, and take up to a bounded time;
`containers.run` may create a container and not start it; a network with a container on it is not removed. Database
commits may fail. `reliable` marks a daemon or a database that does not. The daemon logs the calls of removals with their answers, what
reloads showed, and the failed calls of provisions, so that contracts can say which answer led to what.

## What the code does not promise

- The quota is not a hard limit. A failed provision is marked FAILED before it is retried, so its owner may create
  another environment in between, and the retry makes the first row active again; and two create requests can both
  pass the guards before either commits. A step exceeds the quota exactly when the owner is at the limit and such a
  create commits, or a task starts, or launches late, on one of the owner's stopped or failed rows
  (`Quota.ExceededExactly`). `Limits.QuotaCanBeExceeded` and `Limits.RequestsCanRace` give the runs, and
  `Quota.QuotaHolds` bounds the excess.
- Nor are the names of an owner's active rows unique. A step makes two share a name exactly when it revives a row, or
  commits a create, whose name an active row has (`Quota.SharedNameExactly`), with the quota full or not
  (`Limits.NamesCanBeShared`). From then on, while there is room, the name guard answers requests for that name with a
  server error (`Router.RaisesExactly`, `Router.NameGuardCanRaise`).
- STOPPED does not mean that the resources are gone: Docker's errors are logged and swallowed. A container is left
  exactly if Docker kept it, and a network exactly if Docker kept it or something that was not removed sits on it
  (`Tasks.TornDownExactly`); `Limits.StoppedAndStillThere` gives a run. What is left stays findable under its label.
- The comment at worker/tasks.py:347-348 says the grace period means the sweep can never race a worker. Nothing live
  is removed while attempts finish within the grace period of their first resource (`Safety.NothingLiveRemoved`). A
  pass can take a container exactly if it is a grace period old and its row is terminal or gone
  (`Passes.RemovableExactly`), also from an attempt that is still at work (`Limits.LiveContainerCanBeLost`). If single
  calls, roles, commits and clean-ups are never late, that can happen exactly if n(T + 2 + 3d), plus commit and
  clean-up, reaches the grace period for some template (`Late.TakesLiveExactly`); the row may be terminal that early
  because a teardown stops it under the attempt.
- The comment at config.py:45-47 asks the readiness timeout to stay well under the provisioning timeout. What matters
  is the timeout of every role in turn, every Docker call, and the database's part: if nobody is late, a recover can
  fail the row of a live attempt exactly if d + n(T + 2 + 3d), plus commit and clean-up, reaches the provisioning
  timeout (`Late.LosesRowExactly`). With the shipped values and two roles these are 656 s for seven calls and the
  writes, or for six (`Late.ShippedExactly`).
- A leap second, the year 0000 and a lower-case z are RFC 3339 but not readable, so such a stamp counts as now
  (`Timestamps.CreatedAtIsFloor`).

## Model

| member | source | states |
|---|---|---|
| Safety.NothingLiveRemoved | worker/tasks.py:339-389 | In every run, if each attempt that has asked Docker for something ends within a grace period, no step takes away a resource of an attempt under way or one a running row records, though finding, checking and removing are separate steps |
| Safety.PassesStaySafe | worker/tasks.py:357-384 | A reconcile pass that queued a removal stays right until it removes: no running row can come to record what is queued, because only a live attempt could bring that about and its resources are too young |
| Safety.RemovedWasQueued | docker_manager/compose.py:329-353 | Whatever disappears was next in the queue of a teardown or of a reconcile pass |
| Safety.NewlyVouched | worker/tasks.py:188-195 | Only the commit of a provision makes a running row record something, and that is what its own attempt made |
| Passes.RemovableExactly | worker/tasks.py:339-389 | From a state where a pass begins and meets nobody, it can take a container away if and only if the container is a grace period old and the row of its label is terminal or missing, whoever is at work on it |
| Passes.NetworkRemovableExactly | worker/tasks.py:339-389 | Likewise for a network: it must be a grace period old, its row terminal or missing, and every container on it removable in the same way |
| Passes.OverdueCanBeSwept | worker/tasks.py:351-384 | It then takes four steps, and whoever was at work on the container still is |
| Limits.LiveContainerCanBeLost | worker/tasks.py:347-348 | A run from the empty state in which a live attempt loses its container: both its timeout and the grace period pass, a recover fails the row, and a pass sweeps it |
| Limits.GivenUp | worker/tasks.py:419-440 | The run up to there: the row is failed while its attempt is still at work |
| Pace.RecoverSparesAttempts | worker/tasks.py:419-440 | In every run where no attempt is late with a call, a role, its commit or its clean-up, if d + n(T + 2 + 3d) plus commit and clean-up is below the provisioning timeout, no recover takes the row out of PROVISIONING while the attempt is alive, at work or unwinding |
| Pace.LivesAtMost | docker_manager/compose.py:253-303 | From those bounds on its parts, an attempt lives at most that long from loading its row, and one call less from making its first resource |
| Pace.PacedStep | docker_manager/compose.py:253-303 | Each step keeps what an attempt can have spent so far within the sum of its parts |
| Pace.PromptRunsAreSafe | worker/tasks.py:339-389 | In every run where nobody is late, if n(T + 2 + 3d) plus commit and clean-up is below the grace period for every template, nothing live is ever removed |
| Late.LosesRowExactly | worker/tasks.py:419-440 | For a template of distinct, resolvable roles, a run on which nobody is late can come to a recover that fails the row of a live attempt if and only if d + n(T + 2 + 3d) plus commit and clean-up reaches the provisioning timeout |
| Late.TakesLiveExactly | worker/tasks.py:339-389 | Where every template with roles can be built, such a run can come to a step that takes away a live resource if and only if n(T + 2 + 3d) plus commit and clean-up reaches the grace period for some template |
| Late.RoleByRole | docker_manager/compose.py:273-294 | Any number of roles can each take as long as they may, with nobody late |
| Late.StoppedMeanwhile | worker/tasks.py:250-266 | A delete while an attempt is at work stops its row at once, with nothing removed |
| Late.ShippedExactly | config.py:48-82 | With the shipped values and two roles, the first happens if and only if seven calls, the commit and the clean-up take 656 s, and the second if and only if six calls do |
| Pace.ShippedFits | config.py:48-82 | With the shipped values, two-role templates fit in the provisioning timeout if and only if seven calls, the commit and the clean-up take less than 656 s, and in the grace period if and only if six calls do |
| Invariants.InvAt | worker/tasks.py:146-449 | Every reachable state: births recorded, rows stamped, running rows with an expiry, recorded ids made for their own row, live attempts' resources recorded, made or queued by nobody else, containers only on networks of their own label |
| Invariants.InvStep | worker/tasks.py:146-449 | Each of the 27 kinds of step keeps that invariant |
| Invariants.KeepProvisionCommit | worker/tasks.py:188-195 | The commit that records a stack keeps ownership and exclusiveness |
| Invariants.KeepTeardownLoad | worker/tasks.py:250-265 | Starting a teardown, which is unconditional, queues only what the row recorded and no running row still does |
| Invariants.KeepProvisionContainer | docker_manager/compose.py:416-437 | A container made, also one that was not started, carries its attempt's label and sits on its attempt's network |
| Invariants.KeepRemoveNext | docker_manager/compose.py:330-353 | Removing, and failing to remove, keep the invariant |
| Invariants.OnlyOwnerRecords | worker/tasks.py:191-193 | No two rows record the same resource |
| Guarantees.OwnershipHolds | worker/tasks.py:177-193 | In every run: what a row records was made under its label, recorded sets are disjoint, and a teardown is only ever about to remove its own environment's resources, none of them live |
| Guarantees.RemovedUnderOwnLabel | worker/tasks.py:257-261 | Whatever disappears carried the label of the environment torn down or swept |
| Guarantees.LeaksAreFound | docker_manager/compose.py:388-437 | Whatever an attempt asked Docker for is, as long as it exists, returned by a listing under the attempt's own id exactly if it is older than the listing's cutoff, however the attempt ended |
| Passes.AgedIsAskedFor | worker/tasks.py:351-384 | In every run, a pass with nothing left to visit has visited every resource of an environment's that is still there and was old enough when the pass began, and queued its removal exactly if its own row was terminal or missing at that visit |
| Passes.PassMoves | worker/tasks.py:357-384 | Whatever step is taken, a listed resource stays to be visited or is visited under its own label |
| Passes.WasThere | docker_manager/compose.py:388-437 | An environment's resource older than some moment of the run existed at that moment: nothing comes back |
| Guarantees.CheckedIsQueued | worker/tasks.py:360-384 | A pass queues everything found under a label exactly when its row is missing or terminal, and each visit leaves it strictly less to visit |
| Guarantees.HistoryKeptInRun | docker_manager/compose.py:388-393 | Label and creation time of a resource never change along a run |
| Guarantees.UnwindExactly | worker/tasks.py:215-235 | An attempt that raised sends itself again exactly if it met no ValueError and was retried less than three times; a teardown, whatever it met, exactly if less than twice |
| Guarantees.RetriesBounded | worker/tasks.py:273-289 | In every run, with any loss and redelivery, no provision is at more than its third retry and no teardown at more than its second |
| Effects.RunsWithAllRoles | docker_manager/compose.py:273-303 | In every run a row comes to RUNNING only with one container for each role of its template, at least one, and a network |
| Effects.CreateEffects | api/routes/environment_router.py:99-112 | A create queues a first provision, and its commit lets in a PENDING row with the columns of the request |
| Effects.DeleteEffects | api/routes/environment_router.py:184-193 | A delete queues a first teardown and changes no row |
| Effects.DeliverEffects | worker/tasks.py:146-165 | A delivery starts the task the message names, with its retries, and takes the message only if acknowledged |
| Effects.ProvisionStartEffects | worker/tasks.py:166-174 | A provision starts with PROVISIONING and the time, or raises a ValueError for a missing row |
| Effects.LaunchEffects | worker/tasks.py:188-195 | Its last commit writes the eight columns of a running row and no other |
| Effects.NetworkEffects | docker_manager/compose.py:386-394 | A network made, heard of or not, is named env-<uuid>, labelled with the uuid and counted among what the attempt made |
| Effects.ContainerEffects | docker_manager/compose.py:416-437 | So is a container, named after its role too, on the attempt's network |
| Effects.RemoveEffects | docker_manager/compose.py:329-353 | One removal takes the first queued container or else the first queued network, which stays if a container sits on it |
| Effects.TeardownStartEffects | worker/tasks.py:248-261 | A teardown starts with STOPPING and everything the row records queued, containers first |
| Effects.StopEffects | worker/tasks.py:263-266 | Its last commit writes STOPPED and when |
| Effects.MarkEffects | worker/tasks.py:127-140 | The marker writes FAILED and the first 500 characters, or nothing |
| Effects.AnyoneCanVanish | worker/tasks.py:215-238 | At any moment any worker may vanish, and a task that is loading or at work may raise anything |
| Effects.MessagesGoAstray | api/routes/environment_router.py:99-112 | At any moment a message may be lost or delivered, acknowledged or not, and a create's insert fail or not, whatever became of its message |
| Naming.NamesNeverCollide | docker_manager/compose.py:53-63 | Names agree exactly when both the UUID and the role agree |
| Naming.StrInjective | docker_manager/compose.py:53-63 | Distinct UUIDs print differently |
| Naming.HexDigit | docker_manager/compose.py:53-55 | Each digit of a printed UUID is the hexadecimal one of its place |
| Naming.NamesSpelled | docker_manager/compose.py:53-63 | How the names are spelled around the UUID and the role |
| Quota.QuotaHolds | api/routes/environment_router.py:60-112 | In every run an owner's active rows number at most the quota, plus the revivals of that owner's rows, plus that owner's creates whose guards no longer held when they committed; with none of either, the quota holds and active names are distinct |
| Quota.ExceededExactly | worker/tasks.py:172-173 | From within the quota, a step exceeds it if and only if the owner is at the limit and a create of theirs commits, or a task is about to start, or to finish launching, on a stopped or failed row of theirs |
| Quota.SharedNameExactly | api/routes/environment_router.py:83-97 | From distinct active names, a step makes two active rows share one if and only if it revives a row, or commits a create, whose name an active row of the owner's has |
| Quota.RevivalsCounted | worker/tasks.py:172-195 | Exactly those task steps are the revivals counted along a run |
| Quota.RacesCounted | api/routes/environment_router.py:106-112 | And exactly the commits of creates whose guards hold no more are the races |
| Quota.BoundedStep | api/routes/environment_router.py:63-112 | Each kind of step keeps the bound |
| Limits.QuotaCanBeExceeded | worker/tasks.py:215-234 | For every quota above zero, a run from the empty state that ends with more active rows, by a retry, though no creates raced |
| Limits.RequestsCanRace | api/routes/environment_router.py:63-112 | For every quota above zero and every number, a run that ends with that many active rows of one owner, by requests at once, though none was revived |
| Limits.NamesCanBeShared | api/routes/environment_router.py:83-112 | A run from the empty state to two active rows of one owner and one name, whatever the quota, without a revival |
| Limits.TwoShareAName | api/routes/environment_router.py:83-97 | Those two rows are active together, and are two: within a quota of two |
| Convergence.CrashIsReclaimed | worker/tasks.py:295-449 | From every reachable state, with all workers dead and all messages lost, a reap past every expiry, a recover past every timeout and a reconcile past the grace leave every row terminal and nothing under an environment's label |
| Convergence.RowsSettle | worker/tasks.py:304-319 | After that reap and recover exactly the rows that were not terminal have become FAILED |
| Convergence.WorldSettles | worker/tasks.py:351-384 | With every row terminal one pass past the grace removes every labelled container and network, since only same-label containers can hold a network |
| Convergence.SweepsCannotLoop | worker/tasks.py:403-413 | For any schedule of sweeps, any instants and anything Docker keeps, at most two ticks per row and one per labelled resource have an effect |
| Convergence.InterleavedSweepsCannotLoop | worker/tasks.py:403-413 | In any stretch of a run in which only the sweeps and the clock move, interleaved and interrupted anyhow, at most two steps per row and one per labelled resource change anything |
| Convergence.SweepStepDrops | worker/tasks.py:295-449 | Each such step that changes anything strictly lowers the measure |
| Convergence.TickDrops | worker/tasks.py:295-449 | A tick that changes anything strictly lowers the sum of row ranks and labelled resources |
| Lifecycle.SweepsIdempotent | worker/tasks.py:295-449 | A second reap or recover at the same instant selects and changes nothing |
| Lifecycle.SweepsDisjoint | worker/tasks.py:305-308 | No row is selected by both database sweeps, and no terminal row by either |
| Lifecycle.LostClaimIsRecovered | worker/tasks.py:314-319 | A claimed row whose teardown was never sent is failed by a recover exactly once the stopping timeout is over |
| Lifecycle.ReapedExactly | worker/tasks.py:305-314 | A sweep of the reaper makes a row STOPPING if and only if it is RUNNING with an expiry that is not after now, and leaves every other row alone |
| Lifecycle.ReapedAfterItsTtl | worker/tasks.py:188-195 | A row launched at some instant is reaped if and only if its ttl in seconds has passed since |
| Reaping.ReapedExactlyAfterTtl | worker/tasks.py:304-315 | In every run, a claim of the reaper takes a running row if and only if its ttl has passed since the very step that launched it |
| Reaping.SentAfterClaim | worker/tasks.py:313-319 | In every run, what a reaper sends is one teardown for the next of the rows that it itself took from RUNNING to STOPPING before |
| Lifecycle.RecoveredExactly | worker/tasks.py:396-440 | A recover fails a row if and only if it has been PENDING, PROVISIONING or STOPPING for the timeout of that status, and the reason names both |
| Lifecycle.ShippedValues | config.py:48-82 | The shipped quota and timeouts, as numbers of microseconds |
| Lifecycle.CutExactly | worker/tasks.py:127-140 | A stored message is the first 500 characters of the text |
| Worlds.RemoveAllIdempotent | docker_manager/compose.py:319-323 | Removing the same lists twice is removing them once |
| Worlds.RemoveAllComplete | docker_manager/compose.py:319-323 | Every listed network goes if and only if nothing unlisted is attached to one |
| Worlds.RemoveAllTwice | worker/tasks.py:357-384 | Removing label after label comes to one removal of everything |
| Worlds.FoundExactly | docker_manager/compose.py:370-382 | A resource is found if and only if it is labelled and stamped by the cutoff, or has no readable stamp and the cutoff is not before now |
| Worlds.UnstampedIsSpared | docker_manager/compose.py:155-163 | With a grace period no pass sweeps a resource without a readable stamp |
| Clock.FoundByText | docker_manager/compose.py:370-382 | A listing takes a labelled resource exactly by the reading of its stamp's text |
| Worlds.FoundWhenever | docker_manager/compose.py:150-164 | With a grace period, the instant of a listing does not matter to what is found |
| Docker.DockerManager.WaitForReady | docker_manager/compose.py:439-490 | Returns only after observing running (and healthy if declared), and fails on the first exited, dead or unhealthy observation; it gives up only undecided, and not before the timeout, which is the configured one for None and 0; it looks again and again, at least two seconds and at most two and one call apart, ends within timeout, one poll and one call, and ends in an API error exactly if a call failed |
| Docker.DockerManager.Provision | docker_manager/compose.py:253-303 | Whatever way it ends: only resources under its label were added, within the time of its roles, a prefix of the start order was started and waited for; success gives one new container per role in that order, each seen ready, on the new network, and the last host port that the roles' last reloads showed; each failure says what it came to (unknown template, a placeholder, a role seen failed, a wait as long as the timeout, all roles up without a port), and it is an API error exactly if one of its calls failed |
| Docker.NoBinding | docker_manager/compose.py:289-297 | There is no port exactly if no role that exposes one showed a binding when it was last reloaded |
| Docker.DockerManager.StartRoles | docker_manager/compose.py:273-294 | The loop starts the roles in order, each seen ready before the next; if it fails, on its last role, the earlier ones were ready |
| Docker.DockerManager.StartRole | docker_manager/compose.py:273-294 | One role: made, started, seen ready and asked for its port, in at most the readiness timeout, one poll and three calls; what it fails with is what was seen, and it is not NotReady before the readiness timeout has passed |
| Docker.DockerManager.RemoveResources | docker_manager/compose.py:313-353 | Everything listed has its turn, once, every container before any network: looked up, stopped, removed, as far as Docker obeys; the outcome is the removal of the lists but for what was kept, whatever is kept had a call of its own refused, so one refusal spares nothing else; a network in use stays and nothing unlisted goes |
| Docker.DockerManager.RemoveContainers | docker_manager/compose.py:330-341 | The first loop: each container has its turn, and is gone or had a call of its own refused |
| Docker.DockerManager.RemoveNetworks | docker_manager/compose.py:343-353 | The second loop: likewise for each network on which nothing is left |
| Docker.DockerManager.Teardown | docker_manager/compose.py:305-311 | The same for one row's containers and its network, if it has one |
| Docker.DockerManager.FindLabelled | docker_manager/compose.py:355-384 | The result groups exactly the labelled resources that are old enough |
| Docker.GroupByLabel | docker_manager/compose.py:368-384 | Each list is the order-preserving filter of its listing, and there is an entry exactly for labels with something in it |
| Docker.ChosenExactly | docker_manager/compose.py:373-376 | The filter keeps each fitting resource, once |
| Docker.GroupsOfListings | docker_manager/compose.py:370-384 | Over complete listings the entries are the groups: every old labelled resource once, under its own label, and no empty entry |
| Docker.AttemptTime | config.py:45-48 | The worst case of a stack of n roles is call + n(timeout + 2 s + 3 call), and for the shipped values and two roles it leaves room for the database's part if and only if that and seven calls take less than 656 s |
| Docker.PartOfTrace | docker_manager/compose.py:284-287 | After any number of roles, what was started and waited for is a prefix of the start trace |
| Templates.PickKeepsAll | docker_manager/compose.py:270 | The start order is a permutation of the template |
| Templates.PickStable | docker_manager/compose.py:270 | And a stable one |
| Templates.OrderIsRightExactly | docker_manager/compose.py:270 | It puts every dependency first if each is dependency-free or listed earlier, and, no role being listed twice, only then |
| Templates.DependencyReadyExactly | docker_manager/compose.py:284-287 | Under the same condition a role starts only after the wait for its dependency has returned |
| Timestamps.CreatedAtIsFloor | docker_manager/compose.py:150-164 | Every RFC 3339 date-time (section 5.6) is read as the microsecond floor of its instant, if and only if it is no leap second (section 5.7), not in the year 0000 and not marked by a lower-case z; those count as now |
| Timestamps.SweptStampsAreOld | docker_manager/compose.py:150-164 | Reading is monotone, and a stamp passes the cutoff exactly when its instant is older than the grace less one microsecond |
| Clock.NextSecondRead | docker_manager/compose.py:159-164 | A stamp one second later, carried through seconds, minutes, hours, days, months and leap years, is read as exactly 1_000_000 more |
| Clock.EpochRead | docker_manager/compose.py:161 | The text 1970-01-01T00:00:00Z is read as 0 |
| Clock.OffsetRead60 | docker_manager/compose.py:159-164 | The same wall clock one minute further ahead of Universal Time is read as 60_000_000 less, and further behind as that much more |
| Clock.NoOffset | docker_manager/compose.py:159 | Z, +00:00 and -00:00 are read alike |
| Clock.DigitRead | docker_manager/compose.py:159 | Changing a digit of the fraction changes the reading by as much in its decimal place, down to the sixth digit, and not at all after it |
| Clock.ZeroRead | docker_manager/compose.py:159 | A fraction of zeros is no fraction |
| Clock.MissingIsNow | docker_manager/compose.py:155-158 | No stamp, and an empty one, count as now |
| Clock.ReadOnlyLegal | docker_manager/compose.py:160-163 | What is read has a date of the calendar from the year 1 on and a time of day in their places |
| Clock.OffsetOnlyLegal | docker_manager/compose.py:160-163 | An offset is read only as a sign and hours and minutes under a day, or not there |
| Clock.MonthLengths | docker_manager/compose.py:161 | The months have their lengths |
| Timestamps.UnreadableIsNeverSwept | docker_manager/compose.py:155-163 | What has no readable stamp passes a cutoff exactly when there is no grace |
| Timestamps.Cleaned | docker_manager/compose.py:159 | The two clean-ups turn the text into one with six digits at most and a numeric offset |
| Timestamps.OrdinalCountsDays | docker_manager/compose.py:161 | The calendar used for reading counts each day as one more than the day before |
| Timestamps.OrdinalAnchors | docker_manager/compose.py:161 | And it starts at day one of year one, with the epoch where it belongs |
| ApiKeys.Parse | api/auth.py:40-71 | The loop with its early errors is the left-to-right reading of the split text |
| ApiKeys.ParseUndoesPrint | api/auth.py:40-71 | Reading any printed list of legal, distinct pairs, with blanks and padding anywhere, gives back the map |
| ApiKeys.AcceptedExactly | api/auth.py:50-70 | A text is accepted if and only if every entry is blank or well formed, long enough and no key comes twice; and the map holds exactly its entries |
| ApiKeys.PairReadAs | api/auth.py:50-70 | A pair with any padding is refused below 16 characters of key, then as a duplicate naming both principals, and is otherwise added |
| ApiKeys.MalformedReadAs | api/auth.py:55-60 | An entry without a colon, with nothing before it or with nothing after it is malformed, and the error says which of the first and the others |
| ApiKeys.SpacesAre | api/auth.py:51-56 | What is stripped, by code point |
| ApiKeys.SplitJoin | api/auth.py:50 | Splitting undoes joining |
| ApiKeys.PrincipalFor | api/auth.py:79-90 | The full scan is a map lookup |
| ApiKeys.RequirePrincipal | api/auth.py:93-115 | A caller is admitted if and only if it sends a non-empty configured key, and as that key's principal; without any configured key nobody is |
| Orm.Environment.SetStatus | db/models.py:69-78 | Status and stamp change together, and nothing else does |
| Orm.MergeKeepsOthers | db/models.py:69-78 | An update of a row nobody else wrote stores it as it is, and an unchanged object overwrites nothing |
| Orm.MergeIsByColumn | db/models.py:69-78 | An update of one column leaves what others wrote in the rest |
| Orm.Session.FlushAll | worker/tasks.py:313-315 | Flushing several objects stores each and no other row |
| Sweeps.ReapExpired | worker/tasks.py:295-327 | Wherever it is killed: either nothing is claimed, or exactly the expired rows are; messages are for distinct rows whose claim is committed, one each; a run that finishes sent one for every claim |
| Sweeps.ClaimExpired | worker/tasks.py:303-315 | In one commit exactly the rows that are RUNNING with an expiry that has come become STOPPING, and every other row stays as it is |
| Sweeps.RecoverStale | worker/tasks.py:402-449 | The loop status by status is one pass over the table: exactly the stale rows fail, each with its reason, and the total is their number |
| Sweeps.FailFirstIsOnePass | worker/tasks.py:419-440 | Three sweeps in a row, one a status, make the same table as one pass |
| Sweeps.ReportIsComplete | worker/tasks.py:442-446 | The counts add up to the stale rows, each counted once, and the report is empty exactly if there are none |
| Sweeps.ReportedExactly | worker/tasks.py:441-446 | Each status reported holds the number of rows stuck in it, and a status without any is not reported |
| Sweeps.ReconcileOrphans | worker/tasks.py:338-389 | Whatever Docker refuses: exactly what was found old enough under a sweepable label is asked for, nothing else goes, and what is gone is what one simultaneous sweep takes but for what Docker kept, each after a refused call of its own; removed and skipped count the sweepable and the other labels |
| Sweeps.VisitLabel | worker/tasks.py:358-384 | A label is swept exactly when it is a UUID whose row is missing or terminal, each of its resources in turn, and otherwise nothing is said or changed |
| Sweeps.AllLabels | worker/tasks.py:357-384 | After every found label, what was asked for is all that was found under sweepable ones |
| Sweeps.PassIsTick | worker/tasks.py:351-384 | With a grace period, a pass is one tick of the schedules that cannot loop, refusals included, whenever its two listings were taken |
| Sweeps.PassGoesOn | worker/tasks.py:357-384 | Sweeping label after label comes to sweeping them together, whatever Docker keeps of each |
| Tasks.ProvisionEnvironment | worker/tasks.py:146-238 | One attempt counts one outcome, and a duration exactly on success. A missing row, an unknown template and a bad placeholder end in FAILURE and send nothing; any other error comes back after 10, 20 and 40 s, and on the third retry ends in FAILURE; a Docker failure is one the template's own calls and looks show; success stores the stack, and with a reliable database the row ends RUNNING or FAILED |
| Tasks.TryProvision | worker/tasks.py:166-195 | The body of the try, with others writing while Docker works: which error it can end in and what that came of, what it leaves in Docker, and exactly what it stores |
| Tasks.GiveUpOrRetry | worker/tasks.py:215-235 | The row is marked first; a retry is sent exactly if the error is none of the three ValueErrors and fewer than three retries were made, after 10, 20 or 40 s |
| Tasks.ProvisionChain | worker/tasks.py:215-235 | Unkilled, a message gives k retries, at most three, then one success or failure; a failure comes after three retries, or of one of the three ValueErrors; one duration exactly on success, countdowns of 0, 10, 30 or 70 s in all, and a row left RUNNING or FAILED |
| Tasks.MarkFailed | worker/tasks.py:127-140 | Best effort: the row as it is now becomes FAILED, with the first 500 characters of the message, or the table is untouched |
| Tasks.LaunchOverwrites | worker/tasks.py:188-195 | The late commit makes the row RUNNING whatever others wrote meanwhile, stores every column of the stack it changed, with an expiry its ttl later, and is stored whole if and only if every column it skips is right already |
| Tasks.StopOverwrites | worker/tasks.py:263-266 | Likewise for the last commit of a teardown, which also keeps what others recorded |
| Tasks.TeardownEnvironment | worker/tasks.py:241-292 | One attempt fails only for want of the row or of the database, never for Docker; a success has asked for all the row recorded, and only that goes, what stays having had a call of its own refused; errors are retried whatever they are, twice, after five seconds, and only the last failure marks the row |
| Tasks.TryTeardown | worker/tasks.py:248-266 | STOPPING, the removals of the row as loaded, STOPPED; what is removed and what is stored |
| Tasks.TornDownExactly | worker/tasks.py:257-261 | After a teardown a recorded container is left exactly if Docker kept it, and the network exactly if Docker kept it or an unlisted or kept container sits on it; all else stays |
| Limits.StoppedAndStillThere | docker_manager/compose.py:338-353 | A run from the empty state that ends quietly with a STOPPED row without an error, its container and its network still there |
| Tasks.TeardownChain | worker/tasks.py:273-289 | Unkilled, a message gives k retries, at most two, five seconds apart, then one success or failure; the row ends STOPPED, or FAILED if the last write was saved |
| Router.LoadOwned | api/routes/environment_router.py:31-44 | A row is loaded exactly if it exists and is the caller's; otherwise 404, whichever it was |
| Router.CreateEnvironment | api/routes/environment_router.py:55-117 | Refusals change nothing; an accepted request is queued before its row is committed, so a failed commit leaves the message alone; the row is PENDING with the owner, name, template and ttl of the request; with others writing between the guards and the insert, the quota is kept exactly if it still had room |
| Router.VerdictExactly | api/routes/environment_router.py:63-97 | The two guards pass if and only if the owner has room and the name is free |
| Router.RefusedExactly | api/routes/environment_router.py:73-97 | No room is 429; room, and one active row of that name, is 409 |
| Router.DeleteEnvironment | api/routes/environment_router.py:172-193 | A teardown is queued exactly for the caller's rows that are not stopping or stopped, FAILED ones included; no row changes |
| Router.GuardsAgree | api/routes/environment_router.py:63-112 | The routes' guards are exactly those of the transition system's request steps |
| Router.RaisesExactly | api/routes/environment_router.py:83-97 | The name guard raises if and only if there is room under the quota and two active rows of the owner's have that name |
| Router.NameGuardCanRaise | api/routes/environment_router.py:93-97 | A run from the empty state, for any quota above two, to a request that meets the server error |
| Router.SharedNameNeedsRevival | api/routes/environment_router.py:83-97 | Along any run that takes an earlier revival or race of that owner's |

## Left out

- HTTP routing, request validation, CORS, status plumbing, the list and get endpoints: they change nothing.
- SQLAlchemy, Alembic, Celery, Redis and the Docker SDK themselves: commits are atomic, the broker is a bag with loss
  and redelivery, and the daemon is a class whose calls may fail. Each sweep's select and commit is one transaction,
  and so are a create request's guards, and a task's load and its start commit; the clock stands still inside each.
- Listings of containers and networks never fail; in the program an error there ends the sweep before it has changed
  anything.
- A Docker call that is in flight when its worker is killed does not complete afterwards.
- The columns `celery_task_id` and `created_at`.
- observability.py, the Prometheus registry and the worker processes' metric files: only the counted outcomes and the
  observed durations are kept.
- `resource_limits`, `to_docker_healthcheck` and the literal templates; `resolve_environment` is one flag of a spec,
  whether its placeholders resolve.
- Other UUID spellings of a label are an opaque number beside the id; the service writes only the first.
- Shapes other than `YYYY-MM-DDThh:mm:ss[.f][offset]` that Python's parser also takes, and digits outside ASCII.
- Foreign Docker resources, run by operators, carry no UUID label and join only networks of their own label.
- Interference inside one `DockerManager` call or one reconcile pass: the methods run alone on their daemon, and the
  transition system covers the interleavings.
- How long a key comparison takes; only which principal it finds.
- Docker.DockerManager.WaitForReady: time passes only in calls and in the two-second sleeps.
- Tasks.ProvisionChain: an attempt's database work takes no time.
- Pace.RecoverSparesAttempts: that no call is late is a premise; the daemon's methods keep it by construction, and a
  real Docker need not.
- Tasks.ProvisionEnvironment: a commit that lands and still raises, and an exception after the RUNNING commit
  (worker/tasks.py:197-213), are steps of the transition system, and not of the methods.
