# PAIO data-plane stage: a verified model

PAIO is a user-space I/O data-plane stage. A client describes each I/O request by a workflow, an operation
type and an operation context. The stage hashes these classifiers into differentiation tokens, finds a
channel and an enforcement object by token, and lets the object (a no-op or a token-bucket rate limiter) act
on the request before it answers. Channels run either on a fast path or through a submission queue, a pool
of workers and a completion queue. A control plane installs channels and objects with housekeeping rules,
tunes them with enforcement rules, and collects statistics.

The project models that behaviour and proves its central properties for all inputs and all runs.
`dafny verify dfyconfig.toml` checks it.

| file | what it holds |
|---|---|
| `MurmurWords`, `Messages`, `BlockFold` | word operations with their inverses, bytes and tails, folds over blocks |
| `MurmurX86_32`, `MurmurX86_128`, `MurmurX64_128`, `HashExamples` | the three MurmurHash3 variants: methods proved equal to a fold, and no-collision theorems; one message under each 128-bit hash, in numbers |
| `Differentiation`, `NotFoundToken` | the strings built from classifiers, their tokens, and the two differentiation classes; which classifiers hash to the token that doubles as "not found" |
| `BucketTrace`, `TokenBuckets`, `RateLimiter`, `ThreadedBucket` | traces of a token bucket and their rate bound; the lazy bucket, the rate limiter object, and the bucket with a refill thread |
| `Common`, `Requests`, `EnforcementObjects` | statuses and other shared values, tickets, results, and the searched list of enforcement objects |
| `QueueProtocol`, `SubmissionQueues` | the queueing mode as a step system, and the two queue classes |
| `HousekeepingTables`, `TableCounters` | the rule table one call at a time, and its counters under interleaving |
| `Stages`, `StageRuns`, `StagePaths`, `HousekeepingPasses`, `DefaultStages`, `NotFoundStages` | the stage as a value, its invariants over runs, the two paths to an object, passes over the rules, the default stage, and what the not-found token does |
| `QueueingChannels` | the queueing protocol run by a channel of the stage |
| `DataPlane` | the core and its channels as classes, proved against the stage as a value |
| `BucketStatistics`, `ChannelStatistics`, `RulesParser` | the statistics ring buffer, the channel counters, the rule-file reader and printer |

How the model is read:

- Code that updates fields or loops is a class or a method whose `ensures` ties it to a function; the
  theorems are about those functions. Concurrent code is a step system with one step per critical section,
  any number of threads, and ghost histories.
- Clocks are functions or parameters. A blocking wait takes what the thread finds at each wake-up as a
  parameter.
- The enforcement objects of the queueing protocol are arbitrary deterministic machines; in the stage an
  object's state is the list of calls it received, which determines its answers and statuses. The level of a
  rate limiter also depends on the clock and is followed in `TokenBuckets` and `RateLimiter`.
- The stage theorems hold for every function from classifiers to tokens; `Stages.Hashed` is the one in use.
- `hide` statements only keep definitions out of a proof that does not need them.

What the proofs found:

- In queueing mode a call that holds the completion lock over a nonempty queue gets through exactly when it is
  next in submission order; otherwise it re-checks a foreign front for ever without giving up the lock, and
  two calls with one worker are enough (`QueueProtocol.GetsThroughIffNext`, `StuckForever`,
  `TwoCallsCanGetStuck`). A client that lets only one call in at a time is never stuck
  (`QueueProtocol.OneAtATimeNeverStuck`). The comment at `include/paio/enforcement/completion_queue.hpp:70-75` says that it
  waits; the model follows the code.
- A pass over the rule table with nothing pending returns an error, because the status starts as one
  (`HousekeepingPasses.RerunDoesNothing`). A pending rule can still be carried out by some run if and only if it
  is not barred and asks for a supported type (`HousekeepingPasses.CarriedOutIffNotBarred`); a barred rule, and
  no other, stops every later pass that comes to it (`HousekeepingPasses.StopsForEverIffBarred`), so one makes
  every later pass over the table fail (`HousekeepingPasses.BlockedForEver`). Barred is what collides with
  existing channels or objects, lies in a channel with the token 2^32 - 1, waits for a channel when no token
  is left for one, or is not a create rule.
- Asking the constructor for several default channels builds only one of them unless the workflow classifier
  is hashed, which by default it is not (`DefaultStages.OneDefaultChannel`). With it hashed, alone or with
  others, up to nine are all built (`DefaultStages.NineDefaultChannels`).
- The source accepts one identifier for several objects of a channel; enforcement rules then reach the first
  only (`StagePaths.ReachesOwnIffFirst`, `StagePaths.RepeatedIdentifier`).
- A report of the bucket's statistics is exact if and only if everything stored is older than the window, or the
  ring buffer has not wrapped and its newest entry is inside the window (`BucketStatistics.CollectionExactIff`).
  Otherwise it misses entries or reads slot -1; exactly when it reads before the array is
  `BucketStatistics.ReadableIffSafe`, and one entry as old as the window is long is enough
  (`BucketStatistics.EdgeReadsBeforeArray`).
- An interruption makes a timed-out wait of the threaded bucket take its tokens unseen. Over every run the level
  stays in [0, capacity] if and only if no such wait takes more than there is
  (`ThreadedBucket.InRangeIffCovered`), so always until the bucket is interrupted
  (`ThreadedBucket.CoveredUntilInterrupted`); from every starting level some run takes it below zero
  (`ThreadedBucket.OverdrawReachable`).
- An object whose token is 2^32 - 1 serves requests but cannot be reached by an enforcement rule
  (`StagePaths.ControlMeetsData`). With both object classifiers hashed, operation type 58894 with context 11005
  is such an object (`NotFoundStages.PathsPartByDefault`); with operation type and context hashed for channels,
  the same pair is a channel in which no object can be created (`NotFoundStages.NotFoundChannelBlocks`). With
  no classifier hashed, as by default for objects, and with a single one whose value is below ten thousand, the
  case does not arise (`NotFoundToken.NoDiffFound`, `NotFoundToken.SmallValuesFound`).
- Printing and re-reading rules is the identity if and only if the text has no NUL
  (`RulesParser.PrintReadRoundTrip`).
- The left-to-employ counter of the rule table can be negative for a moment (`TableCounters.LeftCanGoNegative`),
  and is wrong for good once a copy of an enforced rule is inserted (`TableCounters.CountersWhenQuiet`).

## Model

| member | source | states |
|---|---|---|
| MurmurWords.Fmix32Bijection | src/utils/murmurhash.cpp:44-53 | the 32-bit finalization mix has an inverse on both sides: it is a bijection on words |
| MurmurWords.Fmix64Bijection | src/utils/murmurhash.cpp:55-64 | the 64-bit finalization mix is a bijection on words |
| MurmurWords.Rotl32Undone | src/utils/murmurhash.cpp:12-15 | every rotation by 0 < r < 32 is undone by the rotation by 32 - r |
| MurmurWords.Rotl64Undone | src/utils/murmurhash.cpp:17-20 | every rotation by 0 < r < 64 is undone by the rotation by 64 - r |
| Messages.Gather32IsTailWord | src/utils/murmurhash.cpp:98-106 | the fall-through switch that xors shifted tail bytes together yields the zero-padded little-endian word |
| Messages.Gather64IsTailWord | src/utils/murmurhash.cpp:330-365 | the same for the eight-byte tail words |
| BlockFold.FoldSeparates | src/utils/murmurhash.cpp:79-89 | a hash body whose step is one-to-one in state and block separates block lists that differ in exactly one place, at any length |
| BlockFold.FoldReaches | src/utils/murmurhash.cpp:79-89 | with a reversible step, choosing one block suitably takes the body to any state at all |
| MurmurX86_32.AbsorbBlocks | src/utils/murmurhash.cpp:77-89 | the loop with a negative index from a pointer past the last block is the left fold over the blocks in order |
| MurmurX86_32.X86_32 | src/utils/murmurhash.cpp:67-121 | the step-by-step hash computes fold, tail mix and finalization as specified |
| MurmurX86_32.MixIsReversible | src/utils/murmurhash.cpp:80-88 | multiply, rotate, xor, times five plus a constant: the block step is a bijection in the state for every block, and in the block for every state |
| MurmurX86_32.NoCollision | src/utils/murmurhash.cpp:67-121 | messages of one length that differ inside exactly one aligned 4-byte block, or only in the tail, never have the same hash |
| MurmurX86_32.BlockReachesEveryToken | src/utils/murmurhash.cpp:67-121 | whatever the rest of a message is, one block ranges over all tokens |
| MurmurX86_128.X86_128 | src/utils/murmurhash.cpp:124-280 | the four-lane hash computes fold, tail mix and finalization as specified |
| MurmurX86_128.AbsorbTail | src/utils/murmurhash.cpp:190-248 | the fall-through tail switch mixes each padded tail word into its lane, and only the lanes the tail reaches |
| MurmurX86_128.MixIsReversible | src/utils/murmurhash.cpp:145-186 | the block step permutes the whole 128-bit state for every block and is a bijection from blocks to states for every state |
| MurmurX86_128.FinishBijection | src/utils/murmurhash.cpp:250-275 | xor with the size, cross sums and mixes permute the 128-bit state |
| MurmurX86_128.NoCollision | src/utils/murmurhash.cpp:124-280 | messages of one length that differ inside one aligned 16-byte block, or only in the tail, have different 128-bit hashes |
| MurmurX64_128.X64_128 | src/utils/murmurhash.cpp:283-389 | the two-lane hash computes fold, tail mix and finalization as specified |
| MurmurX64_128.AbsorbTail | src/utils/murmurhash.cpp:323-371 | the fall-through tail switch mixes each padded tail word into its lane, and only the lanes the tail reaches |
| MurmurX64_128.MixIsReversible | src/utils/murmurhash.cpp:299-321 | the block step permutes the whole 128-bit state for every block and is a bijection from blocks to states for every state |
| MurmurX64_128.TailMixSeparates | src/utils/murmurhash.cpp:323-371 | after equal-length tails the states are equal only if both states and tails were, or neither |
| MurmurX64_128.FinishBijection | src/utils/murmurhash.cpp:373-385 | xor with the size, cross sums and mixes permute the 128-bit state |
| MurmurX64_128.NoCollision | src/utils/murmurhash.cpp:283-389 | messages of one length that differ inside one aligned 16-byte block, or only in the tail, have different 128-bit hashes |
| HashExamples.HashOfMessageA | src/utils/murmurhash.cpp:124-280 | the bytes 1 to 31 have the four words 35ace798, 7132e8a5, 3527755c, 34e6e079 (hexadecimal), through every constant, rotation and seed |
| HashExamples.HashOfMessageB | src/utils/murmurhash.cpp:283-389 | the bytes 1 to 31 have the two words c74745fb49087ded, d40e74db473eacb0 (hexadecimal), through every constant, rotation and seed |
| Differentiation.DecimalRoundTrip | include/paio/differentiation/channel_hashing_differentiation.hpp:78-101 | the decimal text of a classifier reads back as the classifier |
| Differentiation.JoinUnambiguous | include/paio/differentiation/channel_hashing_differentiation.hpp:78-146 | the first field of a joined text can be read off, since digits contain no bar |
| Differentiation.TextOfSelection | include/paio/differentiation/channel_hashing_differentiation.hpp:78-342 | the eight builders write one thing: the selected classifiers in the order workflow, operation type, operation context, in decimal with bars between, or "no_diff" for none |
| Differentiation.TextExample | include/paio/differentiation/channel_hashing_differentiation.hpp:78-101 | (7, 42, 130) with all classifiers, byte for byte: the three numbers in order with a bar between two |
| Differentiation.TextUnambiguous | include/paio/differentiation/channel_hashing_differentiation.hpp:78-342 | for every classifier setting, two tuples give the same message if and only if they agree on the selected classifiers |
| Differentiation.ObjectTextUnambiguous | include/paio/differentiation/enforcement_object_hashing_differentiation.hpp:71-224 | the same for the classifiers of enforcement objects |
| Differentiation.TokensApart | include/paio/differentiation/channel_hashing_differentiation.hpp:78-244 | tuples whose texts differ within one aligned group of four characters or only in the last incomplete one never share a token |
| Differentiation.SmallValuesApart | include/paio/differentiation/channel_hashing_differentiation.hpp:148-228 | with one classifier selected, different values with the same number of digits, at most four, never share a token |
| Differentiation.ChannelHashing.BindBuilder | include/paio/differentiation/channel_hashing_differentiation.hpp:246-411 | binding follows the flags as they are now; setting them later does not rebind |
| Differentiation.ChannelHashing.BuildDifferentiationToken | include/paio/differentiation/channel_hashing_differentiation.hpp:431-457 | a bound builder yields the hash of its own text of the tuple; an unbound one yields none |
| Differentiation.ObjectHashing.BuildDifferentiationToken | include/paio/differentiation/enforcement_object_hashing_differentiation.hpp:267-290 | the same for enforcement objects |
| NotFoundToken.TwoClassifiersClash | src/utils/murmurhash.cpp:67-121 | with operation type and context hashed, the pair (58894, 11005) has the token 2^32 - 1 |
| NotFoundToken.SmallValuesFound | include/paio/differentiation/channel_hashing_differentiation.hpp:148-228 | with one classifier hashed, no value below ten thousand has that token |
| NotFoundToken.NoDiffFound | include/paio/differentiation/enforcement_object_hashing_differentiation.hpp:127-141 | with no classifier hashed, the one token there is differs from it |
| BucketTrace.RefillsApart | src/enforcement/objects/drl/token_bucket.cpp:211-235 | refills are at least a period apart, so r of them span r - 1 periods |
| BucketTrace.GrantsCovered | src/enforcement/objects/drl/token_bucket.cpp:61-125 | over every legal history, what was granted in a window plus the level is covered by one capacity, one for every refill and one for every configuration that raises the level |
| BucketTrace.RateBound | src/enforcement/objects/drl/token_bucket.cpp:61-125 | over every run a window of length W lets through at most capacity * (floor(W / period) + 2 + raising configurations) |
| BucketTrace.BoundReached | src/enforcement/objects/drl/token_bucket.cpp:61-125 | the bound is tight: for every capacity, period and window some history reaches it |
| TokenBuckets.TokenBucket.TryRefill | src/enforcement/objects/drl/token_bucket.cpp:61-71 | fills the bucket exactly when the period has elapsed and sets the next one; otherwise changes nothing |
| TokenBuckets.TokenBucket.ConsumeOperation | src/enforcement/objects/drl/token_bucket.cpp:74-100 | ends once time passes, takes exactly n, refilling once if and only if the level was too low |
| TokenBuckets.TokenBucket.TryConsume | src/enforcement/objects/drl/token_bucket.cpp:103-125 | takes exactly n in ceil(n / capacity) chunks within (0, capacity], with that many refills or one fewer if the first chunk fits the level, and leaves the level that is left over |
| TokenBuckets.ChunksUnique | src/enforcement/objects/drl/token_bucket.cpp:103-125 | the number of chunks is the only k with capacity * (k - 1) < n <= capacity * k |
| TokenBuckets.TokenBucket.RateBounded | src/enforcement/objects/drl/token_bucket.cpp:61-125 | every state of the class carries a history that obeys the window bound, the plain one when no configuration raised the level |
| RateLimiter.RateRoundTrip | src/enforcement/objects/drl/enforcement_object_drl.cpp:201-205 | an integer rate turned into a capacity and back is the same rate |
| RateLimiter.RateSurvives | src/enforcement/objects/drl/enforcement_object_drl.cpp:90-205 | over any run of configurations, each refill going through the stored capacity and back, the rate read back is the last one set, and a million times the capacity is that rate times the period |
| RateLimiter.DynamicRateLimiter.ObjEnforce | src/enforcement/objects/drl/enforcement_object_drl.cpp:69-87 | takes the payload of the ticket out of the bucket, no more and no less; the answer is success with the result's number, content flagged if and only if the ticket has some, and then its size and bytes |
| RateLimiter.DynamicRateLimiter.ObjConfigure | src/enforcement/objects/drl/enforcement_object_drl.cpp:90-122 | codes 1 and 2 set the rate, code 4 keeps it exactly, other codes change nothing and are not supported; a million times the capacity is rate * period, and 0 <= tokens <= capacity always |
| RateLimiter.DynamicRateLimiter.Initialize | src/enforcement/objects/drl/enforcement_object_drl.cpp:141-165 | sets rate and period and starts with a full bucket of rate * period / 1000000 tokens |
| RateLimiter.DynamicRateLimiter.ConfigureRate | src/enforcement/objects/drl/enforcement_object_drl.cpp:168-182 | sets the rate, the capacity to rate * period / 1000000, and caps the level there |
| RateLimiter.DynamicRateLimiter.ConfigureRefillWindow | src/enforcement/objects/drl/enforcement_object_drl.cpp:185-198 | changes the period, keeps the rate through capacity and back, and fills the bucket with rate * period / 1000000 tokens |
| ThreadedBucket.StepAccounted | src/enforcement/objects/drl/token_bucket_threaded.cpp:69-137 | every step keeps the books: a request has taken what it no longer has left |
| ThreadedBucket.StepInRange | src/enforcement/objects/drl/token_bucket_threaded.cpp:69-137 | every step, unless a broken wait takes more than there is, keeps the level in [0, capacity] and the history one that the lazy bucket allows |
| ThreadedBucket.LevelAndGrants | src/enforcement/objects/drl/token_bucket_threaded.cpp:69-137 | in every interleaving whose broken waits find enough tokens the level is in [0, capacity] and the grants are at most the initial level + capacity * completed sleeps |
| ThreadedBucket.SameRateBound | src/enforcement/objects/drl/token_bucket_threaded.cpp:69-137 | in the same interleavings the threaded bucket meets the window bound of the lazy one |
| ThreadedBucket.FinishedTookAll | src/enforcement/objects/drl/token_bucket_threaded.cpp:88-137 | in every interleaving, interrupted or not, a request that returned took exactly what it asked for |
| ThreadedBucket.InRangeIffCovered | src/enforcement/objects/drl/token_bucket_threaded.cpp:88-112 | over every run the level stays in [0, capacity] if and only if no wait broken by an interruption takes more than there is |
| ThreadedBucket.CoveredUntilInterrupted | src/enforcement/objects/drl/token_bucket_threaded.cpp:105-111 | in a run without an interruption no wait is broken, so the level stays in range |
| ThreadedBucket.OverdrawReachable | src/enforcement/objects/drl/token_bucket_threaded.cpp:88-112 | from every starting level some run takes the bucket below zero: the refill thread exits after an interruption and a wait times out |
| ThreadedBucket.TokenBucketThreaded.ConsumeOperation | src/enforcement/objects/drl/token_bucket_threaded.cpp:88-112 | a consumer takes its tokens at the first wake-up that has enough, or at the first that timed out after an interruption, and nothing before |
| ThreadedBucket.TokenBucketThreaded.TryConsume | src/enforcement/objects/drl/token_bucket_threaded.cpp:115-137 | asks for the same chunks, one after another, as a request of the step system; a finished one took exactly n tokens in ceil(n / capacity) chunks |
| Requests.PayloadMeans | src/enforcement/channel_default.cpp:77-105 | the payload of a ticket is size times operations, a request without size and content counting one an operation, as long as that fits a signed 64-bit value; otherwise it is congruent to it modulo 2^64 |
| Requests.TicketKeeps | src/enforcement/channel_default.cpp:77-105 | operations, type, context and content of a ticket are the caller's own |
| Requests.CopyMeans | src/enforcement/result.cpp:45-98 | a copied result keeps everything when its content is flagged, and all but the content otherwise |
| EnforcementObjects.Find | src/enforcement/submission_queue.cpp:169-177 | the first object with the token, or none |
| EnforcementObjects.EnforceWellBehaved | src/enforcement/submission_queue.cpp:110-132 | a fresh result comes back with its own ticket number and in a shape that copying keeps |
| QueueProtocol.StepInv | src/enforcement/submission_queue.cpp:48-97 | every step of clients, workers and control plane keeps the invariant of the queues, the objects and the histories |
| QueueProtocol.RunInv | src/enforcement/submission_queue.cpp:48-97 | so does every run, while no call is overtaken by 2^64 others (ticket numbers wrap) |
| QueueProtocol.LinearizesToFastPath | src/enforcement/submission_queue.cpp:48-97 | for any clients, workers and interleaving, objects and results equal those of the fast path called in submission order, deliveries are the front of those results, and the tickets replayed are those the calls built |
| QueueProtocol.SubmissionsConserved | src/enforcement/submission_queue.cpp:48-97 | submitted = delivered ++ completion queue ++ at most one in flight ++ submission queue, in order |
| QueueProtocol.ReturnedOwnResult | src/enforcement/channel_default.cpp:108-133 | every call that returned holds the result made from its own ticket, delivered once and to no other call |
| QueueProtocol.TicketOfBuild | src/enforcement/channel_default.cpp:108-133 | over every run a call's ticket is the one its own build step made of its request and content |
| QueueProtocol.NoDanglingPointer | src/enforcement/channel_default.cpp:108-133 | every ticket pointer that is queued or being enforced belongs to a call that is still inside |
| QueueProtocol.RealTimeOrder | src/enforcement/submission_queue.cpp:48-97 | a call that returned before another began precedes it in the order that the results follow |
| QueueProtocol.FrontIsOwn | src/enforcement/completion_queue.cpp:51-66 | the number at the front of the completion queue is the holder's if and only if the holder is next in submission order |
| QueueProtocol.StuckForever | src/enforcement/completion_queue.cpp:45-66 | while the lock holder sees a foreign front, no step of anyone delivers or completes anything |
| QueueProtocol.GetsThroughIffNext | src/enforcement/completion_queue.cpp:45-66 | over a nonempty queue the lock holder gets through if and only if it is next in submission order, and is stuck otherwise |
| QueueProtocol.TwoCallsCanGetStuck | src/enforcement/completion_queue.cpp:45-66 | a run of two calls and one worker that gets stuck, for every object machine |
| QueueProtocol.OneAtATimeNeverStuck | src/enforcement/completion_queue.cpp:45-66 | a run with at most one call inside at any time is never stuck, however many calls it makes |
| QueueingChannels.QueueingHandsInOrder | src/enforcement/submission_queue.cpp:69-132 | in queueing mode each object of a channel receives exactly the requests and configurations for its token, in the order served, which is submission order: from the start, or from its creation if a rule created it on the way |
| QueueingChannels.TicketHasTargetToken | src/enforcement/channel_default.cpp:77-105 | the object a ticket selects is the one that the stage's data path finds for its request |
| QueueingChannels.ReturnedAnswer | src/enforcement/channel_default.cpp:108-133 | every call that returned from queueing mode was answered with success, its ticket's number, and exactly the content it was made with, flagged if and only if there is some |
| QueueingChannels.ServedPayload | src/enforcement/channel_default.cpp:77-105 | and what was charged for it is its own size times its operations |
| SubmissionQueues.CompletionQueue.Enqueue | src/enforcement/completion_queue.cpp:30-42 | one result is appended, with the number, status and flagged content of the one given |
| SubmissionQueues.FirstNonEmptyMeans | src/enforcement/completion_queue.cpp:51-56 | a waiting client goes on with the first nonempty queue it finds |
| SubmissionQueues.AwaitTicketMeans | src/enforcement/submission_queue.cpp:69-85 | a waiting worker ends at the first wake-up that timed out after a stop, even with a ticket there, or that found a ticket |
| SubmissionQueues.AwaitTicketGoesOn | src/enforcement/submission_queue.cpp:69-85 | it does not end at any other |
| SubmissionQueues.CompletionQueue.Dequeue | src/enforcement/completion_queue.cpp:45-66 | from the first nonempty queue it finds, takes exactly the front if it is its own; otherwise takes nothing |
| SubmissionQueues.SubmissionQueue.Dequeue | src/enforcement/submission_queue.cpp:69-97 | serves exactly the front ticket into the completion queue; gives up on a timeout after a stop, even if a ticket has just arrived |
| SubmissionQueues.SubmissionQueue.Work | src/enforcement/submission_queue.cpp:141-159 | a worker serves tickets in order with the objects and results of the fast path, and stops when told to or when the queue is empty |
| SubmissionQueues.SubmissionQueue.SelectEnforcementObject | src/enforcement/submission_queue.cpp:169-177 | the linear search finds the first object with the token |
| SubmissionQueues.SubmissionQueue.EnforceMechanism | src/enforcement/submission_queue.cpp:110-132 | only the selected object acts; without a match the request passes and is counted |
| SubmissionQueues.SubmissionQueue.CreateEnforcementObject | src/enforcement/submission_queue.cpp:180-207 | appends an object, unless its token is taken; then changes nothing |
| SubmissionQueues.SubmissionQueue.ConfigureEnforcementObject | src/enforcement/submission_queue.cpp:210-225 | configures exactly the object with the token, or fails without effect |
| HousekeepingTables.GetPropertiesAtRange | src/rules/housekeeping_rule.cpp:83-105 | appends exactly the slice between two indexes and counts it, or returns -1 and appends nothing |
| HousekeepingTables.InsertCounts | src/rules/housekeeping_table.cpp:20-56 | a new rule adds one to the table and one to either the pending or the enforced rules |
| HousekeepingTables.HousekeepingTable.InsertHousekeepingRule | src/rules/housekeeping_table.cpp:20-56 | a taken identifier is refused without effect; counters stay exact |
| HousekeepingTables.HousekeepingTable.SelectHousekeepingRule | src/rules/housekeeping_table.cpp:94-114 | the rule with the identifier, or not found |
| HousekeepingTables.HousekeepingTable.MarkHousekeepingRuleAsEnforced | src/rules/housekeeping_table.cpp:147-170 | marks a pending rule; an enforced or missing one is refused without effect; counters stay exact |
| HousekeepingTables.HousekeepingTable.RemoveHousekeepingRule | src/rules/housekeeping_table.cpp:173-197 | removes exactly the rule asked for, or reports a missing one without effect; counters stay exact |
| TableCounters.StepsAreCalls | src/rules/housekeeping_table.cpp:20-197 | without interleaving, the steps of an insertion, a marking and a removal change table and counters as the calls do |
| TableCounters.RunAccounted | src/rules/housekeeping_table.cpp:20-91 | under any interleaving: table size = rule counter + inserters before their first increment; pending rules + rules inserted as enforced = left counter + inserters before their second |
| TableCounters.CountersWhenQuiet | src/rules/housekeeping_table.cpp:20-91 | with no insertion halfway the rule counter is exact, and the left counter is exact if and only if no enforced copy was inserted |
| TableCounters.CountersLag | src/rules/housekeeping_table.cpp:20-91 | the counters trail the truth by at most the inserters on their way |
| TableCounters.LeftCanGoNegative | src/rules/housekeeping_table.cpp:147-160 | marking a rule before its inserter counts it makes the left counter negative |
| Stages.CreateInChannelMeans | src/enforcement/channel_default.cpp:152-198 | creating an object is all or nothing: type 1 is a rate limiter, initialised when there are configurations, type 0 a no-op, both modulo 2^32; with a free token that object and its linker are added; a taken token fails, another type is not supported, and nothing changes |
| Stages.AllOrNothing | src/core/core.cpp:370-457 | a pending create rule succeeds if and only if what it asks for can be created; then exactly that is added and the rule marked; otherwise nothing changes |
| Stages.ChannelRuleMeans | src/core/core.cpp:370-402 | a pending channel rule reads workflow, operation type and context from properties 1, 2 and 3, and adds one empty channel, or fails when identifier or token is taken |
| Stages.ObjectRuleMeans | src/core/core.cpp:404-441 | a pending object rule reads operation type, context and object type from properties 1, 2 and 3 and configurations from 4 on, and adds that one object, or fails or is not supported |
| Stages.OtherRulesMean | src/core/core.cpp:370-457 | a missing rule is not found, a done one reported as enforced, an unreachable channel fails, any other operation throws; nothing changes |
| Stages.EmployStatus | src/enforcement/objects/drl/enforcement_object_drl.cpp:90-116 | a no-op accepts every configuration, a rate limiter the codes 1, 2 and 4 |
| Stages.EmployMeans | src/core/core.cpp:490-524 | an enforcement rule configures the one object its identifiers reach and nothing else, or fails without effect |
| Stages.RequestMeans | src/core/core.cpp:308-329 | a request is handled by the one object its classifiers reach and nothing else; without a match it passes, without a channel nothing happens |
| Stages.StageAnswers | src/core/core.cpp:308-329 | the answer to a request is success, the ticket's number and exactly its content, whichever object acts; without a channel the caller's result stays as it was |
| Stages.RequestClassified | src/core/core.cpp:308-318 | workflow, operation type and context reach the hash each in its own place, as unsigned 32-bit values |
| Stages.PassIsRun | src/core/core.cpp:460-481 | a pass over the table is a sequence of single executions |
| StageRuns.StepConsistent | src/core/core.cpp:137-198 | every step keeps linkers and channels in bijection and each channel's object linkers parallel to its objects, with distinct tokens |
| StageRuns.RunGrows | src/core/core.cpp:137-198 | over every run nothing that exists goes away or moves, and enforced rules stay enforced |
| StageRuns.RunInv | src/core/core.cpp:370-457 | over every run the indexes agree, every enforced rule is in effect, and channels plus objects not built by the constructor number exactly the enforced rules |
| StageRuns.StartInv | src/core/core.cpp:22-72 | a consistent stage without rules starts such a run |
| StagePaths.NeverRerouted | src/core/core.cpp:201-275 | the object that identifiers or classifiers reach is the same after every run |
| StagePaths.ReachesOwnIffFirst | src/enforcement/channel_default.cpp:340-356 | a linker's identifier reaches the object beside it if and only if the linker is the first with that identifier and its token is not the not-found value |
| StagePaths.RepeatedIdentifier | src/enforcement/channel_default.cpp:152-198 | two rules may give one identifier to two objects; requests for the second reach it, its identifier reaches the first |
| StagePaths.ControlMeetsData | src/core/core.cpp:308-329 | for two enforced rules, every request that matches their classifiers reaches an object; their identifiers reach the same one if and only if the object's linker is the first with its identifier and its token is not the not-found value |
| StagePaths.ControlMeetsDataForEver | src/core/core.cpp:490-524 | the same in every reachable stage, and still after any further run |
| StagePaths.AgreeingMatches | include/paio/differentiation/channel_hashing_differentiation.hpp:246-342 | with hashing it is enough that request and rules agree on the selected classifiers |
| StagePaths.ConfiguresWhatServes | src/core/core.cpp:490-524 | an enforcement rule followed by a matching request leaves these two calls, in order, in one object's past, and every other object as it was |
| HousekeepingPasses.PassOfOne | src/core/core.cpp:460-481 | a pass over one identifier executes its rule if it is pending, and nothing otherwise |
| HousekeepingPasses.PassComposes | src/core/core.cpp:460-481 | a pass over two lists is one over the first and, unless that stops, one over the second |
| HousekeepingPasses.PassIgnoresLast | src/core/core.cpp:460-481 | the status a pass starts from counts only when nothing is pending |
| HousekeepingPasses.PassApplies | src/core/core.cpp:460-481 | after a pass that did not stop, every rule it covered is enforced or has an unsupported object type |
| HousekeepingPasses.NothingLeft | src/core/core.cpp:460-481 | for any order of iteration, a pass that returns OK over supported object types leaves nothing pending |
| HousekeepingPasses.RerunDoesNothing | src/core/core.cpp:460-481 | with nothing pending a pass changes nothing and returns an error |
| HousekeepingPasses.PassAddsWhatItEnforces | src/core/core.cpp:460-481 | a pass adds exactly one channel or object for every rule it enforces, so no rule is applied twice |
| HousekeepingPasses.RunBlocking | src/core/core.cpp:370-457 | a barred pending rule stays pending and barred over every run |
| HousekeepingPasses.BlockedForEver | src/core/core.cpp:460-481 | one barred rule makes every later pass fail, in any order of iteration |
| HousekeepingPasses.StopsForEverIffBarred | src/core/core.cpp:370-481 | a pending rule stops the pass that comes to it after every run if and only if it is barred |
| HousekeepingPasses.CarriedOutIffNotBarred | src/core/core.cpp:370-457 | some run carries a pending rule out if and only if it is not barred and its type is supported |
| NotFoundStages.PathsPart | src/core/core.cpp:490-524 | with both object classifiers hashed, and channel classifiers that do not reach the not-found token, two create rules lead to an object that requests reach and for which every enforcement rule fails |
| NotFoundStages.PathsPartByDefault | src/core/core.cpp:490-524 | the channel classifiers in use by default are such |
| NotFoundStages.NotFoundChannelBlocks | src/core/core.cpp:218-259 | with operation type and context hashed for channels, a run leaves an object rule that blocks every later pass |
| DefaultStages.DefaultsConsistent | src/core/core.cpp:22-72 | the constructor's stage is consistent and links default channels only |
| DefaultStages.DefaultObjects | src/core/core.cpp:22-72 | every default channel holds exactly one no-op object with identifier 0, if asked for and its channel's token is not the not-found value; otherwise none |
| DefaultStages.AllBuiltIffDistinct | src/core/core.cpp:22-72 | all default channels are built if and only if their tokens are distinct |
| DefaultStages.OneDefaultChannel | src/core/core.cpp:22-72 | when the workflow classifier is not hashed, only one default channel is built, however many are asked for |
| DefaultStages.NineDefaultChannels | src/core/core.cpp:22-72 | when the workflow classifier is hashed, alone or with others, up to nine default channels are all built |
| DataPlane.GetDiffToken | src/core/core.cpp:201-215 | the token of the first linker with the identifier, or 2^32 - 1 |
| DataPlane.ChannelDefault.BuildTicket | src/enforcement/channel_default.cpp:77-105 | the next number modulo 2^64, the caller's own fields, and size times operations as the payload when that fits |
| DataPlane.ChannelDefault.ChannelEnforce | src/enforcement/channel_default.cpp:108-143 | builds the next ticket and answers with success, its number and exactly the request's content; the channel changes as specified |
| DataPlane.ChannelDefault.CreateEnforcementObject | src/enforcement/channel_default.cpp:152-198 | changes the channel exactly as the specified creation does |
| DataPlane.ChannelDefault.ConfigureEnforcementObject | src/enforcement/channel_default.cpp:201-219 | changes the channel exactly as the specified configuration does |
| DataPlane.Core.CreateChannel | src/core/core.cpp:137-183 | adds a channel and its linker, or changes nothing when identifier or token is taken; other channels are untouched |
| DataPlane.Core.CreateEnforcementObject | src/core/core.cpp:218-259 | changes only the channel addressed, as specified |
| DataPlane.Core.EnforceRequest | src/core/core.cpp:308-329 | answers with success and exactly the request's content when a channel has its token, otherwise leaves the caller's result; changes only the channel selected, as specified |
| DataPlane.Core.EmployEnforcementRule | src/core/core.cpp:490-524 | changes only the channel addressed, as specified |
| DataPlane.Core.ExecuteHousekeepingRule | src/core/core.cpp:370-457 | whole stage and outcome are those of the specified execution of one rule |
| DataPlane.Core.ExecuteHousekeepingRules | src/core/core.cpp:460-481 | whole stage and outcome are those of the specified pass |
| DataPlane.Core.constructor | src/core/core.cpp:22-72 | builds the specified default stage |
| BucketStatistics.StoreHolds | src/enforcement/objects/drl/token_bucket_statistics.cpp:61-73 | a store keeps the last hundred entries in the slots of their numbers |
| BucketStatistics.SlotHoldsLatest | src/enforcement/objects/drl/token_bucket_statistics.cpp:61-73 | slot j holds the latest store whose number is j modulo the size |
| BucketStatistics.WrappedReport | src/enforcement/objects/drl/token_bucket_statistics.cpp:95-230 | what a wrapped buffer reports and the number it gives: the entries from the first fresh one since slot 0 was filled up to, but without, the newest; nothing when that first one is in slot 0 |
| BucketStatistics.ExactUntilWrapped | src/enforcement/objects/drl/token_bucket_statistics.cpp:76-188 | until the buffer wraps, cleaning and collecting gives exactly the entries inside the window, in order, and reports how many were not |
| BucketStatistics.WrappedMisses | src/enforcement/objects/drl/token_bucket_statistics.cpp:95-230 | once wrapped, a collection misses entries inside the window or would read before the array |
| BucketStatistics.CollectionExactIff | src/enforcement/objects/drl/token_bucket_statistics.cpp:76-230 | for every content in time order, a collection stays inside the array and gives exactly what is inside the window if and only if everything is outdated, or the buffer has not wrapped and its newest entry is inside |
| BucketStatistics.ReadableIffSafe | src/enforcement/objects/drl/token_bucket_statistics.cpp:83-119 | when a collection after cleaning reads before the array, as a condition on what is stored |
| BucketStatistics.EdgeReadsBeforeArray | src/enforcement/objects/drl/token_bucket_statistics.cpp:166-185 | an entry stamped 10, cleaned at 15 with window 5, makes the collection start at slot -1 |
| BucketStatistics.TBStats.StoreStatsEntry | src/enforcement/objects/drl/token_bucket_statistics.cpp:61-73 | extends the stores since the last reset by one entry |
| BucketStatistics.TBStats.GarbageCollection | src/enforcement/objects/drl/token_bucket_statistics.cpp:149-241 | new state and reported number are those specified, in every branch |
| BucketStatistics.TBStats.CollectStats | src/enforcement/objects/drl/token_bucket_statistics.cpp:76-140 | copies out what is specified and resets |
| BucketStatistics.TBStats.TryCollect | src/enforcement/objects/drl/token_bucket.cpp:128-135 | a report empties the buffer and is exactly what is inside the window if and only if everything is outdated, or the buffer has not wrapped and its newest entry is inside; in the latter case the reported number is that of the others |
| ChannelStatistics.CountersCount | src/statistics/channel_statistics.cpp:106-116 | over every run each counter is what its entry was given, in total and since the last collection, modulo 2^64 |
| ChannelStatistics.OverallIsAllGiven | src/statistics/channel_statistics.cpp:294-314 | while no counter has wrapped, the overall counter metric is everything that was given |
| ChannelStatistics.TotalsConserved | src/statistics/channel_statistics.cpp:106-143 | each total is the sum of its windows at every collection and the open window, modulo 2^64 |
| ChannelStatistics.ReportsAddUp | src/statistics/channel_statistics.cpp:294-337 | under the counter metric the reported windows and the open one add up to the overall metric if and only if no entry's windows add up to 2^64 |
| ChannelStatistics.Statistics.UpdateStatisticEntry | src/statistics/channel_statistics.cpp:89-116 | the classifier in force picks the entry, modulo the number of entries, and both its counters grow by the value |
| ChannelStatistics.MeasuredInNumbers | src/statistics/channel_statistics.cpp:294-358 | a throughput times the microseconds is a million times the amount; a counter is the amount itself |
| ChannelStatistics.Statistics.ReportsSoFar | src/statistics/channel_statistics.cpp:119-143 | what was reported so far and the open window add up to the overall counter metric unless an entry's windows reach 2^64, and the next collection reports the open window |
| ChannelStatistics.Statistics.CollectAggregate | src/statistics/channel_statistics.cpp:119-143 | reports the sums of all totals and of the window, as amounts or per second of their own time, and starts a new window |
| ChannelStatistics.Statistics.CollectDetailed | src/statistics/channel_statistics.cpp:171-195 | reports every entry of the window, as an amount or per second, and starts a new one |
| ChannelStatistics.Statistics.Accumulate | src/statistics/channel_statistics.cpp:294-300 | the sum of all counters |
| ChannelStatistics.Statistics.ResetWindowedCounters | src/statistics/channel_statistics.cpp:411-417 | every windowed counter is zero |
| RulesParser.WordsAreTokens | src/utils/rules_parser.cpp:62-71 | tokens are nonempty, free of spaces and made of characters of the line |
| RulesParser.WordsKeepText | src/utils/rules_parser.cpp:62-71 | tokens run together are the line without its spaces: nothing is lost or reordered |
| RulesParser.ReadExample | src/utils/rules_parser.cpp:62-105 | a text of three lines, one empty, read character for character |
| RulesParser.PrintExample | src/utils/rules_parser.cpp:720-728 | printed tokens end in a space, rules in a newline, and a NUL ends a token |
| RulesParser.SurvivorsIffNulFree | src/utils/rules_parser.cpp:720-728 | printing keeps every token of a rule if and only if none holds a NUL |
| RulesParser.ReadBack | src/utils/rules_parser.cpp:720-728 | reading back what was printed gives every rule cut at its NULs, empty rules included |
| RulesParser.PrintReadRoundTrip | src/utils/rules_parser.cpp:62-105 | for rules read from any text, printing and reading again gives the same rules if and only if the text has no NUL |
| RulesParser.RulesParser.ParseRule | src/utils/rules_parser.cpp:62-71 | the search loop, positions at the end of the string included, appends exactly the tokens of the line |
| RulesParser.RulesParser.ReadRules | src/utils/rules_parser.cpp:74-105 | stages one rule for every line and counts them; stages none when the file cannot be opened |
| RulesParser.RulesParser.EraseRules | src/utils/rules_parser.cpp:707-717 | leaves no rule and counts those removed |
| RulesParser.RulesParser.PrintRules | src/utils/rules_parser.cpp:720-728 | writes every token followed by a space and every rule followed by a newline |

## Left out

- Sockets, handshake, southbound handlers, connection manager and the instance layers: network and library calls with little state.
- Logging, `to_string`, stage information and benchmarking: formatting and environment access.
- Floating-point rounding: tokens, rates and metrics are exact reals.
- Message reads depend on a little-endian machine, and words are read at any alignment; the model takes both as given.
- Writing a 128-bit hash into a 32-bit token: the 128-bit variants are hash functions only, and tokens come from the 32-bit one.
- Progress of many clients in queueing mode: only safety is stated, together with exactly when a call gets stuck.
- Shutdown: joining workers with requests still queued, and the destructors.
- Changing classifiers while a stage runs: a classification is fixed for a run. The bind-then-build behaviour of the differentiation classes is modelled.
- Raw buffers of tickets and results: content is a sequence of bytes.
- Negative payloads, rates and operation codes, refill periods that are not positive, and taking tokens from a bucket of capacity zero: excluded by precondition, since the source indexes, divides or loops for ever on them or raises the level above the capacity.
- Recording of statistics inside the token buckets, and the cost estimate that the rate limiter does not use.
- Configuration lists shorter than what the rate limiter indexes: undefined in the source. The stage records the call and returns the status of the configuration code.
- Removing rules from a running stage's table, and inserting a copy of an enforced rule through the core: both are modelled for the table alone.
- Calls of the stage are one at a time in `Stages` and `DataPlane`; interleavings are modelled for the queues, the threaded bucket and the table counters.
- `collect_single_entry`, `terminate` and `create_operation_entry` of the channel statistics: they only read or reset single values.
- The tables that turn names into enumeration values, and the building of rules from tokens.
- QueueProtocol.RunInv: assumes that no call is still inside while 2^64 later ones are issued, since ticket numbers wrap around then and two calls could share one.
- QueueProtocol.StepInv: makes the same assumption about the state it starts from.
- SubmissionQueues.SubmissionQueue.Work: no other thread acts during the loop and the number of turns is given; `QueueProtocol` covers the interleavings.
- DataPlane.ChannelDefault.ChannelEnforce: the fast path, without the update of the channel's statistics; `QueueingChannels` covers the queueing mode and `ChannelStatistics` the counters.
- TokenBuckets.TokenBucket.TryConsume: a request for more than nothing needs a positive capacity; with capacity zero the source loops for ever.
- RateLimiter.DynamicRateLimiter.ObjEnforce: payloads are not negative; a negative one would raise the level above the capacity.
- RateLimiter.DynamicRateLimiter.ObjConfigure: rates are not negative and periods positive; otherwise capacities are negative or the source divides by zero.
- RateLimiter.DynamicRateLimiter.Initialize: the same.
- RateLimiter.DynamicRateLimiter.ConfigureRate: rates are not negative.
- RateLimiter.DynamicRateLimiter.ConfigureRefillWindow: windows are positive.
- ChannelStatistics.Statistics.UpdateStatisticEntry: operation codes are not negative; a negative remainder would index before the array.
- StageRuns.RunInv: rules enter the table through the parameterized insertion, which never inserts an enforced rule.
- BucketStatistics.TBStats.TryCollect: excludes exactly the buffers from which the source would read before the array, and says nothing of exactness when the clock went back between stores.
- ThreadedBucket.TokenBucketThreaded.TryConsume: needs a positive capacity; with capacity zero the source loops for ever.
- NotFoundToken.SmallValuesFound: single classifiers of ten thousand and above are not settled.
- RulesParser.RulesParser.ParseRule: assumes a line shorter than the value that marks a failed search, as every string is.
