# Scheduler, load balancer and crypto helpers — a Dafny model

This project models three parts of a small Python code base and proves properties of them:

- **The scheduler** (`TaskScheduler` in cors_config.py), in `task_scheduler.dfy`:
  - A priority queue of `(priority, task)` tuples, a map of running tasks, and two bounded histories: `deque(maxlen=1000)` for completions and `deque(maxlen=500)` for permanent failures.
  - Submission with a delay, and one pass of a worker's loop. A pass takes the least entry, and either defers it, runs it, or retries it with a lowered priority. After the third failure a task is recorded as failed.
  - The scheduler is a class with those fields. Each of its methods is proved against a pure function of the old state: `Submit`, `Step`, `Attempt`. The lemmas state the scheduler's properties about those functions.
- **The load balancer** (`LoadBalancer` in url_fetcher.py), in `load_balancer.dfy`:
  - Five selection policies over the healthy servers: round robin, least connections, random, weighted random, IP hash.
  - The dispatch between the policies in `get_server`.
  - The bookkeeping of `handle_request`: request and error counters, a window of the last 100 latencies, and a request log of at most 10000 entries.
  - The statistics functions and `change_algorithm`.
  - The balancer is a class. `weighted_random`'s running-sum loop is a method with loop invariants.
- **Two helpers of `CryptoUtils`** (backup_scheduler.py), in `crypto_utils.dfy`:
  - `_pad_data`: the block padding of section 6.3 of RFC 5652 (PKCS #7), with Python's behaviour for every block size.
  - `merkle_tree_mock`: its two nested loops become the method `MerkleTree`. The method is proved against a level-by-level definition, `Levels`.

Shared pieces:

- `bounded.dfy`: `deque(maxlen=n).append` and the slice `xs[-n:]`.
- `numerals.dfy`: `str(n)` for integers.
- `wrappers.dfy`: `Option` and `Result`.

Inputs that the code reads from the environment become parameters:

- the clock, as an integer `now`;
- the draws of `random.choice` and `random.randint`, as natural numbers reduced modulo the length of the list or range they choose from;
- the draws of `random.uniform` (the weighted policy's draw and a request's latency), as integers;
- the draw `random.random() > 0.05`, as the boolean `success`;
- the outcome of a task body;
- Python's `hash` of a client address;
- SHA-256, as a function from text to text.

Details of the scheduler's code that the model keeps:

- A retried task goes back into the queue under the key it was first queued with. The key is not the lowered priority.
  - The lowered priority only breaks ties between equal keys, through `Task.__lt__`.
- `retries` is incremented before it is compared with `max_retries`, so a task that always fails runs three times, not four.
- A task that is not yet due is taken out of the queue and put back. While it orders strictly first, it stays first and holds back every other task (`DeferredEntryStaysFirst`).
- `scheduled_time or time.time()` replaces a scheduled time of exactly 0 by the clock.
- `max(1, p - 1)` raises a priority below 1 to 1. So "the priority never increases" holds only for priorities of at least 1.
- Nothing checks the priority or the delay passed to `add_task`.

## Model

| member | source | states |
|---|---|---|
| TaskScheduling.NewTask | cors_config.py:22-34 | `Task.__init__`: status pending, no retries, a limit of 3, created at the clock, and scheduled at the given time or the clock when that is 0 |
| TaskScheduling.ToRecord | cors_config.py:39-48 | `to_dict`: id, name, priority, scheduled time, status and retries, and the duration only when both clock stamps are set and nonzero |
| TaskScheduling.TaskLess | cors_config.py:36-37 | `Task.__lt__`: the lower priority first |
| TaskScheduling.EntryLess | cors_config.py:36-37 | Python's order on `(priority, task)` tuples: the key first, then `Task.__lt__` |
| TaskScheduling.Step | cors_config.py:76-121 | one pass of `worker_function`: nothing on an empty queue; otherwise the least entry is deferred when not yet due, else attempted |
| TaskScheduling.Attempt | cors_config.py:85-116 | one run of a due task: the completion record on success, the requeue with a lowered priority or the failure record on an exception |
| TaskScheduling.Start | cors_config.py:85-87 | a dequeued task is marked running, with the start time and the worker |
| TaskScheduling.Fail | cors_config.py:104-106 | a raising task is marked failed with the error message and one more retry |
| TaskScheduling.MinIndex | cors_config.py:78 | `get()` returns an entry that no other entry precedes in Python's tuple order (the key first, then `Task.__lt__` on the current priority); every entry before it in the queue is strictly greater |
| TaskScheduling.Submit | cors_config.py:50-58 | `add_task` increments the counter, returns `task_<counter>_<now>` and appends one pending entry keyed by `priority`: zero retries, a limit of 3, scheduled at `now + delay` (the clock if that is 0); the entries already queued and the histories are unchanged |
| TaskScheduling.SubmitPreservesInv | cors_config.py:50-58 | submitting keeps the scheduler invariant: bounded histories, queued tasks below their retry limit, ids unique and not running |
| TaskScheduling.Initial | cors_config.py:11-19 | the empty scheduler satisfies the invariant |
| TaskScheduling.DeferredStep | cors_config.py:78-83 | a least entry that is not yet due is put back at the end with the same contents; the multiset of queued entries and all other state are unchanged |
| TaskScheduling.DeferredEntryStaysFirst | cors_config.py:78-83 | a deferred entry that orders strictly before all others is again the one the next `get` returns |
| TaskScheduling.SucceededAttempt | cors_config.py:85-101 | a successful attempt removes the entry, appends one completion record to the 1000-bounded history (dropping the oldest when full): id, status completed, the result, the worker and the duration; failed, running and counter are unchanged |
| TaskScheduling.FailedAttempt | cors_config.py:103-116 | a failed attempt increments `retries`; below 3 it requeues it under its old key with status failed, the error message and priority `max(1, p - 1)`; at 3 it appends its record (status failed, 3 retries) to the 500-bounded failure history, keeping the earlier records and dropping only the oldest when full; the running map ends without that task |
| TaskScheduling.DecayedClosedForm | cors_config.py:106-110 | after `n` failures a task first queued with priority `p >= 1` has priority `max(1, p - n)`, between 1 and `p`; each failure never raises it above `max(1, previous)` |
| TaskScheduling.StepPreservesInv | cors_config.py:75-121 | every pass of the worker loop keeps the scheduler invariant |
| TaskScheduling.AlwaysFailingTaskRunsThreeTimes | cors_config.py:104-112 | a task that is the only one queued, due and not yet retried, and whose body always raises, is retried twice and then recorded as failed with 3 retries; the queue is then empty and no completion is recorded |
| TaskScheduling.TaskScheduler.constructor | cors_config.py:11-19 | the new scheduler is empty, with counter 0 and 3 workers |
| TaskScheduling.TaskScheduler.AddTask | cors_config.py:50-58 | the fields change exactly as `Submit` prescribes |
| TaskScheduling.TaskScheduler.WorkerStep | cors_config.py:75-121 | one pass of `worker_function` changes the fields exactly as `Step` prescribes and keeps the invariant |
| TaskScheduling.TaskScheduler.RunAttempt | cors_config.py:85-116 | the in-place updates of an attempt (task fields, `running_tasks` insert and delete, history appends, requeue) amount to `Attempt` |
| TaskScheduling.TaskScheduler.GetStats | cors_config.py:182-190 | the queue, completed, failed and running counts and the worker count; the histories stay within 1000 and 500 |
| Bounded.KeepLast | url_fetcher.py:137-138 | `xs[-n:]` when longer than `n`: the last `n` elements, else the whole list |
| Bounded.Append | cors_config.py:13-14 | `deque(maxlen=n).append(x)`, as the last `n` elements of the list with `x` added |
| Bounded.AppendContents | cors_config.py:13-14 | `deque(maxlen=n).append(x)`: grows by one below capacity, else stays at capacity by dropping the oldest; `x` is last |
| Bounded.AppendFullEvictsOldest | url_fetcher.py:18 | appending to a full deque drops exactly its oldest element |
| Numerals.NatDigits | url_fetcher.py:21 | the digits of a natural number, without a leading zero unless the number is 0, which read back in base 10 give that number |
| Numerals.Decimal | url_fetcher.py:21 | `str(n)` is nonempty and holds no `:`; it starts with `-` exactly for negative `n`, every other character is a digit, the first digit is 0 only for `n == 0`, and the digits read back in base 10 give `abs(n)` |
| Numerals.DecimalInjective | url_fetcher.py:21 | different integers have different decimal texts |
| LoadBalancing.ServerId | url_fetcher.py:21 | the id `f"{host}:{port}"` |
| LoadBalancing.ServerIdInjective | url_fetcher.py:21 | two servers get the same id exactly when host and port are the same |
| LoadBalancing.Truthy | url_fetcher.py:109 | `client_ip` is truthy: present and not the empty string |
| LoadBalancing.HealthyIndices | url_fetcher.py:50 | the healthy list holds only healthy servers, and is empty exactly when no server is healthy |
| LoadBalancing.HealthyIndicesComplete | url_fetcher.py:50 | every healthy server is in the healthy list |
| LoadBalancing.HealthyIndicesIncreasing | url_fetcher.py:50 | the healthy list keeps the order of the server list |
| LoadBalancing.LoadBalancer.RoundRobin | url_fetcher.py:48-55 | without healthy servers, nothing and no index change; otherwise the index advances by one modulo the number of healthy servers and the healthy server there is returned |
| LoadBalancing.LeastConnections | url_fetcher.py:57-63 | nothing exactly when none is healthy; otherwise a healthy server with no more connections than any healthy server, and every healthy server before it has strictly more |
| LoadBalancing.FewestConnections | url_fetcher.py:63 | `min` by connections over a nonempty list: a least element, the first of them |
| LoadBalancing.RandomServer | url_fetcher.py:65-71 | nothing exactly when none is healthy; otherwise the healthy server the draw selects |
| LoadBalancing.WeightedRandom | url_fetcher.py:73-89 | nothing when none is healthy; otherwise the first healthy server at which the running weight reaches the draw, or the first healthy server when none does |
| LoadBalancing.RunningWeight | url_fetcher.py:83-85 | `cumsum` after the weight of the `m`-th healthy server has been added |
| LoadBalancing.DrawWithinTotalIsReached | url_fetcher.py:79-87 | a draw no larger than some running weight is reached at or before that server, so the fallback is not taken |
| LoadBalancing.IpHash | url_fetcher.py:91-98 | nothing exactly when none is healthy; otherwise the healthy server at position `hash % count` |
| LoadBalancing.PolicyFor | url_fetcher.py:100-112 | least connections, random and weighted exactly for their own names; IP hash exactly for `ip_hash` with a truthy client address; round robin exactly for `round_robin`, for unknown names and for `ip_hash` without an address |
| LoadBalancing.LoadBalancer.GetServer | url_fetcher.py:100-112 | the server the selected policy returns; only round robin moves the index |
| LoadBalancing.LoadBalancer.HandleRequest | url_fetcher.py:114-151 | without a healthy server, the error and no change; otherwise the server `get_server` selects under the current algorithm (with the round-robin index moved only by round robin) is the one updated as `Serve` prescribes, and the log entry (time, client, server id, latency, status, algorithm) is appended to the 10000-bounded log |
| LoadBalancing.LoadBalancer.ServeRequest | url_fetcher.py:120-149 | once the healthy server at a position is chosen: exactly that server's record is updated as `Serve` prescribes, the log entry (time, client, server id, latency, status, algorithm) is built from it and appended to the 10000-bounded log |
| LoadBalancing.ClientLabel | url_fetcher.py:142 | the client address when it is truthy, else `192.168.a.b` with `a` and `b` between 1 and 254 |
| LoadBalancing.Serve | url_fetcher.py:120-138 | one more request, one more error exactly when the request failed, connections back where they started, the latency appended to a window of at most 100 |
| LoadBalancing.RecordRequest | url_fetcher.py:120-138 | the staged in-place updates of the server record amount to `Serve` and keep it within its window with no more errors than requests |
| LoadBalancing.LoadBalancer.CountRequest | url_fetcher.py:120-138 | only the chosen server's record changes, as `Serve` prescribes, and the balancer invariant holds |
| LoadBalancing.LoadBalancer.LogRequest | url_fetcher.py:149 | the log is the bounded append of the entry and stays within 10000 |
| LoadBalancing.ResponseStatus | url_fetcher.py:128-129 | 200 exactly when the request succeeded, otherwise one of 500, 502, 503, 504 |
| LoadBalancing.ServedKeepsOk | url_fetcher.py:131-138 | serving a request keeps every server within 100 latencies and with no more errors than requests |
| LoadBalancing.ServeTotals | url_fetcher.py:120-132 | serving a request adds one to the total requests and one to the total errors exactly when it failed |
| LoadBalancing.TotalRequests | url_fetcher.py:174 | the sum of the servers' request counters |
| LoadBalancing.TotalErrors | url_fetcher.py:175 | the sum of the servers' error counters |
| LoadBalancing.TotalErrorsBounded | url_fetcher.py:174-175 | total errors never exceed total requests |
| LoadBalancing.HealthyCount | url_fetcher.py:176 | the healthy count equals the length of the healthy list |
| LoadBalancing.LoadBalancer.GetServerStats | url_fetcher.py:159-171 | nothing exactly when no server has the id; otherwise the stats of the first server with it |
| LoadBalancing.FindServer | url_fetcher.py:160-171 | the loop over the servers: nothing exactly when no id matches, else the first match |
| LoadBalancing.StatsOf | url_fetcher.py:162-170 | the dictionary `get_server_stats` returns for a server, without the float fields |
| LoadBalancing.LoadBalancer.GetOverallStats | url_fetcher.py:173-186 | algorithm, server count, healthy count, total requests and total errors as the sums of the servers' counters (errors at most requests) and a log size within 10000 |
| LoadBalancing.Without | url_fetcher.py:202 | the algorithms other than the current one, one fewer for each occurrence of it |
| LoadBalancing.AlternativesExist | url_fetcher.py:201-202 | at least four alternatives remain whatever the current algorithm |
| LoadBalancing.LoadBalancer.ChangeAlgorithm | url_fetcher.py:201-202 | the new algorithm is in the list and differs from the old one |
| LoadBalancing.LoadBalancer.AddServer | url_fetcher.py:20-36 | one server appended with id `host:port`, zero counters, empty latency list, healthy, clock stamps; the rest unchanged |
| LoadBalancing.LoadBalancer.constructor | url_fetcher.py:10-18 | no servers, an empty log, index 0 and an algorithm from the list |
| CryptoUtils.FloorMod | backup_scheduler.py:74 | Python's `%`: the remainder lies between 0 and the divisor, on the divisor's side, is 0 exactly on divisibility, and `a == (a // b) * b + a % b` |
| CryptoUtils.PadLength | backup_scheduler.py:74 | `padding_length = block_size - len(data) % block_size` |
| CryptoUtils.PadData | backup_scheduler.py:73-76 | block size 0 divides by zero, a padding length above 255 is not a byte, a negative block size leaves the data unchanged |
| CryptoUtils.PadLengthBounds | backup_scheduler.py:74 | for a positive block size the padding length is 1 to `block_size`, a whole block exactly for aligned data, and reaches the next multiple |
| CryptoUtils.PadDataShape | backup_scheduler.py:73-76 | for a positive block size whose padding length is at most 255 (every block size up to 255): success, data kept as prefix, strictly longer by at most a block, length the next multiple of the block size, every added byte equal to the padding length |
| CryptoUtils.PadDataBlock256 | backup_scheduler.py:75 | with block size 256, padding fails exactly on aligned data |
| CryptoUtils.UnpadPadData | backup_scheduler.py:73-76 | whenever padding succeeds with a positive block size, removing the padding as section 6.3 of RFC 5652 prescribes gives back the data |
| CryptoUtils.Repeat | backup_scheduler.py:75 | `[v] * n`: `n` copies of `v`, none for `n <= 0` |
| CryptoUtils.Leaves | backup_scheduler.py:118 | one leaf per number `0 .. leaves - 1`, the hash of its decimal text |
| CryptoUtils.NextLevel | backup_scheduler.py:122-128 | the next level has `ceil(n / 2)` nodes; node `k` hashes nodes `2k` and `2k + 1`, a lone last node with itself |
| CryptoUtils.Parent | backup_scheduler.py:124-128 | the hash of node `2k` joined with node `2k + 1`, or with itself when it is the last node |
| CryptoUtils.PairUp | backup_scheduler.py:122-128 | the stepping-by-two loop builds exactly the next level |
| CryptoUtils.BuildLevels | backup_scheduler.py:119-131 | the `while` loop leaves exactly the leaf level and the levels above it up to one node |
| CryptoUtils.Levels | backup_scheduler.py:119-131 | the list `tree`: the leaf level first, then each next level, until a level of at most one node |
| CryptoUtils.NodeCount | backup_scheduler.py:136 | `sum(len(l) for l in tree)` |
| CryptoUtils.Merkle | backup_scheduler.py:116-137 | the returned summary built from `Levels`, or `IndexError` when the top level is empty |
| CryptoUtils.MerkleTree | backup_scheduler.py:116-137 | the summary of the levels from the leaves up to one node, or `IndexError` |
| CryptoUtils.LevelsShape | backup_scheduler.py:121-131 | each level above a nonempty one is the parent level of the one below, every level but the last has more than one node, the last has one |
| CryptoUtils.MerkleOutcome | backup_scheduler.py:132-137 | `IndexError` exactly for no leaves; otherwise the leaf count, depth = number of levels, nodes = their total size, root = the one node of the top level |
| CryptoUtils.DepthBounds | backup_scheduler.py:135 | with `n` leaves the depth `d` is the least with `n <= 2^(d-1)` |
| CryptoUtils.NodeBounds | backup_scheduler.py:136 | with `n` leaves the tree holds between `2n - 1` and `2n + d - 2` nodes |
| CryptoUtils.SmallTrees | backup_scheduler.py:116-137 | one leaf is its own root (depth 1, one node); two leaves hash together into the root (depth 2, three nodes) |

## Left out

- Threads, the lock, the `running` flag, `start_workers`, `stop_workers`, `task_done`, `queue.Empty` timeouts and `time.sleep`: the model is one sequential step at a time.
- `execute_task`, which sleeps and formats random text. Its outcome is the parameter `outcome`.
- `generate_random_tasks`, `generate_server_pool`, `simulate_traffic`, `health_check` and `run`, which only draw random input or drive the loops.
- task_runner.py is not part of this model: it is an HTTP client over `urllib`.
- Everything else in backup_scheduler.py: PBKDF2, AES, the digests, and the JWT, RSA and Diffie-Hellman mocks. These are foreign library calls and randomness.
- TaskScheduling.MinIndex: among entries equal under the tuple order it takes the first in queue order. The binary heap's own order among such entries is not modelled.
- TaskScheduling.TaskScheduler.GetStats: leaves out `uptime`, a floating-point clock difference.
- TaskScheduling.ToRecord: the duration is a difference of integer clock readings, not of floats.
- LoadBalancing.LoadBalancer.GetServerStats: leaves out `error_rate` and `avg_latency`, which are float divisions.
- LoadBalancing.LoadBalancer.GetOverallStats: leaves out `error_rate`.
- LoadBalancing.LoadBalancer.HandleRequest: latency is a whole number of milliseconds rather than a float from `random.uniform(5, 100)`. The timestamp is the integer parameter `now`.
- LoadBalancing.WeightedRandom: the draw `random.uniform(0, total)` is an integer parameter `r`, not a float.
- LoadBalancing.IpHash: Python's `hash` of the address is a parameter. Its value is not modelled.
- The lock around each selection policy is not modelled.
