/**
 * The load balancer of url_fetcher.py (`LoadBalancer`): a list of server records,
 * five selection policies over the healthy ones, per-request bookkeeping and a
 * bounded request log.
 *
 * Random draws, the clock and Python's `hash()` of a client address are parameters:
 * a `random.choice` over a list of length `n` is a draw `pick` read as `pick % n`.
 * Latencies are whole milliseconds.
 */
module LoadBalancing {
  import opened Wrappers
  import Bounded
  import Numerals

  const Algorithms: seq<string> := ["round_robin", "least_connections", "random", "weighted", "ip_hash"]
  const LatencyWindow: nat := 100
  const RequestLogCapacity: nat := 10000
  const ErrorStatuses: seq<int> := [500, 502, 503, 504]
  const DefaultWeight: int := 1

  datatype Server = Server(
    id: string,
    host: string,
    port: int,
    weight: int,
    connections: int,
    requests: nat,
    errors: nat,
    latency: seq<int>,
    healthy: bool,
    lastCheck: int,
    addedAt: int)

  /** An element of `request_log`. */
  datatype LogEntry = LogEntry(timestamp: int, client: string, server: string, latency: int, status: int, algorithm: string)

  /** `handle_request`'s result: the error dictionary, or the log entry of the served request. */
  datatype Response = NoHealthyServers | Served(entry: LogEntry)

  /** What one `handle_request` draws at random, and the clock reading it logs. */
  datatype Draws = Draws(
    pick: nat,          // random.choice among the healthy servers
    weightDraw: int,    // random.uniform(0, total) of the weighted policy
    latency: int,       // random.uniform(5, 100)
    success: bool,      // random.random() > 0.05
    errorPick: nat,     // random.choice([500, 502, 503, 504])
    octet3: nat,        // random.randint(1, 254) for an anonymous client
    octet4: nat,
    now: int)

  /** `get_server_stats` without the floating-point `error_rate` and `avg_latency`. */
  datatype ServerStats = ServerStats(id: string, healthy: bool, requests: nat, errors: nat, connections: int)

  /** `get_overall_stats` without the floating-point `error_rate`. */
  datatype OverallStats = OverallStats(
    algorithm: string, totalServers: nat, healthyServers: nat,
    totalRequests: nat, totalErrors: nat, requestsLogged: nat)

  /** The selection function `get_server` calls. */
  datatype Policy = UseRoundRobin | UseLeastConnections | UseRandom | UseWeighted | UseIpHash

  /** `f"{host}:{port}"`. */
  function ServerId(host: string, port: int): string
  {
    host + ":" + Numerals.Decimal(port)
  }

  /**
   * The decimal port has no ':', so the last ':' of an id separates host and port:
   * two servers share an id exactly when they share host and port.
   */
  lemma ServerIdInjective(host1: string, port1: int, host2: string, port2: int)
    requires ServerId(host1, port1) == ServerId(host2, port2)
    ensures host1 == host2 && port1 == port2
  {
    var id := ServerId(host1, port1);
    if |host1| < |host2| {
      PortHasNoColon(host1, port1, |host2|);
      assert false;
    } else if |host2| < |host1| {
      PortHasNoColon(host2, port2, |host1|);
      assert false;
    }
    assert host1 == id[..|host1|] == host2;
    assert Numerals.Decimal(port1) == id[|host1| + 1..] == Numerals.Decimal(port2);
    Numerals.DecimalInjective(port1, port2);
  }

  /** The ':' after the host is the last one in an id. */
  lemma PortHasNoColon(host: string, port: int, k: int)
    requires |host| < k < |ServerId(host, port)|
    ensures ServerId(host, port)[k] != ':'
  {
    var digits := Numerals.Decimal(port);
    var id := (host + ":") + digits;
    assert ServerId(host, port) == id;
    assert id[k] == digits[k - |host| - 1];
    assert digits[k - |host| - 1] in digits;
  }

  /** Python truthiness of `client_ip`: present and not empty. */
  predicate Truthy(clientIp: Option<string>)
  {
    clientIp.Some? && clientIp.value != ""
  }

  predicate NoneHealthy(servers: seq<Server>)
  {
    forall i :: 0 <= i < |servers| ==> !servers[i].healthy
  }

  /** `[s for s in self.servers if s['healthy']]`, as positions in the server list. */
  function HealthyIndices(servers: seq<Server>): (h: seq<nat>)
    ensures forall k :: 0 <= k < |h| ==> h[k] < |servers| && servers[h[k]].healthy
    ensures h == [] <==> NoneHealthy(servers)
  {
    if servers == [] then []
    else
      var n := |servers| - 1;
      HealthyIndices(servers[..n]) + (if servers[n].healthy then [n] else [])
  }

  /** The healthy list holds every healthy server. */
  lemma {:induction false} HealthyIndicesComplete(servers: seq<Server>)
    ensures forall i :: 0 <= i < |servers| && servers[i].healthy ==> i in HealthyIndices(servers)
  {
    if servers != [] {
      var n := |servers| - 1;
      HealthyIndicesComplete(servers[..n]);
      var p := HealthyIndices(servers[..n]);
      var h := HealthyIndices(servers);
      assert h == p + (if servers[n].healthy then [n] else []);
      forall i | 0 <= i < |servers| && servers[i].healthy
        ensures i in h
      {
        if i < n {
          assert servers[..n][i] == servers[i];
          assert i in p;
        } else {
          assert h[|h| - 1] == n;
        }
      }
    }
  }

  predicate Increasing(h: seq<nat>)
  {
    forall k, l :: 0 <= k < l < |h| ==> h[k] < h[l]
  }

  /** The healthy list is in list order. */
  lemma {:induction false} HealthyIndicesIncreasing(servers: seq<Server>)
    ensures Increasing(HealthyIndices(servers))
  {
    if servers != [] {
      var n := |servers| - 1;
      HealthyIndicesIncreasing(servers[..n]);
      var p := HealthyIndices(servers[..n]);
      var h := HealthyIndices(servers);
      assert h == p + (if servers[n].healthy then [n] else []);
      assert Increasing(p);
      forall k, l | 0 <= k < l < |h|
        ensures h[k] < h[l]
      {
        if l < |p| {
          assert h[k] == p[k] && h[l] == p[l] && p[k] < p[l];
        } else {
          assert h[k] == p[k] && p[k] < n && h[l] == n;
        }
      }
    }
  }

  ghost predicate ValidPositions(servers: seq<Server>, h: seq<nat>)
  {
    forall k :: 0 <= k < |h| ==> h[k] < |servers|
  }

  /** The position in `h` of the first server with the fewest connections, as `min` finds it. */
  function FewestConnections(servers: seq<Server>, h: seq<nat>): (k: nat)
    requires |h| > 0 && ValidPositions(servers, h)
    ensures k < |h|
    ensures forall j :: 0 <= j < |h| ==> servers[h[k]].connections <= servers[h[j]].connections
    ensures forall j :: 0 <= j < k ==> servers[h[j]].connections > servers[h[k]].connections
  {
    if |h| == 1 then 0
    else
      var m := FewestConnections(servers, h[..|h| - 1]);
      if servers[h[|h| - 1]].connections < servers[h[m]].connections then |h| - 1 else m
  }

  /** Every healthy server has a position in the healthy list, before position `k` exactly when it comes before `h[k]`. */
  lemma HealthyPositions(servers: seq<Server>, k: nat)
    requires k < |HealthyIndices(servers)|
    ensures var h := HealthyIndices(servers);
      forall i :: 0 <= i < |servers| && servers[i].healthy ==>
        exists j :: 0 <= j < |h| && h[j] == i && (i < h[k] ==> j < k)
  {
    var h := HealthyIndices(servers);
    HealthyIndicesComplete(servers);
    HealthyIndicesIncreasing(servers);
    forall i | 0 <= i < |servers| && servers[i].healthy
      ensures exists j :: 0 <= j < |h| && h[j] == i && (i < h[k] ==> j < k)
    {
      assert i in h;
      var j :| 0 <= j < |h| && h[j] == i;
    }
  }

  /** `least_connections()`: the first healthy server with the fewest open connections. */
  function LeastConnections(servers: seq<Server>): (choice: Option<nat>)
    ensures choice.None? <==> NoneHealthy(servers)
    ensures choice.Some? ==> choice.value < |servers| && servers[choice.value].healthy
    ensures choice.Some? ==> forall i :: 0 <= i < |servers| && servers[i].healthy ==>
      servers[choice.value].connections <= servers[i].connections
    ensures choice.Some? ==> forall i :: 0 <= i < choice.value && servers[i].healthy ==>
      servers[i].connections > servers[choice.value].connections
  {
    var h := HealthyIndices(servers);
    if h == [] then None
    else
      var k := FewestConnections(servers, h);
      HealthyPositions(servers, k);
      Some(h[k])
  }

  /** `random_server()`: `random.choice` among the healthy servers. */
  function RandomServer(servers: seq<Server>, pick: nat): (choice: Option<nat>)
    ensures choice.None? <==> NoneHealthy(servers)
    ensures choice.Some? ==> choice.value < |servers| && servers[choice.value].healthy
    ensures choice.Some? ==> choice.value == HealthyIndices(servers)[pick % |HealthyIndices(servers)|]
  {
    var h := HealthyIndices(servers);
    if h == [] then None else Some(h[pick % |h|])
  }

  /** `ip_hash(client_ip)` for `hashValue == hash(client_ip)`; Python's `%` by a positive length. */
  function IpHash(servers: seq<Server>, hashValue: int): (choice: Option<nat>)
    ensures choice.None? <==> NoneHealthy(servers)
    ensures choice.Some? ==> choice.value < |servers| && servers[choice.value].healthy
    ensures choice.Some? ==> choice.value == HealthyIndices(servers)[hashValue % |HealthyIndices(servers)|]
  {
    var h := HealthyIndices(servers);
    if h == [] then None else Some(h[hashValue % |h|])
  }

  /** The value of `cumsum` once the weight of `h[m]` has been added. */
  function RunningWeight(servers: seq<Server>, h: seq<nat>, m: nat): int
    requires m < |h| && ValidPositions(servers, h)
  {
    if m == 0 then servers[h[0]].weight else RunningWeight(servers, h, m - 1) + servers[h[m]].weight
  }

  /** `h[j]` is the first server at which the running weight reaches the draw `r`. */
  ghost predicate FirstReaching(servers: seq<Server>, h: seq<nat>, r: int, j: nat)
    requires ValidPositions(servers, h)
  {
    j < |h| && r <= RunningWeight(servers, h, j) &&
    forall m :: 0 <= m < j ==> RunningWeight(servers, h, m) < r
  }

  /**
   * What `weighted_random()` returns for the draw `r`: nothing without a healthy
   * server, else the first healthy server whose running weight reaches `r`, else the
   * first healthy server.
   */
  ghost predicate WeightedOutcome(servers: seq<Server>, r: int, choice: Option<nat>)
  {
    var h := HealthyIndices(servers);
    if h == [] then choice == None
    else
      choice.Some? &&
      ((exists j: nat :: FirstReaching(servers, h, r, j) && choice.value == h[j]) ||
       ((forall m :: 0 <= m < |h| ==> RunningWeight(servers, h, m) < r) && choice.value == h[0]))
  }

  /** `weighted_random()` with the draw `r` as a parameter. */
  method WeightedRandom(servers: seq<Server>, r: int) returns (choice: Option<nat>)
    ensures choice.None? <==> NoneHealthy(servers)
    ensures choice.Some? ==> choice.value < |servers| && servers[choice.value].healthy
    ensures WeightedOutcome(servers, r, choice)
  {
    var healthy := HealthyIndices(servers);
    if healthy == [] {
      return None;
    }
    var cumsum := 0;
    var i := 0;
    while i < |healthy|
      invariant 0 <= i <= |healthy|
      invariant cumsum == if i == 0 then 0 else RunningWeight(servers, healthy, i - 1)
      invariant forall m :: 0 <= m < i ==> RunningWeight(servers, healthy, m) < r
    {
      cumsum := cumsum + servers[healthy[i]].weight;
      if r <= cumsum {
        assert FirstReaching(servers, healthy, r, i);
        assert WeightedOutcome(servers, r, Some(healthy[i]));
        return Some(healthy[i]);
      }
      i := i + 1;
    }
    assert WeightedOutcome(servers, r, Some(healthy[0]));
    return Some(healthy[0]);
  }

  /**
   * A draw no larger than the total weight always lands on a server before the
   * fallback to the first healthy server is reached.
   */
  lemma {:induction false} DrawWithinTotalIsReached(servers: seq<Server>, h: seq<nat>, r: int, m: nat)
    requires ValidPositions(servers, h) && m < |h|
    requires r <= RunningWeight(servers, h, m)
    ensures exists j: nat :: j <= m && FirstReaching(servers, h, r, j)
    decreases m
  {
    if forall k :: 0 <= k < m ==> RunningWeight(servers, h, k) < r {
      assert FirstReaching(servers, h, r, m);
    } else {
      var k :| 0 <= k < m && r <= RunningWeight(servers, h, k);
      DrawWithinTotalIsReached(servers, h, r, k);
    }
  }

  /** Which selector `get_server(client_ip)` calls for the current algorithm. */
  function PolicyFor(algorithm: string, clientIp: Option<string>): (p: Policy)
    ensures p == UseIpHash <==> algorithm == "ip_hash" && Truthy(clientIp)
    ensures p == UseLeastConnections <==> algorithm == "least_connections"
    ensures p == UseRandom <==> algorithm == "random"
    ensures p == UseWeighted <==> algorithm == "weighted"
    ensures p == UseRoundRobin <==>
      algorithm !in ["least_connections", "random", "weighted"] && !(algorithm == "ip_hash" && Truthy(clientIp))
  {
    if algorithm == "round_robin" then UseRoundRobin
    else if algorithm == "least_connections" then UseLeastConnections
    else if algorithm == "random" then UseRandom
    else if algorithm == "weighted" then UseWeighted
    else if algorithm == "ip_hash" && Truthy(clientIp) then UseIpHash
    else UseRoundRobin
  }

  /** `[a for a in self.algorithms if a != current]`. */
  function Without(xs: seq<string>, current: string): (r: seq<string>)
    ensures forall a :: a in r <==> a in xs && a != current
    ensures |r| + multiset(xs)[current] == |xs|
  {
    if xs == [] then []
    else
      assert xs == [xs[0]] + xs[1..];
      (if xs[0] == current then [] else [xs[0]]) + Without(xs[1..], current)
  }

  /** Removing one value from a list without duplicates removes at most one element. */
  lemma {:induction false} WithoutDistinct(xs: seq<string>, current: string)
    requires forall i, j :: 0 <= i < j < |xs| ==> xs[i] != xs[j]
    ensures |Without(xs, current)| >= |xs| - 1
  {
    if xs != [] {
      if xs[0] == current {
        assert current !in xs[1..];
        assert multiset(xs[1..])[current] == 0;
      } else {
        WithoutDistinct(xs[1..], current);
      }
    }
  }

  /** `change_algorithm` always has at least four algorithms to choose from. */
  lemma AlternativesExist(current: string)
    ensures |Without(Algorithms, current)| >= 4
  {
    assert |Algorithms[0]| == 11 && |Algorithms[1]| == 17 && |Algorithms[2]| == 6;
    assert |Algorithms[3]| == 8 && |Algorithms[4]| == 7;
    WithoutDistinct(Algorithms, current);
  }

  /** The per-server effect of one served request: the counters and the latency window. */
  function Serve(s: Server, latency: int, success: bool): (t: Server)
    ensures t.requests == s.requests + 1
    ensures t.errors == if success then s.errors else s.errors + 1
    ensures t.connections == s.connections
    ensures t.latency == Bounded.KeepLast(s.latency + [latency], LatencyWindow)
    ensures |t.latency| <= LatencyWindow
    ensures t.latency[|t.latency| - 1] == latency
    ensures t.id == s.id && t.healthy == s.healthy && t.weight == s.weight
  {
    s.(requests := s.requests + 1,
       errors := if success then s.errors else s.errors + 1,
       latency := Bounded.KeepLast(s.latency + [latency], LatencyWindow))
  }

  /** `client_ip or f"192.168.{a}.{b}"` with `a`, `b` drawn from 1..254. */
  function ClientLabel(clientIp: Option<string>, octet3: nat, octet4: nat): string
  {
    if Truthy(clientIp) then clientIp.value
    else "192.168." + Numerals.Decimal(1 + octet3 % 254) + "." + Numerals.Decimal(1 + octet4 % 254)
  }

  ghost predicate ServerOk(s: Server)
  {
    |s.latency| <= LatencyWindow && s.errors <= s.requests
  }

  /** Serving a request keeps every record within its latency window and with no more errors than requests. */
  lemma ServedKeepsOk(servers: seq<Server>, i: nat, latency: int, success: bool)
    requires i < |servers| && forall j :: 0 <= j < |servers| ==> ServerOk(servers[j])
    ensures var after := servers[i := Serve(servers[i], latency, success)];
      forall j :: 0 <= j < |after| ==> ServerOk(after[j])
  {
  }

  /** The status code `handle_request` logs: 200, or one of the four server errors for a failed request. */
  function ResponseStatus(success: bool, errorPick: nat): (status: int)
    ensures status == 200 <==> success
    ensures !success ==> status in ErrorStatuses && 500 <= status <= 504
  {
    if success then 200 else ErrorStatuses[errorPick % |ErrorStatuses|]
  }

  function TotalRequests(servers: seq<Server>): nat
  {
    if servers == [] then 0 else TotalRequests(servers[..|servers| - 1]) + servers[|servers| - 1].requests
  }

  function TotalErrors(servers: seq<Server>): nat
  {
    if servers == [] then 0 else TotalErrors(servers[..|servers| - 1]) + servers[|servers| - 1].errors
  }

  /** `sum(1 for s in self.servers if s['healthy'])` counts exactly the healthy servers. */
  function HealthyCount(servers: seq<Server>): (c: nat)
    ensures c == |HealthyIndices(servers)|
  {
    if servers == [] then 0
    else HealthyCount(servers[..|servers| - 1]) + (if servers[|servers| - 1].healthy then 1 else 0)
  }

  /** While no server has more errors than requests, neither do the totals. */
  lemma {:induction false} TotalErrorsBounded(servers: seq<Server>)
    requires forall i :: 0 <= i < |servers| ==> servers[i].errors <= servers[i].requests
    ensures TotalErrors(servers) <= TotalRequests(servers)
  {
    if servers != [] {
      TotalErrorsBounded(servers[..|servers| - 1]);
    }
  }

  /** Serving a request adds one request to the total, and one error exactly when it failed. */
  lemma {:induction false} ServeTotals(servers: seq<Server>, i: nat, latency: int, success: bool)
    requires i < |servers|
    ensures TotalRequests(servers[i := Serve(servers[i], latency, success)]) == TotalRequests(servers) + 1
    ensures TotalErrors(servers[i := Serve(servers[i], latency, success)]) ==
      TotalErrors(servers) + (if success then 0 else 1)
    decreases |servers|
  {
    var n := |servers| - 1;
    var servers' := servers[i := Serve(servers[i], latency, success)];
    if i < n {
      assert servers'[..n] == servers[..n][i := Serve(servers[i], latency, success)];
      ServeTotals(servers[..n], i, latency, success);
    } else {
      assert servers'[..n] == servers[..n];
    }
  }

  /**
   * The in-place updates `handle_request` makes to the chosen server's record:
   * open a connection and count the request, count the error of a failed request,
   * close the connection, then append the latency and keep the last 100.
   */
  method RecordRequest(s: Server, latency: int, success: bool) returns (t: Server)
    ensures t == Serve(s, latency, success)
    ensures ServerOk(s) ==> ServerOk(t)
  {
    t := s;
    t := t.(connections := t.connections + 1, requests := t.requests + 1);
    if !success {
      t := t.(errors := t.errors + 1);
    }
    t := t.(connections := t.connections - 1);
    t := t.(latency := Bounded.KeepLast(t.latency + [latency], LatencyWindow));
  }

  class LoadBalancer {
    var servers: seq<Server>
    var algorithm: string
    var currentIndex: int
    var requestLog: seq<LogEntry>

    ghost predicate Valid()
      reads this`servers, this`requestLog
    {
      |requestLog| <= RequestLogCapacity &&
      forall i :: 0 <= i < |servers| ==> ServerOk(servers[i])
    }

    /** `LoadBalancer()`, whose `random.choice(self.algorithms)` is the draw `pick`. */
    constructor (pick: nat)
      ensures Valid()
      ensures servers == [] && requestLog == [] && currentIndex == 0
      ensures algorithm == Algorithms[pick % |Algorithms|]
    {
      servers := [];
      algorithm := Algorithms[pick % |Algorithms|];
      currentIndex := 0;
      requestLog := [];
    }

    /** `add_server(host, port, weight=1)` with the clock reading `now`. */
    method AddServer(now: int, host: string, port: int, weight: int := DefaultWeight) returns (serverId: string)
      requires Valid()
      modifies this
      ensures Valid()
      ensures serverId == ServerId(host, port)
      ensures |servers| == |old(servers)| + 1 && servers[..|old(servers)|] == old(servers)
      ensures var s := servers[|servers| - 1];
        && s.id == serverId && s.host == host && s.port == port && s.weight == weight
        && s.connections == 0 && s.requests == 0 && s.errors == 0 && s.latency == []
        && s.healthy && s.lastCheck == now && s.addedAt == now
      ensures algorithm == old(algorithm) && currentIndex == old(currentIndex) && requestLog == old(requestLog)
    {
      serverId := ServerId(host, port);
      var server := Server(serverId, host, port, weight, 0, 0, 0, [], true, now, now);
      servers := servers + [server];
    }

    /**
     * `round_robin()`: advance the index modulo the number of healthy servers and
     * return the healthy server at the new index; without healthy servers, nothing
     * moves.
     */
    method RoundRobin() returns (choice: Option<nat>)
      modifies this`currentIndex
      ensures choice.None? <==> NoneHealthy(servers)
      ensures choice.Some? ==> choice.value < |servers| && servers[choice.value].healthy
      ensures RoundRobinOutcome(servers, old(currentIndex), currentIndex, choice)
    {
      var healthy := HealthyIndices(servers);
      if healthy == [] {
        return None;
      }
      currentIndex := (currentIndex + 1) % |healthy|;
      choice := Some(healthy[currentIndex]);
    }

    /** `get_server(client_ip)`, with the draws of the random and weighted policies as parameters. */
    method GetServer(clientIp: Option<string>, hash: string -> int, pick: nat, weightDraw: int)
      returns (choice: Option<nat>)
      modifies this`currentIndex
      ensures choice.None? <==> NoneHealthy(servers)
      ensures choice.Some? ==> choice.value < |servers| && servers[choice.value].healthy
      ensures PolicyFor(algorithm, clientIp) != UseRoundRobin ==> currentIndex == old(currentIndex)
      ensures Selected(servers, algorithm, clientIp, hash, pick, weightDraw, old(currentIndex), currentIndex, choice)
    {
      match PolicyFor(algorithm, clientIp) {
        case UseRoundRobin => choice := RoundRobin();
        case UseLeastConnections => choice := LeastConnections(servers);
        case UseRandom => choice := RandomServer(servers, pick);
        case UseWeighted => choice := WeightedRandom(servers, weightDraw);
        case UseIpHash => choice := IpHash(servers, hash(clientIp.value));
      }
    }

    /**
     * `handle_request(client_ip)`: pick a server; without one, report the error and
     * change nothing; otherwise count the request (and the error, if it failed) on
     * that server, keep its last 100 latencies and log the request.
     */
    method HandleRequest(clientIp: Option<string>, hash: string -> int, draws: Draws) returns (response: Response)
      requires Valid()
      modifies this`servers, this`requestLog, this`currentIndex
      ensures Valid()
      ensures algorithm == old(algorithm)
      ensures response.NoHealthyServers? <==> NoneHealthy(old(servers))
      ensures response.NoHealthyServers? ==>
        servers == old(servers) && requestLog == old(requestLog) && currentIndex == old(currentIndex)
      ensures response.Served? ==>
        && requestLog == Bounded.Append(old(requestLog), response.entry, RequestLogCapacity)
        && ServedRequest(old(servers), servers, old(currentIndex), currentIndex, algorithm,
                         clientIp, hash, draws, response.entry)
    {
      ghost var before, indexBefore := servers, currentIndex;
      var choice := GetServer(clientIp, hash, draws.pick, draws.weightDraw);
      if choice.None? {
        return NoHealthyServers;
      }
      var i := choice.value;
      assert Selected(before, algorithm, clientIp, hash, draws.pick, draws.weightDraw,
                      indexBefore, currentIndex, Some(i));
      var entry := ServeRequest(i, clientIp, draws);
      ServedRequestIntro(before, servers, indexBefore, currentIndex, algorithm, clientIp, hash, draws, entry, i);
      response := Served(entry);
    }

    /**
     * The rest of `handle_request` once the healthy server at position `i` is chosen:
     * count the request on it and log the request.
     */
    method ServeRequest(i: nat, clientIp: Option<string>, draws: Draws) returns (entry: LogEntry)
      requires Valid() && i < |servers| && servers[i].healthy
      modifies this`servers, this`requestLog
      ensures Valid()
      ensures ServedBy(old(servers), servers, i, draws)
      ensures entry == LogEntry(draws.now, ClientLabel(clientIp, draws.octet3, draws.octet4), old(servers)[i].id,
                                draws.latency, ResponseStatus(draws.success, draws.errorPick), algorithm)
      ensures requestLog == Bounded.Append(old(requestLog), entry, RequestLogCapacity)
    {
      entry := LogEntry(draws.now, ClientLabel(clientIp, draws.octet3, draws.octet4), servers[i].id,
                        draws.latency, ResponseStatus(draws.success, draws.errorPick), algorithm);
      CountRequest(i, draws.latency, draws.success);
      LogRequest(entry);
    }

    /** The updates `handle_request` makes to the record of the chosen server at position `i`. */
    method CountRequest(i: nat, latency: int, success: bool)
      requires Valid() && i < |servers|
      modifies this`servers
      ensures Valid()
      ensures servers == old(servers)[i := Serve(old(servers)[i], latency, success)]
    {
      var server := RecordRequest(servers[i], latency, success);
      ServedKeepsOk(servers, i, latency, success);
      servers := servers[i := server];
    }

    /** `self.request_log.append(request_log)` on a deque of at most 10000 entries. */
    method LogRequest(entry: LogEntry)
      requires Valid()
      modifies this`requestLog
      ensures Valid()
      ensures requestLog == Bounded.Append(old(requestLog), entry, RequestLogCapacity)
    {
      requestLog := Bounded.Append(requestLog, entry, RequestLogCapacity);
      Bounded.AppendContents(old(requestLog), entry, RequestLogCapacity);
    }

    /** `get_server_stats(server_id)`: the first server with that id, if any. */
    function GetServerStats(serverId: string): (stats: Option<ServerStats>)
      reads this
      ensures stats.None? <==> forall i :: 0 <= i < |servers| ==> servers[i].id != serverId
      ensures stats.Some? ==> exists i :: IsFirstWithId(servers, serverId, i) && stats.value == StatsOf(servers[i])
    {
      FindServer(servers, serverId)
    }

    /** `get_overall_stats()`, without `error_rate`. */
    function GetOverallStats(): (stats: OverallStats)
      reads this
      requires Valid()
      ensures stats.algorithm == algorithm && stats.totalServers == |servers|
      ensures stats.healthyServers == |HealthyIndices(servers)|
      ensures stats.totalRequests == TotalRequests(servers) && stats.totalErrors == TotalErrors(servers)
      ensures stats.totalErrors <= stats.totalRequests
      ensures stats.requestsLogged == |requestLog| <= RequestLogCapacity
    {
      TotalErrorsBounded(servers);
      OverallStats(algorithm, |servers|, HealthyCount(servers), TotalRequests(servers),
                   TotalErrors(servers), |requestLog|)
    }

    /** `change_algorithm()`: a different algorithm of the list, chosen by the draw `pick`. */
    method ChangeAlgorithm(pick: nat)
      modifies this`algorithm
      ensures algorithm in Algorithms && algorithm != old(algorithm)
      ensures algorithm == Without(Algorithms, old(algorithm))[pick % |Without(Algorithms, old(algorithm))|]
    {
      var others := Without(Algorithms, algorithm);
      AlternativesExist(algorithm);
      algorithm := others[pick % |others|];
    }
  }

  /** `after` is `before` with the request of `draws` counted on the healthy server at position `i`. */
  ghost predicate ServedBy(before: seq<Server>, after: seq<Server>, i: int, draws: Draws)
  {
    0 <= i < |before| && before[i].healthy &&
    after == before[i := Serve(before[i], draws.latency, draws.success)]
  }

  /**
   * What `get_server(client_ip)` returns for these servers and draws, with `before` and
   * `after` the round-robin index around the call: only round robin moves it.
   */
  ghost predicate Selected(servers: seq<Server>, algorithm: string, clientIp: Option<string>,
                           hash: string -> int, pick: nat, weightDraw: int,
                           before: int, after: int, choice: Option<nat>)
  {
    match PolicyFor(algorithm, clientIp)
      case UseRoundRobin => RoundRobinOutcome(servers, before, after, choice)
      case UseLeastConnections => after == before && choice == LeastConnections(servers)
      case UseRandom => after == before && choice == RandomServer(servers, pick)
      case UseWeighted => after == before && WeightedOutcome(servers, weightDraw, choice)
      case UseIpHash => after == before && choice == IpHash(servers, hash(clientIp.value))
  }

  /**
   * One served request: the server `get_server` selects is counted as `Serve`
   * prescribes, and `entry` is the log entry `handle_request` writes for it.
   */
  ghost predicate ServedRequest(before: seq<Server>, after: seq<Server>, indexBefore: int, indexAfter: int,
                                algorithm: string, clientIp: Option<string>, hash: string -> int,
                                draws: Draws, entry: LogEntry)
  {
    exists i: nat ::
      && Selected(before, algorithm, clientIp, hash, draws.pick, draws.weightDraw, indexBefore, indexAfter, Some(i))
      && ServedBy(before, after, i, draws)
      && entry == LogEntry(draws.now, ClientLabel(clientIp, draws.octet3, draws.octet4), before[i].id,
                           draws.latency, ResponseStatus(draws.success, draws.errorPick), algorithm)
  }

  lemma ServedRequestIntro(before: seq<Server>, after: seq<Server>, indexBefore: int, indexAfter: int,
                           algorithm: string, clientIp: Option<string>, hash: string -> int,
                           draws: Draws, entry: LogEntry, i: nat)
    requires Selected(before, algorithm, clientIp, hash, draws.pick, draws.weightDraw, indexBefore, indexAfter, Some(i))
    requires ServedBy(before, after, i, draws)
    requires entry == LogEntry(draws.now, ClientLabel(clientIp, draws.octet3, draws.octet4), before[i].id,
                               draws.latency, ResponseStatus(draws.success, draws.errorPick), algorithm)
    ensures ServedRequest(before, after, indexBefore, indexAfter, algorithm, clientIp, hash, draws, entry)
  {
  }

  ghost predicate RoundRobinOutcome(servers: seq<Server>, before: int, after: int, choice: Option<nat>)
  {
    var h := HealthyIndices(servers);
    if h == [] then after == before && choice == None
    else after == (before + 1) % |h| && choice == Some(h[after])
  }

  predicate IsFirstWithId(servers: seq<Server>, serverId: string, i: int)
  {
    0 <= i < |servers| && servers[i].id == serverId && forall j :: 0 <= j < i ==> servers[j].id != serverId
  }

  function StatsOf(s: Server): ServerStats
  {
    ServerStats(s.id, s.healthy, s.requests, s.errors, s.connections)
  }

  /** The loop of `get_server_stats`: the stats of the first server whose id matches. */
  function FindServer(servers: seq<Server>, serverId: string): (stats: Option<ServerStats>)
    ensures stats.None? <==> forall i :: 0 <= i < |servers| ==> servers[i].id != serverId
    ensures stats.Some? ==> exists i :: IsFirstWithId(servers, serverId, i) && stats.value == StatsOf(servers[i])
  {
    if servers == [] then None
    else if servers[0].id == serverId then
      assert IsFirstWithId(servers, serverId, 0);
      Some(StatsOf(servers[0]))
    else
      var rest := FindServer(servers[1..], serverId);
      if rest.Some? then
        var i :| IsFirstWithId(servers[1..], serverId, i) && rest.value == StatsOf(servers[1..][i]);
        assert IsFirstWithId(servers, serverId, i + 1);
        rest
      else rest
  }
}
