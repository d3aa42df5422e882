/**
  The load tester (web/src/lib/loadTest.ts): what each scenario sends, the sequential
  runner, and the parallel runner over every interleaving of its workers at their awaits.
  Random draws are parameters; timing and progress reports are not modelled.
*/
module LoadTest {
  import opened Wrappers
  import opened Sets
  import opened Notification

  datatype ChannelMode = FixedChannel | RandomChannel | RoundRobin
  datatype PriorityMode = FixedPriority | RandomPriority

  datatype Scenario =
    | Burst | DuplicateSeq | DuplicatePar | RandomChannels | RandomPriorities
    | MixedChaos | RetryStorm | FailureMix | Staggered | AllChannels

  datatype LoadConfig = LoadConfig(
    address: string, burstCount: int, duplicateCount: int,
    channelMode: ChannelMode, fixedChannel: Channel, selectedChannels: seq<Channel>,
    priorityMode: PriorityMode, fixedPriority: Priority)

  datatype LoadRequest = LoadRequest(key: string, channel: Channel, priority: Priority, address: string)

  /** The random numbers one request draws, and the key generated for it. */
  datatype Draws = Draws(channel: nat, priority: nat, address: nat, key: string)

  const FAIL_TRANSIENT := "fail-transient@example.com"
  const FAILURE_MIX := ["user@example.com", FAIL_TRANSIENT, "fail-permanent@example.com"]

  // ----- Building requests

  function PickRandom<T>(items: seq<T>, draw: nat): (r: T)
    requires items != []
    ensures r in items
  {
    items[draw % |items|]
  }

  function Pool(config: LoadConfig): (r: seq<Channel>)
    ensures r != []
  {
    if config.channelMode == FixedChannel then [config.fixedChannel]
    else if config.selectedChannels != [] then config.selectedChannels
    else ALL_CHANNELS
  }

  function ResolveChannel(config: LoadConfig, index: nat, draw: nat): Channel {
    match config.channelMode
    case RoundRobin => Pool(config)[index % |Pool(config)|]
    case RandomChannel => PickRandom(Pool(config), draw)
    case FixedChannel => config.fixedChannel
  }

  function ResolvePriority(config: LoadConfig, draw: nat): Priority {
    if config.priorityMode == RandomPriority then PickRandom(ALL_PRIORITIES, draw) else config.fixedPriority
  }

  function BuildRequest(config: LoadConfig, index: nat, draws: Draws): LoadRequest {
    LoadRequest(draws.key, ResolveChannel(config, index, draws.channel), ResolvePriority(config, draws.priority), config.address)
  }

  function BuildScenarioRequest(
    scenario: Scenario, config: LoadConfig, index: nat, sharedKey: Option<string>, draws: Draws): LoadRequest
  {
    match scenario
    case RetryStorm =>
      BuildRequest(config, index, draws).(
        channel := if config.channelMode == FixedChannel then config.fixedChannel else ResolveChannel(config, index, draws.channel),
        priority := if config.priorityMode == FixedPriority then config.fixedPriority else ResolvePriority(config, draws.priority),
        address := FAIL_TRANSIENT)
    case FailureMix => BuildRequest(config, index, draws).(address := PickRandom(FAILURE_MIX, draws.address))
    case RandomChannels => BuildRequest(config.(channelMode := RandomChannel), index, draws)
    case RandomPriorities => BuildRequest(config.(priorityMode := RandomPriority), index, draws)
    case MixedChaos => BuildRequest(config.(channelMode := RandomChannel, priorityMode := RandomPriority), index, draws)
    case AllChannels => BuildRequest(config.(channelMode := RoundRobin), index, draws)
    case DuplicateSeq | DuplicatePar =>
      BuildRequest(config, index, draws).(key := if sharedKey.Some? then sharedKey.value else draws.key)
    case Burst | Staggered => BuildRequest(config, index, draws)
  }

  function ScenarioCount(scenario: Scenario, config: LoadConfig): int {
    if scenario in {DuplicateSeq, DuplicatePar} then config.duplicateCount else config.burstCount
  }

  /** The channels a scenario may use: the selected ones if it spreads, the fixed one if not. */
  predicate Spreads(scenario: Scenario, config: LoadConfig) {
    scenario in {RandomChannels, MixedChaos, AllChannels} || config.channelMode != FixedChannel
  }

  lemma ChannelsStayInThePool(scenario: Scenario, config: LoadConfig, index: nat, sharedKey: Option<string>, draws: Draws)
    ensures var channel := BuildScenarioRequest(scenario, config, index, sharedKey, draws).channel;
            if !Spreads(scenario, config) then channel == config.fixedChannel
            else if config.selectedChannels != [] then channel in config.selectedChannels
            else channel in ALL_CHANNELS
  {
  }

  predicate RepeatsKey(scenario: Scenario) {
    scenario == DuplicateSeq || scenario == DuplicatePar
  }

  /** The channel mode that a scenario imposes, or else that of the settings. */
  function ModeOf(scenario: Scenario, config: LoadConfig): ChannelMode {
    match scenario
    case RandomChannels => RandomChannel
    case MixedChaos => RandomChannel
    case AllChannels => RoundRobin
    case _ => config.channelMode
  }

  predicate VariesPriority(scenario: Scenario, config: LoadConfig) {
    scenario == RandomPriorities || scenario == MixedChaos || config.priorityMode == RandomPriority
  }

  /** What every scenario asks for: its key, its channel, its priority and its address. */
  lemma RequestsMean(scenario: Scenario, config: LoadConfig, index: nat, sharedKey: Option<string>, draws: Draws)
    ensures var request := BuildScenarioRequest(scenario, config, index, sharedKey, draws);
            var pool := if config.selectedChannels != [] then config.selectedChannels else [Email, Sms, Push, Webhook];
            && request.key == (if RepeatsKey(scenario) && sharedKey.Some? then sharedKey.value else draws.key)
            && request.channel == (match ModeOf(scenario, config)
                                   case FixedChannel => config.fixedChannel
                                   case RoundRobin => pool[index % |pool|]
                                   case RandomChannel => pool[draws.channel % |pool|])
            && (!VariesPriority(scenario, config) ==> request.priority == config.fixedPriority)
            && (match scenario
                case RetryStorm => request.address == "fail-transient@example.com"
                case FailureMix =>
                  request.address in {"user@example.com", "fail-transient@example.com", "fail-permanent@example.com"}
                case _ => request.address == config.address)
  {
  }

  /** Where the priority is random, each one comes out of some draw. */
  lemma EveryPriorityOccurs(
    scenario: Scenario, config: LoadConfig, index: nat, sharedKey: Option<string>, draws: Draws, priority: Priority)
    requires VariesPriority(scenario, config)
    ensures exists draw ::
              BuildScenarioRequest(scenario, config, index, sharedKey, draws.(priority := draw)).priority == priority
  {
    var draw: nat := match priority case Low => 0 case Normal => 1 case High => 2;
    assert BuildScenarioRequest(scenario, config, index, sharedKey, draws.(priority := draw)).priority == priority;
  }

  /** So does each of the three recipients of a failure mix. */
  lemma EveryRecipientOccurs(config: LoadConfig, index: nat, sharedKey: Option<string>, draws: Draws, address: string)
    requires address in {"user@example.com", "fail-transient@example.com", "fail-permanent@example.com"}
    ensures exists draw ::
              BuildScenarioRequest(FailureMix, config, index, sharedKey, draws.(address := draw)).address == address
  {
    var draw: nat := if address == "user@example.com" then 0 else if address == "fail-transient@example.com" then 1 else 2;
    assert BuildScenarioRequest(FailureMix, config, index, sharedKey, draws.(address := draw)).address == address;
  }

  // ----- Round-robin balance

  /** The requests below `n` that take pool position `p` of `k`. */
  function Turns(n: nat, k: nat, p: nat): set<nat>
    requires k > 0
  {
    set i: nat | i < n && i % k == p
  }

  lemma {:induction false} TurnsSize(n: nat, k: nat, p: nat)
    requires p < k
    ensures |Turns(n, k, p)| == n / k + if p < n % k then 1 else 0
  {
    if n == 0 {
      assert Turns(0, k, p) == {};
    } else {
      TurnsSize(n - 1, k, p);
      NextTurn(n, k);
      assert Turns(n, k, p) == Turns(n - 1, k, p) + if (n - 1) % k == p then {n - 1} else {};
    }
  }

  lemma NextTurn(n: nat, k: nat)
    requires n > 0 && k > 0
    ensures if (n - 1) % k == k - 1 then n / k == (n - 1) / k + 1 && n % k == 0
            else n / k == (n - 1) / k && n % k == (n - 1) % k + 1
  {
    var q, r := (n - 1) / k, (n - 1) % k;
    assert n == q * k + (r + 1);
    if r == k - 1 { DivMod(n, k, q + 1, 0); } else { DivMod(n, k, q, r + 1); }
  }

  lemma DivMod(n: nat, k: nat, q: nat, r: nat)
    requires r < k && n == q * k + r
    ensures n / k == q && n % k == r
  {
    NoSmallMultiple(n / k - q, k);
    assert (n / k - q) * k == r - n % k;
  }

  lemma NoSmallMultiple(d: int, k: nat)
    ensures d != 0 ==> d * k >= k || d * k + k <= 0
  {
    if d > 0 { assert (d - 1) * k >= 0; }
    if d < 0 { assert (-d - 1) * k >= 0; }
  }

  /** In a whole all-channels run of `n` requests every pool position is used floor(n/k) or ceil(n/k) times. */
  lemma RoundRobinBalance(config: LoadConfig, n: nat, draws: nat -> Draws, p: nat)
    requires p < |Pool(config.(channelMode := RoundRobin))|
    ensures var pool := Pool(config.(channelMode := RoundRobin));
            && (forall i :: i in Turns(n, |pool|, p) ==>
                  BuildScenarioRequest(AllChannels, config, i, None, draws(i)).channel == pool[p])
            && n / |pool| <= |Turns(n, |pool|, p)| <= (n + |pool| - 1) / |pool|
  {
    var k := |Pool(config.(channelMode := RoundRobin))|;
    TurnsSize(n, k, p);
    var q, r := n / k, n % k;
    if r > 0 {
      assert n + k - 1 == (q + 1) * k + (r - 1);
      DivMod(n + k - 1, k, q + 1, r - 1);
    } else {
      DivMod(n + k - 1, k, q, k - 1);
    }
  }

  // ----- Running

  datatype Outcome = Success | Duplicate | Failure

  datatype Tally = Tally(ok: nat, fail: nat, duplicates: nat, total: int)

  function Counted(t: Tally, outcome: Outcome): Tally {
    match outcome
    case Success => t.(ok := t.ok + 1)
    case Duplicate => t.(duplicates := t.duplicates + 1)
    case Failure => t.(fail := t.fail + 1)
  }

  function Hits(outcomes: nat -> Outcome, done: set<nat>, outcome: Outcome): set<nat> {
    set i | i in done && outcomes(i) == outcome
  }

  /** The tallies once the requests `done` have been answered. */
  function TallyOf(outcomes: nat -> Outcome, done: set<nat>, total: int): Tally {
    Tally(|Hits(outcomes, done, Success)|, |Hits(outcomes, done, Failure)|, |Hits(outcomes, done, Duplicate)|, total)
  }

  lemma CountedIsTally(outcomes: nat -> Outcome, done: set<nat>, total: int, i: nat)
    requires i !in done
    ensures Counted(TallyOf(outcomes, done, total), outcomes(i)) == TallyOf(outcomes, done + {i}, total)
  {
    HitsOf(outcomes, done, i, Success);
    HitsOf(outcomes, done, i, Failure);
    HitsOf(outcomes, done, i, Duplicate);
  }

  lemma HitsOf(outcomes: nat -> Outcome, done: set<nat>, i: nat, outcome: Outcome)
    requires i !in done
    ensures |Hits(outcomes, done + {i}, outcome)| == |Hits(outcomes, done, outcome)| + if outcomes(i) == outcome then 1 else 0
  {
    assert Hits(outcomes, done + {i}, outcome) ==
           Hits(outcomes, done, outcome) + if outcomes(i) == outcome then {i} else {};
  }

  /** The tallies are the numbers of requests with each outcome. */
  lemma TalliesMean(outcomes: nat -> Outcome, done: set<nat>, total: int)
    ensures var t := TallyOf(outcomes, done, total);
            && t.ok == |set i | i in done && outcomes(i) == Success|
            && t.duplicates == |set i | i in done && outcomes(i) == Duplicate|
            && t.fail == |set i | i in done && outcomes(i) == Failure|
            && t.total == total
  {
  }

  /** Every request is counted exactly once. */
  lemma TalliesAddUp(outcomes: nat -> Outcome, done: set<nat>, total: int)
    ensures var t := TallyOf(outcomes, done, total); t.ok + t.fail + t.duplicates == |done|
  {
    var a, b, c := Hits(outcomes, done, Success), Hits(outcomes, done, Failure), Hits(outcomes, done, Duplicate);
    assert done == a + b + c;
    assert a !! b && (a + b) !! c;
  }

  /** One request at a time. `peak` is the largest number of requests that were in flight together. */
  method RunSequential(count: int, outcomes: nat -> Outcome) returns (result: Tally, sent: seq<nat>, ghost peak: nat)
    ensures result == TallyOf(outcomes, Below(count), count)
    ensures sent == Indices(Max0(count)) && peak == if count < 1 then 0 else 1
  {
    result, sent, peak := Tally(0, 0, 0, count), [], 0;
    assert Below(0) == {};
    var i := 0;
    while i < count
      invariant 0 <= i && (i <= count || i == 0)
      invariant result == TallyOf(outcomes, Below(i), count)
      invariant sent == Indices(i) && peak == if i == 0 then 0 else 1
    {
      peak := 1;
      CountedIsTally(outcomes, Below(i), count, i);
      assert Below(i + 1) == Below(i) + {i};
      sent := sent + [i];
      result := Counted(result, outcomes(i));
      i := i + 1;
    }
    assert Below(count) == Below(i);
  }

  /**
    The state that the workers of one parallel run share. Between two awaits a worker is not
    interrupted, so a run is a sequence of calls to `Proceed` and `Resume`.
  */
  class ParallelRun {
    const count: int
    const concurrency: int
    const limit: nat
    const outcomes: nat -> Outcome
    var next: nat
    var result: Tally
    var busy: map<nat, nat>      // the workers that await an answer, with the request they sent
    var sent: seq<nat>           // the requests in the order in which they were sent
    ghost var done: set<nat>     // the answered requests

    constructor (count: int, concurrency: int, outcomes: nat -> Outcome)
      ensures Valid() && this.count == count && this.concurrency == concurrency && this.outcomes == outcomes
      ensures limit == if concurrency < 1 || count < 1 then 1 else if concurrency < count then concurrency else count
      ensures next == 0 && busy == map[]
    {
      this.count, this.concurrency, this.limit, this.outcomes := count, concurrency, Limit(concurrency, count), outcomes;
      next, result, busy, sent, done := 0, Tally(0, 0, 0, count), map[], [], {};
    }

    /** What holds whenever all workers wait. */
    ghost predicate Valid()
      reads this
    {
      && limit == Limit(concurrency, count)
      && sent == Indices(if next <= count then next else Max0(count))
      && busy.Keys <= Below(limit)
      && (forall w :: w in busy ==> busy[w] < |sent| && busy[w] !in done)
      && (forall v, w :: v in busy && w in busy && busy[v] == busy[w] ==> v == w)
      && done <= Below(|sent|)
      && (forall i: nat :: i < |sent| ==> i in done || i in busy.Values)
      && result == TallyOf(outcomes, done, count)
    }

    /** Besides a first one there are never more requests in flight than allowed or wanted. */
    lemma InFlight()
      requires Valid()
      ensures |busy| <= limit
      ensures |busy| <= 1 || (|busy| <= concurrency && |busy| <= count)
    {
      BelowSize(limit);
      SubsetIsSmaller(busy.Keys, Below(limit));
      assert |busy| == |busy.Keys|;
    }

    /** The worker takes the next index and sends its request, or stops. */
    method Proceed(w: nat)
      requires Valid() && w < limit && w !in busy
      modifies this`next, this`busy, this`sent
      ensures Valid() && next == old(next) + 1
      ensures busy == if old(next) < count then old(busy)[w := old(next)] else old(busy)
    {
      var i := next;
      next := next + 1;
      if i < count {
        ValuesAdded(busy, w, i);
        busy := busy[w := i];
        sent := sent + [i];
      }
    }

    /** The worker counts its answer. */
    method Count(w: nat)
      requires Valid() && w in busy
      modifies this`busy, this`result, this`done
      ensures Valid() && done == old(done) + {old(busy)[w]} && busy == old(busy) - {w}
    {
      var i := busy[w];
      CountedIsTally(outcomes, done, count, i);
      ValuesRemoved(busy, w);
      result := Counted(result, outcomes(i));
      busy := busy - {w};
      done := done + {i};
    }

    /** The worker's answer arrives. */
    method Resume(w: nat)
      requires Valid() && w in busy
      modifies this`next, this`busy, this`sent, this`result, this`done
      ensures Valid() && next == old(next) + 1 && done == old(done) + {old(busy)[w]}
      ensures busy == if old(next) < count then old(busy)[w := old(next)] else old(busy) - {w}
    {
      Count(w);
      Proceed(w);
    }

    /** All workers run up to their first await. Requests only come to be in flight. */
    method Start()
      requires Valid() && next == 0 && busy == map[]
      modifies this`next, this`busy, this`sent
      ensures Valid() && (busy == map[] ==> next >= count) && next == limit
      ensures |busy| == if count < 1 then 0 else limit
    {
      var w := 0;
      while w < limit
        invariant w <= limit && Valid() && next == w
        invariant busy.Keys == if count < 1 then {} else Below(w)
      {
        Proceed(w);
        w := w + 1;
      }
      if count >= 1 { KeysSize(busy, limit); }
    }

    /** Answers arrive, in any order, until all workers have stopped. `peak` is the most requests that were in flight. */
    method Drain() returns (ghost peak: nat)
      requires Valid() && (busy == map[] ==> next >= count) && |busy| == if count < 1 then 0 else limit
      modifies this`next, this`busy, this`sent, this`result, this`done
      ensures Valid() && busy == map[] && next >= count && peak == if count < 1 then 0 else limit
    {
      peak := |busy|;
      while busy != map[]
        invariant Valid() && (busy == map[] ==> next >= count)
        invariant if count < 1 then busy == map[] && peak == 0 else peak == limit
        decreases Max0(count - next), |busy|
      {
        var v :| v in busy;
        Resume(v);
        InFlight();
        peak := Larger(peak, |busy|);
      }
    }

    lemma Finished()
      requires Valid() && busy == map[] && next >= count
      ensures done == Below(count) && sent == Indices(Max0(count))
    {
    }
  }

  lemma KeysSize(m: map<nat, nat>, n: nat)
    requires m.Keys == Below(n)
    ensures |m| == n
  {
    BelowSize(n);
    assert |m| == |m.Keys|;
  }

  function Larger(a: nat, b: nat): nat { if a > b then a else b }

  lemma ValuesAdded(m: map<nat, nat>, w: nat, i: nat)
    requires w !in m
    ensures m[w := i].Values == m.Values + {i}
  {
    assert m[w := i][w] == i;
    forall j | j in m.Values ensures j in m[w := i].Values {
      var v :| v in m && m[v] == j;
      assert m[w := i][v] == j;
    }
  }

  lemma ValuesRemoved(m: map<nat, nat>, w: nat)
    requires w in m
    ensures forall j :: j in m.Values && j != m[w] ==> j in (m - {w}).Values
  {
    forall j | j in m.Values && j != m[w] ensures j in (m - {w}).Values {
      var v :| v in m && m[v] == j;
      assert (m - {w})[v] == j;
    }
  }

  function Limit(concurrency: int, count: int): (r: nat)
    ensures r == 1 || (1 < r <= concurrency && r <= count)
    ensures (concurrency < 1 || count < 1 || r == concurrency || r == count)
  {
    var m := if concurrency < count then concurrency else count;
    if m > 1 then m else 1
  }

  /**
    Whatever the order in which answers arrive, the run ends, each index is sent once, in order, and
    the tallies are those of the sequential run. As many requests as allowed and wanted are in flight together
    at some time, and never more.
  */
  method RunParallel(count: int, concurrency: int, outcomes: nat -> Outcome)
    returns (result: Tally, sent: seq<nat>, ghost peak: nat)
    ensures result == TallyOf(outcomes, Below(count), count)
    ensures sent == Indices(Max0(count))
    ensures peak == if count < 1 then 0 else if concurrency < 1 then 1 else if concurrency < count then concurrency else count
  {
    var run := new ParallelRun(count, concurrency, outcomes);
    run.Start();
    peak := run.Drain();
    run.Finished();
    result, sent := run.result, run.sent;
  }

  /** The requests of a run, in the order in which they are sent. The duplicate scenarios share one key. */
  function RequestsOf(scenario: Scenario, config: LoadConfig, count: nat, sharedKey: string, draws: nat -> Draws): (r: seq<LoadRequest>)
    ensures |r| == count
  {
    var key := if RepeatsKey(scenario) then Some(sharedKey) else None;
    seq(count, i requires 0 <= i < count => BuildScenarioRequest(scenario, config, i, key, draws(i)))
  }

  lemma DuplicatesShareTheKey(scenario: Scenario, config: LoadConfig, count: nat, sharedKey: string, draws: nat -> Draws, i: nat)
    requires i < count
    ensures RequestsOf(scenario, config, count, sharedKey, draws)[i].key == if RepeatsKey(scenario) then sharedKey else draws(i).key
  {
    RequestsMean(scenario, config, i, if RepeatsKey(scenario) then Some(sharedKey) else None, draws(i));
  }

  /** What the load test panel does for a scenario: nothing for an invalid count, or one run of that many requests. */
  method RunScenario(
    scenario: Scenario, config: LoadConfig, concurrency: int, sharedKey: string, draws: nat -> Draws, outcomes: nat -> Outcome)
    returns (result: Option<Tally>, sent: seq<LoadRequest>, ghost peak: nat)
    ensures var count := if RepeatsKey(scenario) then config.duplicateCount else config.burstCount;
            if count < 1 then result.None? && sent == [] && peak == 0
            else
              && sent == RequestsOf(scenario, config, count, sharedKey, draws)
              && result == Some(TallyOf(outcomes, Below(count), count))
              && result.value.ok + result.value.fail + result.value.duplicates == count
              && peak == if scenario == DuplicateSeq || scenario == Staggered || concurrency < 1 then 1
                         else if concurrency < count then concurrency else count
  {
    var count := ScenarioCount(scenario, config);
    if count < 1 {
      return None, [], 0;
    }
    var tally, indices;
    if scenario == DuplicateSeq || scenario == Staggered {
      tally, indices, peak := RunSequential(count, outcomes);
    } else {
      tally, indices, peak := RunParallel(count, concurrency, outcomes);
    }
    TalliesAddUp(outcomes, Below(count), count);
    BelowSize(count);
    var key := if RepeatsKey(scenario) then Some(sharedKey) else None;
    sent := seq(|indices|, i requires 0 <= i < |indices| =>
                BuildScenarioRequest(scenario, config, indices[i], key, draws(indices[i])));
    result := Some(tally);
  }
}
