/**
 * Running sessions and the physics layers they occupy, shared by both
 * `PopulationController`s.
 */
module Sessions {
  /** A running simulation session: its init data and the physics layer it
      was given; `id` stands for the session object's identity. */
  datatype Session<T> = Session(id: nat, data: T, layer: string)

  /** The layers the running sessions occupy. */
  function UsedLayers<T>(running: map<nat, Session<T>>): set<string> {
    set k | k in running :: running[k].layer
  }

  /** No two running sessions share a layer. */
  ghost predicate DistinctLayers<T>(running: map<nat, Session<T>>) {
    forall a, b :: a in running && b in running && a != b ==> running[a].layer != running[b].layer
  }

  /** Sessions on distinct layers occupy as many layers as there are sessions. */
  lemma {:induction false} UsedLayersCount<T>(running: map<nat, Session<T>>)
    requires DistinctLayers(running)
    ensures |UsedLayers(running)| == |running|
    decreases |running|
  {
    if |running| > 0 {
      var k :| k in running;
      var rest := running - {k};
      UsedLayersCount(rest);
      forall l | l in UsedLayers(running)
        ensures l in UsedLayers(rest) + {running[k].layer}
      {
        var j :| j in running && running[j].layer == l;
        if j != k {
          assert j in rest;
        }
      }
      assert UsedLayers(running) == UsedLayers(rest) + {running[k].layer};
      assert running[k].layer !in UsedLayers(rest);
      assert |rest| == |running| - 1;
    }
  }

  /** Below capacity, some configured layer is free. */
  lemma FreeLayerExists<T>(running: map<nat, Session<T>>, layers: set<string>)
    requires DistinctLayers(running) && UsedLayers(running) <= layers
    requires |running| < |layers|
    ensures exists l :: l in layers && l !in UsedLayers(running)
  {
    UsedLayersCount(running);
    var used := UsedLayers(running);
    SplitCard(layers, used);
    var l :| l in layers - used;
  }

  /** The scheduler's invariant: sessions are keyed by their ids, which are
      below the next id, and each occupies its own configured layer. */
  ghost predicate Scheduled<T>(running: map<nat, Session<T>>, nextId: nat, layers: set<string>) {
    (forall k :: k in running ==> k < nextId && running[k].id == k && running[k].layer in layers) &&
    DistinctLayers(running)
  }

  /** So the running sessions never exceed the configured layers. */
  lemma ScheduledWithinCapacity<T>(running: map<nat, Session<T>>, nextId: nat, layers: set<string>)
    requires Scheduled(running, nextId, layers)
    ensures |running| <= |layers|
  {
    UsedLayersCount(running);
    SplitCard(layers, UsedLayers(running));
  }

  lemma SplitCard(whole: set<string>, part: set<string>)
    requires part <= whole
    ensures |whole| == |part| + |whole - part|
  {
    assert whole == part + (whole - part);
  }

  /** Starting a session with fresh id on a free layer keeps the invariant. */
  lemma StartKeepsScheduled<T>(running: map<nat, Session<T>>, nextId: nat, layers: set<string>, data: T, layer: string)
    requires Scheduled(running, nextId, layers)
    requires layer in layers && layer !in UsedLayers(running)
    ensures nextId !in running
    ensures Scheduled(running[nextId := Session(nextId, data, layer)], nextId + 1, layers)
  {
    var r := running[nextId := Session(nextId, data, layer)];
    forall a, b | a in r && b in r && a != b
      ensures r[a].layer != r[b].layer
    {
      if a == nextId {
        assert b in running && running[b].layer in UsedLayers(running);
      } else if b == nextId {
        assert a in running && running[a].layer in UsedLayers(running);
      }
    }
  }

  /** `later` keeps every session of `earlier` unchanged and adds only
      sessions with ids from `nextId` on. */
  ghost predicate Keeps<T>(earlier: map<nat, Session<T>>, nextId: nat, later: map<nat, Session<T>>) {
    (forall k :: k in earlier ==> k in later && later[k] == earlier[k]) &&
    (forall k :: k in later && k !in earlier ==> nextId <= k)
  }

  /** `later` is `earlier` with one session more, for `data`, with id
      `nextId`, on a layer no session of `earlier` occupies. */
  ghost predicate StartedOne<T>(earlier: map<nat, Session<T>>, nextId: nat, data: T, later: map<nat, Session<T>>) {
    nextId !in earlier && nextId in later &&
    later == earlier[nextId := Session(nextId, data, later[nextId].layer)] &&
    later[nextId].layer !in UsedLayers(earlier)
  }

  /** Each id below `nextId` was handed to one start, in order, and a
      running session holds the data it was started with. */
  ghost predicate StartedData<T>(running: map<nat, Session<T>>, nextId: nat, started: seq<T>) {
    nextId == |started| &&
    forall k :: k in running ==> k < |started| && running[k].data == started[k]
  }

  /** Starting a session for `data` with the next id keeps the ids and the
      starts in step. */
  lemma StartKeepsStartedData<T>(running: map<nat, Session<T>>, nextId: nat, started: seq<T>, data: T, layer: string)
    requires StartedData(running, nextId, started)
    ensures StartedData(running[nextId := Session(nextId, data, layer)], nextId + 1, started + [data])
  {
  }

  /** A session that runs after some steps but did not before was started
      from the queue: the session with id `n0 + j` holds the `j`-th item
      taken from the head of the queue `q0`. */
  lemma StartedFromQueue<T>(r0: map<nat, Session<T>>, n0: nat, q0: seq<T>, s0: seq<T>,
                            r: map<nat, Session<T>>, q: seq<T>, s: seq<T>)
    requires |s0| == n0 && ServedInOrder(q0, q, s0, s) && Keeps(r0, n0, r)
    requires StartedData(r, |s|, s)
    ensures forall k :: k in r && k !in r0 ==>
      n0 <= k < n0 + (|q0| - |q|) && r[k].data == q0[k - n0]
  {
    forall k | k in r && k !in r0
      ensures n0 <= k < n0 + (|q0| - |q|) && r[k].data == q0[k - n0]
    {
      assert s[k] == q0[..|q0| - |q|][k - n0];
    }
  }

  /** The finish reports of the sessions `done`, with their scores, in order. */
  function Reports<T>(running: map<nat, Session<T>>, done: seq<nat>, scores: seq<real>): seq<(T, real)>
    requires |done| == |scores| && forall i :: 0 <= i < |done| ==> done[i] in running
  {
    seq(|done|, i requires 0 <= i < |done| => (running[done[i]].data, scores[i]))
  }

  /** The ids listed in `done`. */
  function IdSet(done: seq<nat>): set<nat> {
    set x | x in done
  }

  /** One round of `SimulateStep`'s removal loop: the session `done[i]` is
      removed and the following `PopulationStep` keeps what remains. */
  ghost predicate RemovedSoFar<T>(r0: map<nat, Session<T>>, n0: nat, done: seq<nat>, i: nat,
                                   r: map<nat, Session<T>>)
    requires i <= |done|
  {
    Keeps(r0 - IdSet(done[..i]), n0, r) && forall j :: 0 <= j < i ==> done[j] !in r
  }

  lemma KeepsAfterRemoval<T>(r0: map<nat, Session<T>>, n0: nat, done: seq<nat>, i: nat,
                             r1: map<nat, Session<T>>, n1: nat, r2: map<nat, Session<T>>)
    requires i < |done| && n0 <= n1
    requires forall j, k :: 0 <= j < k < |done| ==> done[j] != done[k]
    requires forall k :: k in r0 ==> k < n0
    requires forall j :: 0 <= j < |done| ==> done[j] in r0
    requires RemovedSoFar(r0, n0, done, i, r1)
    requires Keeps(r1 - {done[i]}, n1, r2)
    ensures RemovedSoFar(r0, n0, done, i + 1, r2)
  {
    assert done[i] !in done[..i];
    assert IdSet(done[..i + 1]) == IdSet(done[..i]) + {done[i]} by {
      assert done[..i + 1] == done[..i] + [done[i]];
    }
  }

  /** The next session to remove is still running, so removing it leaves one
      session fewer. */
  lemma RemovedStillRunning<T>(r0: map<nat, Session<T>>, n0: nat, done: seq<nat>, i: nat,
                               r: map<nat, Session<T>>)
    requires i < |done|
    requires forall j, k :: 0 <= j < k < |done| ==> done[j] != done[k]
    requires forall j :: 0 <= j < |done| ==> done[j] in r0
    requires RemovedSoFar(r0, n0, done, i, r)
    ensures done[i] in r && |r - {done[i]}| == |r| - 1
  {
    assert done[i] !in done[..i];
    assert done[i] in r0 - IdSet(done[..i]);
    assert (r - {done[i]}).Keys == r.Keys - {done[i]};
  }

  /** Distinct ids of running sessions are no more than the sessions. */
  lemma {:induction false} DistinctIdsFit<T>(done: seq<nat>, running: map<nat, Session<T>>)
    requires forall i :: 0 <= i < |done| ==> done[i] in running
    requires forall i, j :: 0 <= i < j < |done| ==> done[i] != done[j]
    ensures |done| <= |running|
    decreases |done|
  {
    if |done| > 0 {
      var last := done[|done| - 1];
      var rest := running - {last};
      assert rest.Keys == running.Keys - {last};
      DistinctIdsFit(done[..|done| - 1], rest);
    }
  }

  /** The counts after `i` rounds of `SimulateStep`'s removal loop in the
      controller that fills every free layer: sessions only move from the
      queue to the layers, after a round either the queue is empty or every
      layer is in use, and running out has fired once iff the queue was empty
      and the last running session was removed. */
  ghost predicate FilledSoFar(r0: int, q0: int, cap: int, i: int, r: int, q: int, fired: int) {
    r + q == r0 - i + q0 &&
    (i > 0 ==> q == 0 || r == cap) &&
    fired == (if q0 == 0 && i == r0 && i > 0 then 1 else 0)
  }

  lemma FilledStep(r0: int, q0: int, cap: int, i: int, r: int, q: int, fired: int,
                   r2: int, q2: int, fired2: int)
    requires FilledSoFar(r0, q0, cap, i, r, q, fired)
    requires 0 <= i < r0 && 0 <= q <= q0 && r <= cap
    requires r - 1 + q == r2 + q2 && (q2 == 0 || r2 == cap) && 0 <= q2
    requires q == 0 ==> fired2 == fired + (if r - 1 == 0 then 1 else 0)
    requires q != 0 ==> fired2 == fired
    ensures FilledSoFar(r0, q0, cap, i + 1, r2, q2, fired2)
  {
  }

  lemma FilledCount(r0: int, q0: int, cap: int, d: int, r: int, q: int, fired: int)
    requires FilledSoFar(r0, q0, cap, d, r, q, fired) && d > 0 && r <= cap && 0 <= q
    ensures r == (if r0 - d + q0 <= cap then r0 - d + q0 else cap)
  {
  }

  /** The counts after `i` rounds of the removal loop in the controller that
      starts at most one session per step: each round replaces the removed
      session with the queue head while there is one. */
  ghost predicate RefilledSoFar(r0: int, q0: int, i: int, r: int, q: int, fired: int) {
    r + q == r0 - i + q0 &&
    q == (if i <= q0 then q0 - i else 0) &&
    fired == (if q0 == 0 && i == r0 && i > 0 then 1 else 0)
  }

  /** The counts one round of that loop changes, from `r` running, `q`
      queued and `o` reports of running out: with a queue, its head takes the
      freed layer; without one, one session fewer runs, and running out fires
      iff none is left. */
  predicate RefillRound(r: int, q: int, o: int, r2: int, q2: int, o2: int) {
    if q != 0 then r2 == r && q2 == q - 1 && o2 == o
    else r2 == r - 1 && q2 == 0 && o2 == o + (if r == 1 then 1 else 0)
  }

  lemma RefilledStep(r0: int, q0: int, i: int, r: int, q: int, fired: int,
                     r2: int, q2: int, fired2: int)
    requires RefilledSoFar(r0, q0, i, r, q, fired)
    requires 0 <= i < r0 && 0 <= q0
    requires RefillRound(r, q, fired, r2, q2, fired2)
    ensures RefilledSoFar(r0, q0, i + 1, r2, q2, fired2)
  {
  }

  lemma RefilledCount(r0: int, q0: int, d: int, r: int, q: int, fired: int)
    requires RefilledSoFar(r0, q0, d, r, q, fired)
    ensures r == r0 - d + (if d <= q0 then d else q0)
  {
  }

  /** With nothing to remove, the sessions and the queue stay as they are. */
  lemma NothingRemoved<T>(r: map<nat, Session<T>>, n: nat, q: seq<T>, s: seq<T>)
    ensures Keeps(r - IdSet([]), n, r) && ServedInOrder(q, q, s, s)
  {
    assert r - IdSet([]) == r;
    assert q[|q| - |q|..] == q && s + q[..0] == s;
  }

  /** After the last round every listed session is gone. */
  lemma RemovedAll<T>(r0: map<nat, Session<T>>, n0: nat, done: seq<nat>, r: map<nat, Session<T>>)
    requires RemovedSoFar(r0, n0, done, |done|, r)
    ensures Keeps(r0 - IdSet(done), n0, r)
    ensures forall j :: 0 <= j < |done| ==> done[j] !in r
  {
    assert done[..|done|] == done;
  }

  /** The population queue is served in FIFO order: what left it is its
      oldest part, and that is exactly what was started, in order. */
  predicate ServedInOrder<T(==)>(oldQueue: seq<T>, queue: seq<T>, oldStarted: seq<T>, started: seq<T>) {
    |queue| <= |oldQueue| &&
    queue == oldQueue[|oldQueue| - |queue|..] &&
    started == oldStarted + oldQueue[..|oldQueue| - |queue|]
  }

  lemma ServedInOrderTrans<T>(q0: seq<T>, q1: seq<T>, q2: seq<T>, s0: seq<T>, s1: seq<T>, s2: seq<T>)
    requires ServedInOrder(q0, q1, s0, s1) && ServedInOrder(q1, q2, s1, s2)
    ensures ServedInOrder(q0, q2, s0, s2)
  {
    var n1 := |q0| - |q1|;
    var n2 := |q1| - |q2|;
    assert q0[..n1 + n2] == q0[..n1] + q1[..n2];
  }
}

/**
 * `PopulationController` of the UnityRLEnvironment project: each
 * `PopulationStep` fills every free layer from the queue.
 */
module PopulationRL {
  import opened Sessions

  class PopulationController<T(==)> {
    /** The init data waiting to be simulated, oldest first. */
    var population: seq<T>
    var running: map<nat, Session<T>>
    var nextId: nat
    /** The configured physics layers (a set, as the source's `HashSet`). */
    const layers: set<string>
    /** Arguments of `onSessionStartedSimulation`, in order. */
    var started: seq<T>
    /** Arguments of `onSessionFinishedSimulation`, in order. */
    var finished: seq<(T, real)>
    /** How often `onOutOfSimulationSessionInitData` fired. */
    var outOfData: nat

    /** The sessions are scheduled, and every id handed out so far belongs
        to one start: the session with id `k`, while it runs, holds the
        `k`-th data started. */
    ghost predicate Valid()
      reads this
    {
      Scheduled(running, nextId, layers) && StartedData(running, nextId, started)
    }

    /** `Awake` and `Initialize`. */
    constructor (layers: set<string>)
      ensures Valid()
      ensures this.layers == layers && population == [] && running == map[]
      ensures started == [] && finished == [] && outOfData == 0
    {
      this.layers := layers;
      population, running, nextId := [], map[], 0;
      started, finished, outOfData := [], [], 0;
    }

    /** `EnqueueCreature`: append to the queue, nothing else. */
    method EnqueueCreature(creature: T)
      modifies this
      ensures population == old(population) + [creature]
      ensures running == old(running) && nextId == old(nextId)
      ensures started == old(started) && finished == old(finished) && outOfData == old(outOfData)
    {
      population := population + [creature];
    }

    /** `CreateSimulationSessionInstance`: signal, then run on `layer`. */
    method CreateSimulationSessionInstance(data: T, layer: string)
      requires Valid() && layer in layers && layer !in UsedLayers(running)
      modifies this
      ensures Valid()
      ensures nextId == old(nextId) + 1 && old(nextId) !in old(running)
      ensures running == old(running)[old(nextId) := Session(old(nextId), data, layer)]
      ensures started == old(started) + [data]
      ensures population == old(population) && finished == old(finished) && outOfData == old(outOfData)
    {
      StartKeepsScheduled(running, nextId, layers, data, layer);
      StartKeepsStartedData(running, nextId, started, data, layer);
      started := started + [data];
      running := running[nextId := Session(nextId, data, layer)];
      nextId := nextId + 1;
    }

    /** `PopulationStep`: with an empty queue, report running out iff nothing
        runs either; otherwise start sessions from the queue head until every
        layer is in use or the queue is empty. */
    method PopulationStep()
      requires Valid()
      modifies this
      ensures Valid()
      ensures ServedInOrder(old(population), population, old(started), started)
      ensures old(population) == [] ==>
        running == old(running) && population == [] &&
        outOfData == old(outOfData) + (if |old(running)| == 0 then 1 else 0)
      ensures old(population) != [] ==> outOfData == old(outOfData)
      ensures old(population) != [] ==>
        |running| == (if |old(running)| + |old(population)| <= |layers| then |old(running)| + |old(population)| else |layers|)
      ensures |running| + |population| == |old(running)| + |old(population)|
      ensures population == [] || |running| == |layers|
      ensures nextId >= old(nextId) && Keeps(old(running), old(nextId), running)
      ensures finished == old(finished)
    {
      if |population| == 0 {
        if |running| == 0 {
          outOfData := outOfData + 1;
        }
        return;
      }
      ghost var q0, s0, r0, n0 := population, started, running, nextId;
      assert q0[|q0| - |q0|..] == q0 && s0 + q0[..0] == s0;
      while |running| < |layers| && |population| > 0
        invariant Filling(q0, s0, r0, n0)
        invariant finished == old(finished) && outOfData == old(outOfData)
        decreases |population|
      {
        ghost var q1, s1, r1, n1 := population, started, running, nextId;
        StartHead();
        FillRound(q0, s0, r0, n0, q1, s1, r1, n1);
      }
      ScheduledWithinCapacity(running, nextId, layers);
    }

    /** The state after some rounds of `PopulationStep`'s loop that started
        from the queue `q0`, the starts `s0`, the sessions `r0` and the next
        id `n0`: each round moved the queue head to a new session. */
    ghost predicate Filling(q0: seq<T>, s0: seq<T>, r0: map<nat, Session<T>>, n0: nat)
      reads this
    {
      Valid() && ServedInOrder(q0, population, s0, started) &&
      |running| == |r0| + (|q0| - |population|) &&
      nextId >= n0 && Keeps(r0, n0, running)
    }

    /** One round of `PopulationStep`'s loop: the queue head starts on a free
        layer. */
    method StartHead()
      requires Valid() && population != [] && |running| < |layers|
      modifies this
      ensures Valid() && nextId == old(nextId) + 1
      ensures population == old(population)[1..] && started == old(started) + [old(population)[0]]
      ensures StartedOne(old(running), old(nextId), old(population)[0], running)
      ensures finished == old(finished) && outOfData == old(outOfData)
    {
      FreeLayerExists(running, layers);
      var layer :| layer in layers && layer !in UsedLayers(running);
      var data := population[0];
      population := population[1..];
      CreateSimulationSessionInstance(data, layer);
    }

    /** A round of `PopulationStep`'s loop keeps `Filling`, from the state
        before it (`q1`, `s1`, `r1`, `n1`) and what `StartHead` promises. */
    lemma FillRound(q0: seq<T>, s0: seq<T>, r0: map<nat, Session<T>>, n0: nat,
                    q1: seq<T>, s1: seq<T>, r1: map<nat, Session<T>>, n1: nat)
      requires ServedInOrder(q0, q1, s0, s1) && |r1| == |r0| + (|q0| - |q1|)
      requires n1 >= n0 && Keeps(r0, n0, r1) && q1 != []
      requires Valid() && nextId == n1 + 1
      requires population == q1[1..] && started == s1 + [q1[0]]
      requires StartedOne(r1, n1, q1[0], running)
      ensures Filling(q0, s0, r0, n0)
    {
      assert ServedInOrder(q1, population, s1, started);
      ServedInOrderTrans(q0, q1, population, s0, s1, started);
      assert running.Keys == r1.Keys + {n1};
    }

    /** `StartSimulations`: one `PopulationStep`, which starts as many queued
        sessions as there are free layers, or reports running out. */
    method StartSimulations()
      requires Valid()
      modifies this
      ensures Valid()
      ensures ServedInOrder(old(population), population, old(started), started)
      ensures old(population) == [] ==>
        running == old(running) && population == [] &&
        outOfData == old(outOfData) + (if |old(running)| == 0 then 1 else 0)
      ensures old(population) != [] ==> outOfData == old(outOfData)
      ensures old(population) != [] ==>
        |running| == (if |old(running)| + |old(population)| <= |layers| then |old(running)| + |old(population)| else |layers|)
      ensures population == [] || |running| == |layers|
      ensures nextId >= old(nextId) && Keeps(old(running), old(nextId), running)
      ensures finished == old(finished)
    {
      PopulationStep();
    }

    /** The bookkeeping of `SimulateStep`: the sessions that finished this
        step (`done`, with their `scores`) are reported in order, then each is
        removed and followed by one `PopulationStep`. */
    method FinishSessions(done: seq<nat>, scores: seq<real>)
      requires Valid() && |done| == |scores|
      requires forall i :: 0 <= i < |done| ==> done[i] in running
      requires forall i, j :: 0 <= i < j < |done| ==> done[i] != done[j]
      modifies this
      ensures Valid()
      ensures finished == old(finished) + Reports(old(running), done, scores)
      ensures forall i :: 0 <= i < |done| ==> done[i] !in running
      ensures nextId >= old(nextId) && Keeps(old(running) - IdSet(done), old(nextId), running)
      ensures ServedInOrder(old(population), population, old(started), started)
      ensures |done| == 0 ==>
        running == old(running) && population == old(population) && started == old(started) &&
        nextId == old(nextId) && outOfData == old(outOfData)
      ensures |done| > 0 ==>
        |running| == (if |old(running)| - |done| + |old(population)| <= |layers|
                      then |old(running)| - |done| + |old(population)| else |layers|)
      ensures outOfData == old(outOfData) +
        (if old(population) == [] && |done| == |old(running)| && |done| > 0 then 1 else 0)
    {
      ReportFinished(done, scores);
      RemoveFinished(done);
    }

    /** The first loop of `SimulateStep`: report each finished session. */
    method ReportFinished(done: seq<nat>, scores: seq<real>)
      requires |done| == |scores|
      requires forall i :: 0 <= i < |done| ==> done[i] in running
      modifies this
      ensures finished == old(finished) + Reports(old(running), done, scores)
      ensures running == old(running) && nextId == old(nextId)
      ensures population == old(population) && started == old(started) && outOfData == old(outOfData)
    {
      var i := 0;
      while i < |done|
        invariant 0 <= i <= |done| && running == old(running)
        invariant finished == old(finished) + Reports(old(running), done, scores)[..i]
        invariant population == old(population) && started == old(started) && nextId == old(nextId)
        invariant outOfData == old(outOfData)
      {
        finished := finished + [(running[done[i]].data, scores[i])];
        i := i + 1;
      }
    }

    /** The second loop of `SimulateStep`: remove each finished session, and
        let the population step fill its layer. */
    method RemoveFinished(done: seq<nat>)
      requires Valid()
      requires forall i :: 0 <= i < |done| ==> done[i] in running
      requires forall i, j :: 0 <= i < j < |done| ==> done[i] != done[j]
      modifies this
      ensures Valid() && finished == old(finished)
      ensures forall i :: 0 <= i < |done| ==> done[i] !in running
      ensures nextId >= old(nextId) && Keeps(old(running) - IdSet(done), old(nextId), running)
      ensures ServedInOrder(old(population), population, old(started), started)
      ensures |done| == 0 ==>
        running == old(running) && population == old(population) && started == old(started) &&
        nextId == old(nextId) && outOfData == old(outOfData)
      ensures |done| > 0 ==>
        |running| == (if |old(running)| - |done| + |old(population)| <= |layers|
                      then |old(running)| - |done| + |old(population)| else |layers|)
      ensures outOfData == old(outOfData) +
        (if old(population) == [] && |done| == |old(running)| && |done| > 0 then 1 else 0)
    {
      if |done| == 0 {
        NothingRemoved(running, nextId, population, started);
      } else {
        RemoveEach(done);
      }
    }

    /** The removal loop proper, for at least one finished session. */
    method RemoveEach(done: seq<nat>)
      requires |done| > 0 && Valid()
      requires forall i :: 0 <= i < |done| ==> done[i] in running
      requires forall i, j :: 0 <= i < j < |done| ==> done[i] != done[j]
      modifies this
      ensures Valid() && finished == old(finished)
      ensures forall i :: 0 <= i < |done| ==> done[i] !in running
      ensures nextId >= old(nextId) && Keeps(old(running) - IdSet(done), old(nextId), running)
      ensures ServedInOrder(old(population), population, old(started), started)
      ensures |running| == (if |old(running)| - |done| + |old(population)| <= |layers|
                            then |old(running)| - |done| + |old(population)| else |layers|)
      ensures outOfData == old(outOfData) +
        (if old(population) == [] && |done| == |old(running)| then 1 else 0)
    {
      ghost var r0, n0, q0, s0, o0 := running, nextId, population, started, outOfData;
      StartRemoving(done);
      RemoveRounds(done, r0, n0, q0, s0, o0);
      EndRemoving(done, r0, n0, q0, s0, o0);
    }

    /** The loop itself: one `RemoveRound` per finished session. */
    method RemoveRounds(done: seq<nat>, ghost r0: map<nat, Session<T>>, ghost n0: nat,
                        ghost q0: seq<T>, ghost s0: seq<T>, ghost o0: nat)
      requires Removing(done, 0, r0, n0, q0, s0, o0)
      modifies this
      ensures Removing(done, |done|, r0, n0, q0, s0, o0) && finished == old(finished)
    {
      var i := 0;
      while i < |done|
        invariant i <= |done| && Removing(done, i, r0, n0, q0, s0, o0) && finished == old(finished)
      {
        RemoveRound(done, i, r0, n0, q0, s0, o0);
        i := i + 1;
      }
    }

    lemma StartRemoving(done: seq<nat>)
      requires Valid()
      requires forall i :: 0 <= i < |done| ==> done[i] in running
      requires forall i, j :: 0 <= i < j < |done| ==> done[i] != done[j]
      ensures Removing(done, 0, running, nextId, population, started, outOfData)
    {
      DistinctIdsFit(done, running);
      assert IdSet(done[..0]) == {};
    }

    lemma EndRemoving(done: seq<nat>, r0: map<nat, Session<T>>, n0: nat, q0: seq<T>, s0: seq<T>, o0: nat)
      requires |done| > 0 && Removing(done, |done|, r0, n0, q0, s0, o0)
      ensures Valid() && nextId >= n0
      ensures forall i :: 0 <= i < |done| ==> done[i] !in running
      ensures Keeps(r0 - IdSet(done), n0, running)
      ensures ServedInOrder(q0, population, s0, started)
      ensures |running| == (if |r0| - |done| + |q0| <= |layers| then |r0| - |done| + |q0| else |layers|)
      ensures outOfData == o0 + (if q0 == [] && |done| == |r0| then 1 else 0)
    {
      RemovedAll(r0, n0, done, running);
      ScheduledWithinCapacity(running, nextId, layers);
      FilledCount(|r0|, |q0|, |layers|, |done|, |running|, |population|, outOfData - o0);
    }

    /** The state after `i` rounds of the removal loop that started from the
        sessions `r0`, the next id `n0`, the queue `q0`, the starts `s0` and
        `o0` reports of running out. */
    ghost predicate Removing(done: seq<nat>, i: nat, r0: map<nat, Session<T>>, n0: nat,
                             q0: seq<T>, s0: seq<T>, o0: nat)
      reads this
    {
      i <= |done| <= |r0| && Valid() && nextId >= n0 &&
      (forall j :: 0 <= j < |done| ==> done[j] in r0) &&
      (forall j, k :: 0 <= j < k < |done| ==> done[j] != done[k]) &&
      (forall k :: k in r0 ==> k < n0) &&
      RemovedSoFar(r0, n0, done, i, running) &&
      ServedInOrder(q0, population, s0, started) &&
      outOfData >= o0 &&
      FilledSoFar(|r0|, |q0|, |layers|, i, |running|, |population|, outOfData - o0)
    }

    /** One round of the removal loop, kept apart so that each round is
        reasoned about on its own. */
    method RemoveRound(done: seq<nat>, i: nat, ghost r0: map<nat, Session<T>>, ghost n0: nat,
                       ghost q0: seq<T>, ghost s0: seq<T>, ghost o0: nat)
      requires i < |done| && Removing(done, i, r0, n0, q0, s0, o0)
      modifies this
      ensures Removing(done, i + 1, r0, n0, q0, s0, o0) && finished == old(finished)
    {
      ghost var q1, s1, r1, n1, o1 := population, started, running, nextId, outOfData;
      RemovedStillRunning(r0, n0, done, i, running);
      ScheduledWithinCapacity(running, nextId, layers);
      RemoveOne(done[i]);
      RoundDone(done, i, r0, n0, q0, s0, o0, r1, n1, q1, s1, o1);
    }

    /** The state a round leaves, from the state before it (`r1`, `n1`, `q1`,
        `s1`, `o1`) and what `RemoveOne` promises. */
    lemma RoundDone(done: seq<nat>, i: nat, r0: map<nat, Session<T>>, n0: nat, q0: seq<T>, s0: seq<T>, o0: nat,
                    r1: map<nat, Session<T>>, n1: nat, q1: seq<T>, s1: seq<T>, o1: nat)
      requires i < |done| <= |r0| && n1 >= n0 && o1 >= o0
      requires forall j :: 0 <= j < |done| ==> done[j] in r0
      requires forall j, k :: 0 <= j < k < |done| ==> done[j] != done[k]
      requires forall k :: k in r0 ==> k < n0
      requires RemovedSoFar(r0, n0, done, i, r1) && ServedInOrder(q0, q1, s0, s1)
      requires FilledSoFar(|r0|, |q0|, |layers|, i, |r1|, |q1|, o1 - o0)
      requires done[i] in r1 && |r1| <= |layers|
      requires Valid() && nextId >= n1 && ServedInOrder(q1, population, s1, started)
      requires Keeps(r1 - {done[i]}, n1, running)
      requires |running| + |population| == |r1| - 1 + |q1| && (population == [] || |running| == |layers|)
      requires q1 == [] ==> outOfData == o1 + (if |r1| == 1 then 1 else 0)
      requires q1 != [] ==> outOfData == o1
      ensures Removing(done, i + 1, r0, n0, q0, s0, o0)
    {
      ServedInOrderTrans(q0, q1, population, s0, s1, started);
      KeepsAfterRemoval(r0, n0, done, i, r1, n1, running);
      FilledStep(|r0|, |q0|, |layers|, i, |r1|, |q1|, o1 - o0, |running|, |population|, outOfData - o0);
    }

    /** One round of the removal loop: the session leaves its layer and a
        `PopulationStep` follows. */
    method RemoveOne(id: nat)
      requires Valid() && id in running
      modifies this
      ensures Valid() && finished == old(finished)
      ensures ServedInOrder(old(population), population, old(started), started)
      ensures nextId >= old(nextId) && Keeps(old(running) - {id}, old(nextId), running)
      ensures |running| + |population| == |old(running)| - 1 + |old(population)|
      ensures population == [] || |running| == |layers|
      ensures old(population) == [] ==>
        outOfData == old(outOfData) + (if |old(running)| == 1 then 1 else 0)
      ensures old(population) != [] ==> outOfData == old(outOfData)
    {
      assert (running - {id}).Keys == running.Keys - {id};
      running := running - {id};
      PopulationStep();
    }

    /** `IsOutOfSimulationSessionInitData`. */
    method IsOutOfSimulationSessionInitData() returns (out: bool)
      ensures out <==> population == [] && running == map[]
    {
      out := |population| == 0 && |running| == 0;
    }
  }
}

/**
 * `PopulationController` of the CreatureSimulation project: each
 * `PopulationStep` starts at most one session, and enqueueing runs one.
 */
module PopulationSim {
  import opened Sessions

  class PopulationController<T(==)> {
    var population: seq<T>
    var running: map<nat, Session<T>>
    var nextId: nat
    const layers: set<string>
    /** The creatures started, in order. */
    var started: seq<T>
    /** Arguments of `onCreatureFinishedSimulation`, in order. */
    var finished: seq<(T, real)>
    /** How often `onOutOfCreatures` fired. */
    var outOfCreatures: nat

    /** The sessions are scheduled, and every id handed out so far belongs
        to one start: the session with id `k`, while it runs, holds the
        `k`-th data started. */
    ghost predicate Valid()
      reads this
    {
      Scheduled(running, nextId, layers) && StartedData(running, nextId, started)
    }

    constructor (layers: set<string>)
      ensures Valid()
      ensures this.layers == layers && population == [] && running == map[]
      ensures started == [] && finished == [] && outOfCreatures == 0
    {
      this.layers := layers;
      population, running, nextId := [], map[], 0;
      started, finished, outOfCreatures := [], [], 0;
    }

    /** `PopulationStep`: with an empty queue, report running out iff nothing
        runs; at capacity, nothing; otherwise start the queue head on a free
        layer. */
    method PopulationStep()
      requires Valid()
      modifies this
      ensures Valid()
      ensures ServedInOrder(old(population), population, old(started), started)
      ensures old(population) == [] ==>
        running == old(running) && population == [] &&
        outOfCreatures == old(outOfCreatures) + (if |old(running)| == 0 then 1 else 0)
      ensures old(population) != [] && |old(running)| >= |layers| ==>
        running == old(running) && population == old(population) && started == old(started)
      ensures old(population) != [] && |old(running)| < |layers| ==>
        population == old(population)[1..] && started == old(started) + [old(population)[0]] &&
        StartedOne(old(running), old(nextId), old(population)[0], running)
      ensures old(population) != [] ==> outOfCreatures == old(outOfCreatures)
      ensures nextId >= old(nextId) && Keeps(old(running), old(nextId), running)
      ensures finished == old(finished)
    {
      if |population| == 0 {
        if |running| == 0 {
          outOfCreatures := outOfCreatures + 1;
        }
        return;
      }
      if |running| >= |layers| {
        return;
      }
      FreeLayerExists(running, layers);
      var layer :| layer in layers && layer !in UsedLayers(running);
      var data := population[0];
      population := population[1..];
      CreateSimulationSessionInstance(data, layer);
    }

    /** `CreateSimulationSessionInstance`: run `data` on `layer`; this version
        signals nothing. */
    method CreateSimulationSessionInstance(data: T, layer: string)
      requires Valid() && layer in layers && layer !in UsedLayers(running)
      modifies this
      ensures Valid()
      ensures nextId == old(nextId) + 1 && old(nextId) !in old(running)
      ensures running == old(running)[old(nextId) := Session(old(nextId), data, layer)]
      ensures started == old(started) + [data]
      ensures population == old(population) && finished == old(finished) && outOfCreatures == old(outOfCreatures)
    {
      StartKeepsScheduled(running, nextId, layers, data, layer);
      StartKeepsStartedData(running, nextId, started, data, layer);
      running := running[nextId := Session(nextId, data, layer)];
      nextId := nextId + 1;
      started := started + [data];
    }

    /** `EnqueueCreature`: append, then one `PopulationStep`. */
    method EnqueueCreature(creature: T)
      requires Valid()
      modifies this
      ensures Valid()
      ensures ServedInOrder(old(population) + [creature], population, old(started), started)
      ensures nextId >= old(nextId) && Keeps(old(running), old(nextId), running)
      ensures |old(running)| < |layers| ==>
        population == (old(population) + [creature])[1..] &&
        StartedOne(old(running), old(nextId), (old(population) + [creature])[0], running)
      ensures |old(running)| < |layers| && old(population) == [] ==>
        population == [] && StartedOne(old(running), old(nextId), creature, running)
      ensures |old(running)| >= |layers| ==>
        population == old(population) + [creature] && running == old(running) && started == old(started)
      ensures outOfCreatures == old(outOfCreatures) && finished == old(finished)
    {
      population := population + [creature];
      PopulationStep();
    }

    /** The bookkeeping of `SimulateStep`, as in the other controller. */
    method FinishSessions(done: seq<nat>, scores: seq<real>)
      requires Valid() && |done| == |scores|
      requires forall i :: 0 <= i < |done| ==> done[i] in running
      requires forall i, j :: 0 <= i < j < |done| ==> done[i] != done[j]
      modifies this
      ensures Valid()
      ensures finished == old(finished) + Reports(old(running), done, scores)
      ensures forall i :: 0 <= i < |done| ==> done[i] !in running
      ensures nextId >= old(nextId) && Keeps(old(running) - IdSet(done), old(nextId), running)
      ensures ServedInOrder(old(population), population, old(started), started)
      ensures |done| == 0 ==>
        running == old(running) && population == old(population) && started == old(started) &&
        nextId == old(nextId) && outOfCreatures == old(outOfCreatures)
      ensures |running| == |old(running)| - |done| +
        (if |done| <= |old(population)| then |done| else |old(population)|)
      ensures outOfCreatures == old(outOfCreatures) +
        (if old(population) == [] && |done| == |old(running)| && |done| > 0 then 1 else 0)
    {
      ReportFinished(done, scores);
      RemoveFinished(done);
    }

    /** The first loop of `SimulateStep`: report each finished session. */
    method ReportFinished(done: seq<nat>, scores: seq<real>)
      requires |done| == |scores|
      requires forall i :: 0 <= i < |done| ==> done[i] in running
      modifies this
      ensures finished == old(finished) + Reports(old(running), done, scores)
      ensures running == old(running) && nextId == old(nextId)
      ensures population == old(population) && started == old(started) && outOfCreatures == old(outOfCreatures)
    {
      var i := 0;
      while i < |done|
        invariant 0 <= i <= |done| && running == old(running)
        invariant finished == old(finished) + Reports(old(running), done, scores)[..i]
        invariant population == old(population) && started == old(started) && nextId == old(nextId)
        invariant outOfCreatures == old(outOfCreatures)
      {
        finished := finished + [(running[done[i]].data, scores[i])];
        i := i + 1;
      }
    }

    /** The second loop of `SimulateStep`: remove each finished session, and
        let the population step fill its layer. */
    method RemoveFinished(done: seq<nat>)
      requires Valid()
      requires forall i :: 0 <= i < |done| ==> done[i] in running
      requires forall i, j :: 0 <= i < j < |done| ==> done[i] != done[j]
      modifies this
      ensures Valid() && finished == old(finished)
      ensures forall i :: 0 <= i < |done| ==> done[i] !in running
      ensures nextId >= old(nextId) && Keeps(old(running) - IdSet(done), old(nextId), running)
      ensures ServedInOrder(old(population), population, old(started), started)
      ensures |done| == 0 ==>
        running == old(running) && population == old(population) && started == old(started) &&
        nextId == old(nextId) && outOfCreatures == old(outOfCreatures)
      ensures |running| == |old(running)| - |done| +
        (if |done| <= |old(population)| then |done| else |old(population)|)
      ensures outOfCreatures == old(outOfCreatures) +
        (if old(population) == [] && |done| == |old(running)| && |done| > 0 then 1 else 0)
    {
      if |done| == 0 {
        NothingRemoved(running, nextId, population, started);
      } else {
        RemoveEach(done);
      }
    }

    /** The removal loop proper, for at least one finished session. */
    method RemoveEach(done: seq<nat>)
      requires |done| > 0 && Valid()
      requires forall i :: 0 <= i < |done| ==> done[i] in running
      requires forall i, j :: 0 <= i < j < |done| ==> done[i] != done[j]
      modifies this
      ensures Valid() && finished == old(finished)
      ensures forall i :: 0 <= i < |done| ==> done[i] !in running
      ensures nextId >= old(nextId) && Keeps(old(running) - IdSet(done), old(nextId), running)
      ensures ServedInOrder(old(population), population, old(started), started)
      ensures |running| == |old(running)| - |done| +
        (if |done| <= |old(population)| then |done| else |old(population)|)
      ensures outOfCreatures == old(outOfCreatures) +
        (if old(population) == [] && |done| == |old(running)| then 1 else 0)
    {
      ghost var r0, n0, q0, s0, o0 := running, nextId, population, started, outOfCreatures;
      StartRemoving(done);
      RemoveRounds(done, r0, n0, q0, s0, o0);
      EndRemoving(done, r0, n0, q0, s0, o0);
    }

    /** The loop itself: one `RemoveRound` per finished session. */
    method RemoveRounds(done: seq<nat>, ghost r0: map<nat, Session<T>>, ghost n0: nat,
                        ghost q0: seq<T>, ghost s0: seq<T>, ghost o0: nat)
      requires Removing(done, 0, r0, n0, q0, s0, o0)
      modifies this
      ensures Removing(done, |done|, r0, n0, q0, s0, o0) && finished == old(finished)
    {
      var i := 0;
      while i < |done|
        invariant i <= |done| && Removing(done, i, r0, n0, q0, s0, o0) && finished == old(finished)
      {
        RemoveRound(done, i, r0, n0, q0, s0, o0);
        i := i + 1;
      }
    }

    lemma StartRemoving(done: seq<nat>)
      requires Valid()
      requires forall i :: 0 <= i < |done| ==> done[i] in running
      requires forall i, j :: 0 <= i < j < |done| ==> done[i] != done[j]
      ensures Removing(done, 0, running, nextId, population, started, outOfCreatures)
    {
      DistinctIdsFit(done, running);
      assert IdSet(done[..0]) == {};
    }

    lemma EndRemoving(done: seq<nat>, r0: map<nat, Session<T>>, n0: nat, q0: seq<T>, s0: seq<T>, o0: nat)
      requires |done| > 0 && Removing(done, |done|, r0, n0, q0, s0, o0)
      ensures Valid() && nextId >= n0
      ensures forall i :: 0 <= i < |done| ==> done[i] !in running
      ensures Keeps(r0 - IdSet(done), n0, running)
      ensures ServedInOrder(q0, population, s0, started)
      ensures |running| == |r0| - |done| + (if |done| <= |q0| then |done| else |q0|)
      ensures outOfCreatures == o0 + (if q0 == [] && |done| == |r0| then 1 else 0)
    {
      RemovedAll(r0, n0, done, running);
      RefilledCount(|r0|, |q0|, |done|, |running|, |population|, outOfCreatures - o0);
    }

    /** The state after `i` rounds of the removal loop that started from the
        sessions `r0`, the next id `n0`, the queue `q0`, the starts `s0` and
        `o0` reports of running out. */
    ghost predicate Removing(done: seq<nat>, i: nat, r0: map<nat, Session<T>>, n0: nat,
                             q0: seq<T>, s0: seq<T>, o0: nat)
      reads this
    {
      i <= |done| <= |r0| && Valid() && nextId >= n0 &&
      (forall j :: 0 <= j < |done| ==> done[j] in r0) &&
      (forall j, k :: 0 <= j < k < |done| ==> done[j] != done[k]) &&
      (forall k :: k in r0 ==> k < n0) &&
      RemovedSoFar(r0, n0, done, i, running) &&
      ServedInOrder(q0, population, s0, started) &&
      outOfCreatures >= o0 &&
      RefilledSoFar(|r0|, |q0|, i, |running|, |population|, outOfCreatures - o0)
    }

    /** One round of the removal loop, kept apart so that each round is
        reasoned about on its own. */
    method RemoveRound(done: seq<nat>, i: nat, ghost r0: map<nat, Session<T>>, ghost n0: nat,
                       ghost q0: seq<T>, ghost s0: seq<T>, ghost o0: nat)
      requires i < |done| && Removing(done, i, r0, n0, q0, s0, o0)
      modifies this
      ensures Removing(done, i + 1, r0, n0, q0, s0, o0) && finished == old(finished)
    {
      ghost var q1, s1, r1, n1, o1 := population, started, running, nextId, outOfCreatures;
      RemovedStillRunning(r0, n0, done, i, running);
      RemoveOne(done[i]);
      RoundDone(done, i, r0, n0, q0, s0, o0, r1, n1, q1, s1, o1);
    }

    /** The state a round leaves, from the state before it (`r1`, `n1`, `q1`,
        `s1`, `o1`) and what `RemoveOne` promises. */
    lemma RoundDone(done: seq<nat>, i: nat, r0: map<nat, Session<T>>, n0: nat, q0: seq<T>, s0: seq<T>, o0: nat,
                    r1: map<nat, Session<T>>, n1: nat, q1: seq<T>, s1: seq<T>, o1: nat)
      requires i < |done| <= |r0| && n1 >= n0 && o1 >= o0
      requires forall j :: 0 <= j < |done| ==> done[j] in r0
      requires forall j, k :: 0 <= j < k < |done| ==> done[j] != done[k]
      requires forall k :: k in r0 ==> k < n0
      requires RemovedSoFar(r0, n0, done, i, r1) && ServedInOrder(q0, q1, s0, s1)
      requires RefilledSoFar(|r0|, |q0|, i, |r1|, |q1|, o1 - o0)
      requires Valid() && nextId >= n1 && ServedInOrder(q1, population, s1, started)
      requires Keeps(r1 - {done[i]}, n1, running)
      requires RefillRound(|r1|, |q1|, o1, |running|, |population|, outOfCreatures)
      ensures Removing(done, i + 1, r0, n0, q0, s0, o0)
    {
      ServedInOrderTrans(q0, q1, population, s0, s1, started);
      KeepsAfterRemoval(r0, n0, done, i, r1, n1, running);
      RefilledStep(|r0|, |q0|, i, |r1|, |q1|, o1 - o0, |running|, |population|, outOfCreatures - o0);
    }

    /** One round of the removal loop: the session leaves its layer and a
        `PopulationStep` gives the freed layer to the queue head, if any. */
    method RemoveOne(id: nat)
      requires Valid() && id in running
      modifies this
      ensures Valid() && finished == old(finished)
      ensures ServedInOrder(old(population), population, old(started), started)
      ensures nextId >= old(nextId) && Keeps(old(running) - {id}, old(nextId), running)
      ensures old(population) != [] ==>
        |population| == |old(population)| - 1 && |running| == |old(running)| &&
        outOfCreatures == old(outOfCreatures)
      ensures old(population) == [] ==>
        population == [] && |running| == |old(running)| - 1 &&
        outOfCreatures == old(outOfCreatures) + (if |old(running)| == 1 then 1 else 0)
      ensures RefillRound(|old(running)|, |old(population)|, old(outOfCreatures),
                          |running|, |population|, outOfCreatures)
    {
      ScheduledWithinCapacity(running, nextId, layers);
      assert (running - {id}).Keys == running.Keys - {id};
      running := running - {id};
      PopulationStep();
    }

    /** `IsOutOfCreatures`. */
    method IsOutOfCreatures() returns (out: bool)
      ensures out <==> population == [] && running == map[]
    {
      out := |population| == 0 && |running| == 0;
    }
  }
}
