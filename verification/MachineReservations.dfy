/**
 Per-machine reservations of workers (cope/db/repo.py, cope/runner/worker_server.py): enrolling a
 pool, connecting, replacing sessions, moving to another machine, disconnecting and revoking.
 */
module MachineReservations {
  import opened Common

  type WorkerId = nat
  type PoolId = nat
  type SessionId = nat
  type MachineId = int

  /** Connections compare the whole report, enrolments only cores and RAM. */
  datatype Hardware = Hardware(physicalCores: nat, totalRamMb: nat, other: string)

  datatype Status = Minted | Connected | Downloading | Ready | Busy | Offline

  datatype Worker = Worker(
    status: Status, session: Option<SessionId>, machine: Option<MachineId>, pool: Option<PoolId>,
    threads: nat, hashMb: nat, hw: Option<Hardware>)

  datatype PoolStatus = PoolPending | PoolEnrolled | PoolRevoked

  datatype Pool = Pool(status: PoolStatus, slotCount: nat, threads: nat, hashMb: nat)

  /** The tables, and the sessions that a serving loop still stands behind. */
  datatype State = State(
    workers: map<WorkerId, Worker>, pools: map<PoolId, Pool>, live: map<SessionId, WorkerId>,
    nextWorker: nat, nextPool: nat, nextSession: nat)

  const DEFAULT_THREADS := 1
  const DEFAULT_HASH_MB := 32

  predicate Online(status: Status)
  {
    status == Connected || status == Downloading || status == Ready || status == Busy
  }

  /** The workers whose resources a machine has to set aside: pool slots, and everybody connected. */
  predicate CountedOn(w: Worker, m: MachineId)
  {
    w.machine == Some(m) && (w.pool.Some? || Online(w.status))
  }

  predicate Counts(workers: map<WorkerId, Worker>, m: MachineId, id: WorkerId, except: Option<WorkerId>)
  {
    id in workers && Some(id) != except && CountedOn(workers[id], m)
  }

  /** Threads reserved on a machine by the workers with an id below n. */
  function Threads(workers: map<WorkerId, Worker>, m: MachineId, except: Option<WorkerId>, n: nat): nat
  {
    if n == 0 then 0
    else Threads(workers, m, except, n - 1) + if Counts(workers, m, n - 1, except) then workers[n - 1].threads else 0
  }

  function Hash(workers: map<WorkerId, Worker>, m: MachineId, except: Option<WorkerId>, n: nat): nat
  {
    if n == 0 then 0
    else Hash(workers, m, except, n - 1) + if Counts(workers, m, n - 1, except) then workers[n - 1].hashMb else 0
  }

  // ---------------------------------------------------------------- pools

  function AddPool(s: State, slotCount: nat, threads: nat, hashMb: nat): State
  {
    s.(pools := s.pools[s.nextPool := Pool(PoolPending, slotCount, threads, hashMb)], nextPool := s.nextPool + 1)
  }

  predicate SameCapacity(a: Hardware, b: Hardware)
  {
    a.physicalCores == b.physicalCores && a.totalRamMb == b.totalRamMb
  }

  predicate EnrolmentFits(s: State, pool: Pool, m: MachineId, hw: Hardware)
  {
    && (forall id | id in s.workers && CountedOn(s.workers[id], m) && s.workers[id].hw.Some? :: SameCapacity(s.workers[id].hw.value, hw))
    && pool.slotCount * pool.threads + Threads(s.workers, m, None, s.nextWorker) <= hw.physicalCores
    && pool.slotCount * pool.hashMb + Hash(s.workers, m, None, s.nextWorker) <= hw.totalRamMb
  }

  /** The insertion loop: one offline worker row for each slot. */
  function AddSlots(s: State, p: PoolId, slots: nat, m: MachineId, hw: Hardware): State
    requires p in s.pools
  {
    if slots == 0 then s
    else
      var before := AddSlots(s, p, slots - 1, m, hw);
      var slot := Worker(Offline, None, Some(m), Some(p), s.pools[p].threads, s.pools[p].hashMb, Some(hw));
      before.(workers := before.workers[before.nextWorker := slot], nextWorker := before.nextWorker + 1)
  }

  /** enroll_worker_pool */
  function Enrol(s: State, p: PoolId, m: MachineId, hw: Hardware): State
  {
    if p !in s.pools || s.pools[p].status != PoolPending || !EnrolmentFits(s, s.pools[p], m, hw) then s
    else
      var added := AddSlots(s, p, s.pools[p].slotCount, m, hw);
      added.(pools := s.pools[p := s.pools[p].(status := PoolEnrolled)])
  }

  // ---------------------------------------------------------------- connecting

  /** What a hello brings: the worker it authenticated as, and the resources that row had then. */
  datatype Hello = Hello(worker: WorkerId, threads: nat, hashMb: nat, machine: MachineId, hw: Hardware)

  /** _validate_worker_resources, after the comparison with the worker's own reservation. */
  predicate ConnectionFits(s: State, hello: Hello)
  {
    && (forall id | id in s.workers && Counts(s.workers, hello.machine, id, Some(hello.worker)) ::
          s.workers[id].hw.None? || s.workers[id].hw == Some(hello.hw))
    && hello.threads + Threads(s.workers, hello.machine, Some(hello.worker), s.nextWorker) <= hello.hw.physicalCores
    && hello.hashMb + Hash(s.workers, hello.machine, Some(hello.worker), s.nextWorker) <= hello.hw.totalRamMb
  }

  /** The row after the upsert: a worker that was deleted since it authenticated comes back with default resources. */
  function ConnectedRow(s: State, hello: Hello): Worker
  {
    if hello.worker in s.workers then
      s.workers[hello.worker].(
        status := Connected, session := Some(s.nextSession), machine := Some(hello.machine), hw := Some(hello.hw))
    else
      Worker(Connected, Some(s.nextSession), Some(hello.machine), None, DEFAULT_THREADS, DEFAULT_HASH_MB, Some(hello.hw))
  }

  /** _record_connection */
  function Connect(s: State, hello: Hello): State
  {
    if hello.worker >= s.nextWorker || hello.threads == 0 || hello.hashMb == 0 then s
    else if hello.worker in s.workers
            && (s.workers[hello.worker].threads != hello.threads || s.workers[hello.worker].hashMb != hello.hashMb) then s
    else if !ConnectionFits(s, hello) then s
    else
      s.(workers := s.workers[hello.worker := ConnectedRow(s, hello)],
         live := s.live[s.nextSession := hello.worker],
         nextSession := s.nextSession + 1)
  }

  predicate Answers(s: State, session: SessionId)
  {
    session in s.live && s.live[session] in s.workers && s.workers[s.live[session]].session == Some(session)
  }

  /** update_worker_status by the serving loop of a session. */
  function Report(s: State, session: SessionId, status: Status): State
  {
    if !Answers(s, session) || !Online(status) then s
    else s.(workers := s.workers[s.live[session] := s.workers[s.live[session]].(status := status)])
  }

  /** The end of a serving loop; its disconnect is guarded by the session, and may fail. */
  function EndLoop(s: State, session: SessionId, cleanupFails: bool): State
  {
    if session !in s.live then s
    else
      var ended := s.(live := s.live - {session});
      if !Answers(s, session) || cleanupFails then ended
      else ended.(workers := s.workers[s.live[session] := s.workers[s.live[session]].(status := Offline)])
  }

  /** A server restart: no loop survives, and whoever was left online goes offline. */
  function Restart(s: State): State
  {
    s.(live := map[],
       workers := map id | id in s.workers ::
         if Online(s.workers[id].status) then s.workers[id].(status := Offline) else s.workers[id])
  }

  // ---------------------------------------------------------------- the other transactions

  function Mint(s: State, threads: nat, hashMb: nat): State
  {
    s.(workers := s.workers[s.nextWorker := Worker(Minted, None, None, None, threads, hashMb, None)],
       nextWorker := s.nextWorker + 1)
  }

  function Remove(s: State, w: WorkerId): State
  {
    s.(workers := map id | id in s.workers && id != w :: s.workers[id])
  }

  function RevokePool(s: State, p: PoolId): State
  {
    if p !in s.pools then s
    else
      s.(workers := map id | id in s.workers && s.workers[id].pool != Some(p) :: s.workers[id],
         pools := s.pools[p := s.pools[p].(status := PoolRevoked)])
  }

  datatype Step =
    | DoMint(threads: nat, hashMb: nat)
    | DoAddPool(slotCount: nat, threads: nat, hashMb: nat)
    | DoEnrol(pool: PoolId, machine: MachineId, hw: Hardware)
    | DoConnect(hello: Hello)
    | DoReport(session: SessionId, status: Status)
    | DoEndLoop(session: SessionId, cleanupFails: bool)
    | DoRestart
    | DoRemove(worker: WorkerId)
    | DoRevokePool(pool: PoolId)

  function Apply(s: State, step: Step): State
  {
    match step
    case DoMint(threads, hashMb) => Mint(s, threads, hashMb)
    case DoAddPool(slotCount, threads, hashMb) => AddPool(s, slotCount, threads, hashMb)
    case DoEnrol(p, m, hw) => Enrol(s, p, m, hw)
    case DoConnect(hello) => Connect(s, hello)
    case DoReport(session, status) => Report(s, session, status)
    case DoEndLoop(session, cleanupFails) => EndLoop(s, session, cleanupFails)
    case DoRestart => Restart(s)
    case DoRemove(w) => Remove(s, w)
    case DoRevokePool(p) => RevokePool(s, p)
  }

  function Run(s: State, steps: seq<Step>): State
  {
    if steps == [] then s else Apply(Run(s, steps[..|steps| - 1]), steps[|steps| - 1])
  }

  // ---------------------------------------------------------------- the invariant

  /** A counted worker reported hardware, and all reservations of its machine fit into it. */
  ghost predicate Fits(s: State, m: MachineId, id: WorkerId)
    requires id in s.workers
  {
    CountedOn(s.workers[id], m) ==>
      && s.workers[id].hw.Some?
      && Threads(s.workers, m, None, s.nextWorker) <= s.workers[id].hw.value.physicalCores
      && Hash(s.workers, m, None, s.nextWorker) <= s.workers[id].hw.value.totalRamMb
  }

  /** Counted workers of a machine agree on cores and RAM. */
  ghost predicate Agree(s: State, m: MachineId, a: WorkerId, b: WorkerId)
    requires a in s.workers && b in s.workers
  {
    CountedOn(s.workers[a], m) && CountedOn(s.workers[b], m) && s.workers[a].hw.Some? && s.workers[b].hw.Some? ==>
      SameCapacity(s.workers[a].hw.value, s.workers[b].hw.value)
  }

  /** The worker of a live session that still answers to it is online. */
  ghost predicate LiveOk(s: State, session: SessionId)
    requires session in s.live
  {
    session < s.nextSession && (Answers(s, session) ==> Online(s.workers[s.live[session]].status))
  }

  ghost predicate Reserved(s: State)
  {
    && (forall m: MachineId, id | id in s.workers :: Fits(s, m, id))
    && (forall m: MachineId, a, b | a in s.workers && b in s.workers :: Agree(s, m, a, b))
  }

  ghost predicate Inv(s: State)
  {
    && Reserved(s)
    && (forall session | session in s.live :: LiveOk(s, session))
    && (forall id | id in s.workers :: id < s.nextWorker)
  }

  function Empty(): State { State(map[], map[], map[], 0, 0, 0) }

  // ---------------------------------------------------------------- sums

  lemma {:induction false} SumsFollowCounted(before: map<WorkerId, Worker>, after: map<WorkerId, Worker>, m: MachineId, n: nat)
    requires forall id: nat | id < n && Counts(after, m, id, None) ::
               Counts(before, m, id, None) && after[id].threads == before[id].threads && after[id].hashMb == before[id].hashMb
    ensures Threads(after, m, None, n) <= Threads(before, m, None, n)
    ensures Hash(after, m, None, n) <= Hash(before, m, None, n)
  {
    if n > 0 {
      SumsFollowCounted(before, after, m, n - 1);
      assert Counts(after, m, n - 1, None) ==> Counts(before, m, n - 1, None);
    }
  }

  /** Leaving one worker out takes away exactly its reservation. */
  lemma {:induction false} SumsWithout(workers: map<WorkerId, Worker>, m: MachineId, w: WorkerId, n: nat)
    ensures var there := Counts(workers, m, w, None) && w < n;
            && Threads(workers, m, None, n) == Threads(workers, m, Some(w), n) + (if there then workers[w].threads else 0)
            && Hash(workers, m, None, n) == Hash(workers, m, Some(w), n) + (if there then workers[w].hashMb else 0)
  {
    if n > 0 {
      SumsWithout(workers, m, w, n - 1);
    }
  }

  lemma {:induction false} SumsIgnore(before: map<WorkerId, Worker>, after: map<WorkerId, Worker>, m: MachineId, w: WorkerId, n: nat)
    requires forall id: nat | id != w && id < n :: (id in before <==> id in after) && (id in before ==> before[id] == after[id])
    ensures Threads(after, m, Some(w), n) == Threads(before, m, Some(w), n)
    ensures Hash(after, m, Some(w), n) == Hash(before, m, Some(w), n)
  {
    if n > 0 {
      SumsIgnore(before, after, m, w, n - 1);
    }
  }

  // ---------------------------------------------------------------- steps that reserve nothing new

  /** Whoever is counted afterwards was counted before, with the same reservation and hardware. */
  ghost predicate NothingNew(s: State, a: State)
  {
    && a.nextWorker == s.nextWorker
    && forall m: MachineId, id: WorkerId | Counts(a.workers, m, id, None) ::
         && Counts(s.workers, m, id, None) && a.workers[id].threads == s.workers[id].threads
         && a.workers[id].hashMb == s.workers[id].hashMb && a.workers[id].hw == s.workers[id].hw
  }

  lemma {:induction false} StillReserved(s: State, a: State)
    requires Reserved(s) && NothingNew(s, a)
    ensures Reserved(a)
  {
    hide Threads, Hash, CountedOn, SameCapacity;
    forall m: MachineId, id | id in a.workers ensures Fits(a, m, id) {
      StillFits(s, a, m, id);
    }
    forall m: MachineId, x, y | x in a.workers && y in a.workers ensures Agree(a, m, x, y) {
      StillAgree(s, a, m, x, y);
    }
  }

  lemma {:induction false} StillFits(s: State, a: State, m: MachineId, id: WorkerId)
    requires Reserved(s) && NothingNew(s, a) && id in a.workers
    ensures Fits(a, m, id)
  {
    hide Threads, Hash, Agree;
    if CountedOn(a.workers[id], m) {
      assert Counts(a.workers, m, id, None);
      assert Fits(s, m, id);
      SumsFollowCounted(s.workers, a.workers, m, s.nextWorker);
    }
  }

  lemma {:induction false} StillAgree(s: State, a: State, m: MachineId, x: WorkerId, y: WorkerId)
    requires Reserved(s) && NothingNew(s, a) && x in a.workers && y in a.workers
    ensures Agree(a, m, x, y)
  {
    hide Threads, Hash, Fits, SameCapacity;
    if CountedOn(a.workers[x], m) && CountedOn(a.workers[y], m) {
      assert Counts(a.workers, m, x, None) && Counts(a.workers, m, y, None);
      assert Agree(s, m, x, y);
    }
  }

  lemma {:induction false} ReportKeeps(s: State, session: SessionId, status: Status)
    requires Inv(s)
    ensures Inv(Report(s, session, status))
  {
    hide Reserved;
    var a := Report(s, session, status);
    if a != s {
      assert LiveOk(s, session);
      forall other | other in a.live ensures LiveOk(a, other) {
        assert LiveOk(s, other);
      }
      StillReserved(s, a);
    }
  }

  lemma {:induction false} EndLoopKeeps(s: State, session: SessionId, cleanupFails: bool)
    requires Inv(s)
    ensures Inv(EndLoop(s, session, cleanupFails))
  {
    hide Reserved;
    var a := EndLoop(s, session, cleanupFails);
    if a != s {
      forall other | other in a.live ensures LiveOk(a, other) {
        assert LiveOk(s, other);
      }
      StillReserved(s, a);
    }
  }

  lemma {:induction false} RestartKeeps(s: State)
    requires Inv(s)
    ensures Inv(Restart(s))
  {
    hide Reserved;
    StillReserved(s, Restart(s));
  }

  lemma {:induction false} RemovalsKeep(s: State, w: WorkerId, p: PoolId)
    requires Inv(s)
    ensures Inv(Remove(s, w)) && Inv(RevokePool(s, p))
  {
    hide Reserved;
    StillReserved(s, Remove(s, w));
    StillReserved(s, RevokePool(s, p));
    forall other | other in s.live ensures LiveOk(Remove(s, w), other) && LiveOk(RevokePool(s, p), other) {
      assert LiveOk(s, other);
    }
  }

  // ---------------------------------------------------------------- new rows

  lemma {:induction false} UncountedRow(s: State, w: Worker)
    requires Inv(s) && (forall m: MachineId :: !CountedOn(w, m)) && w.session.None?
    ensures Inv(s.(workers := s.workers[s.nextWorker := w], nextWorker := s.nextWorker + 1))
  {
    hide CountedOn, SameCapacity, Online;
    var a := s.(workers := s.workers[s.nextWorker := w], nextWorker := s.nextWorker + 1);
    forall m: MachineId ensures Threads(a.workers, m, None, a.nextWorker) <= Threads(s.workers, m, None, s.nextWorker)
                             && Hash(a.workers, m, None, a.nextWorker) <= Hash(s.workers, m, None, s.nextWorker)
    {
      SumsFollowCounted(s.workers, a.workers, m, s.nextWorker);
    }
    hide Threads, Hash;
    forall m: MachineId, id | id in a.workers ensures Fits(a, m, id) {
      if id in s.workers {
        assert Fits(s, m, id);
      }
    }
    forall m: MachineId, x, y | x in a.workers && y in a.workers ensures Agree(a, m, x, y) {
      if x in s.workers && y in s.workers {
        assert Agree(s, m, x, y);
      }
    }
    forall session | session in a.live ensures LiveOk(a, session) {
      assert LiveOk(s, session);
    }
  }

  // ---------------------------------------------------------------- enrolment

  /** What a number of new slots adds to the sums of every machine, and what it leaves alone. */
  lemma {:induction false} SlotsAdd(s: State, p: PoolId, slots: nat, m: MachineId, hw: Hardware, any: MachineId)
    requires p in s.pools && forall id | id in s.workers :: id < s.nextWorker
    ensures var a := AddSlots(s, p, slots, m, hw);
            && a.nextWorker == s.nextWorker + slots && a.live == s.live && a.nextSession == s.nextSession && a.pools == s.pools
            && Threads(a.workers, any, None, a.nextWorker) ==
               Threads(s.workers, any, None, s.nextWorker) + (if any == m then slots * s.pools[p].threads else 0)
            && Hash(a.workers, any, None, a.nextWorker) ==
               Hash(s.workers, any, None, s.nextWorker) + (if any == m then slots * s.pools[p].hashMb else 0)
  {
    hide Threads, Hash;
    if slots > 0 {
      SlotsAdd(s, p, slots - 1, m, hw, any);
      var before := AddSlots(s, p, slots - 1, m, hw);
      SlotRows(s, p, slots - 1, m, hw);
      AppendedRow(before.workers, any, before.nextWorker,
                  Worker(Offline, None, Some(m), Some(p), s.pools[p].threads, s.pools[p].hashMb, Some(hw)));
    } else {
      NoProduct(s.pools[p].threads);
      NoProduct(s.pools[p].hashMb);
    }
  }

  lemma {:induction false} NoProduct(x: nat)
    ensures 0 * x == 0
  {
  }

  lemma {:induction false} AppendedRow(workers: map<WorkerId, Worker>, m: MachineId, n: nat, row: Worker)
    ensures Threads(workers[n := row], m, None, n + 1) == Threads(workers, m, None, n) + (if CountedOn(row, m) then row.threads else 0)
    ensures Hash(workers[n := row], m, None, n + 1) == Hash(workers, m, None, n) + (if CountedOn(row, m) then row.hashMb else 0)
  {
    hide CountedOn;
    SameBelow(workers, workers[n := row], m, n);
  }

  lemma {:induction false} SameBelow(before: map<WorkerId, Worker>, after: map<WorkerId, Worker>, m: MachineId, n: nat)
    requires forall id: nat | id < n :: (id in before <==> id in after) && (id in before ==> before[id] == after[id])
    ensures Threads(after, m, None, n) == Threads(before, m, None, n) && Hash(after, m, None, n) == Hash(before, m, None, n)
  {
    if n > 0 {
      SameBelow(before, after, m, n - 1);
    }
  }

  /** The rows of the slots: old rows stay, new ones are offline slots of the pool on the machine. */
  lemma {:induction false} SlotRows(s: State, p: PoolId, slots: nat, m: MachineId, hw: Hardware)
    requires p in s.pools && forall id | id in s.workers :: id < s.nextWorker
    ensures var a := AddSlots(s, p, slots, m, hw);
            && a.nextWorker == s.nextWorker + slots
            && (forall id | id in s.workers :: id in a.workers && a.workers[id] == s.workers[id])
            && (forall id | id in a.workers :: id < a.nextWorker)
            && (forall id | id in a.workers && id !in s.workers ::
                  a.workers[id] == Worker(Offline, None, Some(m), Some(p), s.pools[p].threads, s.pools[p].hashMb, Some(hw)))
  {
    if slots > 0 {
      SlotRows(s, p, slots - 1, m, hw);
    }
  }

  lemma {:induction false} EnrolKeeps(s: State, p: PoolId, m: MachineId, hw: Hardware)
    requires Inv(s)
    ensures Inv(Enrol(s, p, m, hw))
  {
    hide AddSlots, Threads, Hash, EnrolmentFits, SameCapacity, Online;
    var a := Enrol(s, p, m, hw);
    if p in s.pools && s.pools[p].status == PoolPending && EnrolmentFits(s, s.pools[p], m, hw) {
      SlotRows(s, p, s.pools[p].slotCount, m, hw);
      forall any: MachineId, id | id in a.workers ensures Fits(a, any, id) {
        EnrolledFits(s, p, m, hw, any, id);
      }
      forall any: MachineId, x, y | x in a.workers && y in a.workers ensures Agree(a, any, x, y) {
        EnrolledAgree(s, p, m, hw, any, x, y);
      }
      SlotsAdd(s, p, s.pools[p].slotCount, m, hw, m);
      forall session | session in a.live ensures LiveOk(a, session) {
        assert LiveOk(s, session);
      }
    }
  }

  lemma {:induction false} EnrolledFits(s: State, p: PoolId, m: MachineId, hw: Hardware, any: MachineId, id: WorkerId)
    requires Inv(s) && p in s.pools && s.pools[p].status == PoolPending && EnrolmentFits(s, s.pools[p], m, hw)
    requires id in Enrol(s, p, m, hw).workers
    ensures Fits(Enrol(s, p, m, hw), any, id)
  {
    hide AddSlots, Threads, Hash, Online, LiveOk, Agree;
    SlotRows(s, p, s.pools[p].slotCount, m, hw);
    SlotsAdd(s, p, s.pools[p].slotCount, m, hw, any);
    if id in s.workers {
      assert Fits(s, any, id);
    }
  }

  lemma {:induction false} EnrolledAgree(s: State, p: PoolId, m: MachineId, hw: Hardware, any: MachineId, x: WorkerId, y: WorkerId)
    requires Inv(s) && p in s.pools && s.pools[p].status == PoolPending && EnrolmentFits(s, s.pools[p], m, hw)
    requires x in Enrol(s, p, m, hw).workers && y in Enrol(s, p, m, hw).workers
    ensures Agree(Enrol(s, p, m, hw), any, x, y)
  {
    hide AddSlots, Threads, Hash, Online, LiveOk, Fits;
    SlotRows(s, p, s.pools[p].slotCount, m, hw);
    if x in s.workers && y in s.workers {
      assert Agree(s, any, x, y);
    }
  }

  // ---------------------------------------------------------------- connecting

  /** The row still exists, or the defaults it comes back with find room. */
  predicate RowIsThereOrDefaultFits(s: State, hello: Hello)
  {
    hello.worker in s.workers
    || DEFAULT_HASH_MB + Hash(s.workers, hello.machine, Some(hello.worker), s.nextWorker) <= hello.hw.totalRamMb
  }

  predicate Accepted(s: State, hello: Hello)
  {
    && hello.worker < s.nextWorker && hello.threads > 0 && hello.hashMb > 0
    && (hello.worker in s.workers ==> s.workers[hello.worker].threads == hello.threads && s.workers[hello.worker].hashMb == hello.hashMb)
    && ConnectionFits(s, hello)
  }

  lemma {:induction false} ConnectedSums(s: State, hello: Hello)
    requires Accepted(s, hello)
    ensures var a := Connect(s, hello);
            var row := ConnectedRow(s, hello);
            && Threads(a.workers, hello.machine, None, a.nextWorker) ==
               Threads(s.workers, hello.machine, Some(hello.worker), s.nextWorker) + row.threads
            && Hash(a.workers, hello.machine, None, a.nextWorker) ==
               Hash(s.workers, hello.machine, Some(hello.worker), s.nextWorker) + row.hashMb
  {
    hide Threads, Hash, ConnectionFits;
    var a := Connect(s, hello);
    SumsWithout(a.workers, hello.machine, hello.worker, a.nextWorker);
    SumsIgnore(s.workers, a.workers, hello.machine, hello.worker, s.nextWorker);
  }

  lemma {:induction false} ConnectedFits(s: State, hello: Hello, m: MachineId, id: WorkerId)
    requires Inv(s) && Accepted(s, hello) && RowIsThereOrDefaultFits(s, hello) && id in Connect(s, hello).workers
    ensures Fits(Connect(s, hello), m, id)
  {
    hide Threads, Hash, Online, LiveOk, Agree;
    var a := Connect(s, hello);
    ConnectedSums(s, hello);
    if m == hello.machine {
      if id != hello.worker {
        assert Fits(s, m, id);
        assert Counts(s.workers, m, id, Some(hello.worker)) <==> CountedOn(s.workers[id], m);
      }
    } else if id != hello.worker {
      assert Fits(s, m, id);
      SumsFollowCounted(s.workers, a.workers, m, s.nextWorker);
    }
  }

  lemma {:induction false} ConnectedAgree(s: State, hello: Hello, m: MachineId, x: WorkerId, y: WorkerId)
    requires Inv(s) && Accepted(s, hello) && x in Connect(s, hello).workers && y in Connect(s, hello).workers
    ensures Agree(Connect(s, hello), m, x, y)
  {
    hide Threads, Hash, Online, LiveOk, Fits;
    if x != hello.worker && y != hello.worker {
      assert Agree(s, m, x, y);
    } else if x != hello.worker {
      assert Counts(s.workers, m, x, Some(hello.worker)) <==> CountedOn(s.workers[x], m);
    } else if y != hello.worker {
      assert Counts(s.workers, m, y, Some(hello.worker)) <==> CountedOn(s.workers[y], m);
    }
  }

  /**
   An accepted connection, be it a reconnect, a move to another machine or a change of hardware,
   keeps every machine within its capacity exactly when the worker's row was still there, or the
   default reservation under which a deleted row comes back fits as well.
   */
  lemma {:induction false} ConnectKeeps(s: State, hello: Hello)
    requires Inv(s) && Accepted(s, hello)
    ensures Inv(Connect(s, hello)) <==> RowIsThereOrDefaultFits(s, hello)
  {
    hide Threads, Hash, Online, ConnectionFits, CountedOn, SameCapacity;
    var a := Connect(s, hello);
    if RowIsThereOrDefaultFits(s, hello) {
      forall m: MachineId, id | id in a.workers ensures Fits(a, m, id) {
        ConnectedFits(s, hello, m, id);
      }
      forall m: MachineId, x, y | x in a.workers && y in a.workers ensures Agree(a, m, x, y) {
        ConnectedAgree(s, hello, m, x, y);
      }
      forall session | session in a.live ensures LiveOk(a, session) {
        ConnectedLive(s, hello, session);
      }
    } else {
      DefaultDoesNotFit(s, hello);
    }
  }

  lemma {:induction false} ConnectedLive(s: State, hello: Hello, session: SessionId)
    requires Inv(s) && Accepted(s, hello) && session in Connect(s, hello).live
    ensures LiveOk(Connect(s, hello), session)
  {
    hide Threads, Hash, ConnectionFits, CountedOn, Reserved;
    if session in s.live {
      assert LiveOk(s, session);
    }
  }

  lemma {:induction false} DefaultDoesNotFit(s: State, hello: Hello)
    requires Accepted(s, hello) && !RowIsThereOrDefaultFits(s, hello)
    ensures !Fits(Connect(s, hello), hello.machine, hello.worker)
  {
    hide Threads, Hash;
    ConnectedSums(s, hello);
  }

  // ---------------------------------------------------------------- runs

  /** The only step that can oversubscribe a machine. */
  predicate Harmless(s: State, step: Step)
  {
    step.DoConnect? && Accepted(s, step.hello) ==> RowIsThereOrDefaultFits(s, step.hello)
  }

  lemma {:induction false} RefusedChangesNothing(s: State, hello: Hello)
    requires !Accepted(s, hello)
    ensures Connect(s, hello) == s
  {
    hide ConnectionFits;
  }

  lemma {:induction false} StepKeepsInv(s: State, step: Step)
    requires Inv(s) && Harmless(s, step)
    ensures Inv(Apply(s, step))
  {
    hide Inv, Accepted, RowIsThereOrDefaultFits, Report, EndLoop, Restart, Remove, RevokePool, Enrol, Connect;
    match step
    case DoMint(threads, hashMb) => UncountedRow(s, Worker(Minted, None, None, None, threads, hashMb, None));
    case DoAddPool(slotCount, threads, hashMb) => PoolsDoNotCount(s, AddPool(s, slotCount, threads, hashMb));
    case DoEnrol(p, m, hw) => EnrolKeeps(s, p, m, hw);
    case DoConnect(hello) =>
      if Accepted(s, hello) {
        ConnectKeeps(s, hello);
      } else {
        RefusedChangesNothing(s, hello);
      }
    case DoReport(session, status) => ReportKeeps(s, session, status);
    case DoEndLoop(session, cleanupFails) => EndLoopKeeps(s, session, cleanupFails);
    case DoRestart => RestartKeeps(s);
    case DoRemove(w) => RemovalsKeep(s, w, 0);
    case DoRevokePool(p) => RemovalsKeep(s, 0, p);
  }

  lemma {:induction false} PoolsDoNotCount(s: State, a: State)
    requires Inv(s) && a == s.(pools := a.pools, nextPool := a.nextPool)
    ensures Inv(a)
  {
    hide Reserved;
    StillReserved(s, a);
    forall session | session in a.live ensures LiveOk(a, session) {
      assert LiveOk(s, session);
    }
  }

  /**
   Over every run without such a resurrected row: the counted workers of a machine agree on its
   cores and RAM, and what they reserve together fits into them.
   */
  lemma {:induction false} MachinesAreNeverOversubscribed(steps: seq<Step>, m: MachineId, id: WorkerId)
    requires forall k {:trigger steps[..k]} :: 0 <= k < |steps| ==> Harmless(Run(Empty(), steps[..k]), steps[k])
    requires id in Run(Empty(), steps).workers && CountedOn(Run(Empty(), steps).workers[id], m)
    ensures var s := Run(Empty(), steps);
            && s.workers[id].hw.Some?
            && Threads(s.workers, m, None, s.nextWorker) <= s.workers[id].hw.value.physicalCores
            && Hash(s.workers, m, None, s.nextWorker) <= s.workers[id].hw.value.totalRamMb
            && forall other | other in s.workers && CountedOn(s.workers[other], m) ::
                 s.workers[other].hw.Some? && SameCapacity(s.workers[other].hw.value, s.workers[id].hw.value)
  {
    hide Run, Threads, Hash, CountedOn, SameCapacity, LiveOk;
    RunKeepsInv(steps);
    var s := Run(Empty(), steps);
    assert Fits(s, m, id);
    forall other | other in s.workers && CountedOn(s.workers[other], m)
      ensures s.workers[other].hw.Some? && SameCapacity(s.workers[other].hw.value, s.workers[id].hw.value)
    {
      assert Fits(s, m, other) && Agree(s, m, other, id);
    }
  }

  lemma {:induction false} RunKeepsInv(steps: seq<Step>)
    requires forall k {:trigger steps[..k]} :: 0 <= k < |steps| ==> Harmless(Run(Empty(), steps[..k]), steps[k])
    ensures Inv(Run(Empty(), steps))
  {
    hide Inv, Apply, Harmless;
    if steps == [] {
      EmptyIsFine();
    } else {
      var before := steps[..|steps| - 1];
      forall k {:trigger before[..k]} | 0 <= k < |before| ensures Harmless(Run(Empty(), before[..k]), before[k]) {
        assert before[..k] == steps[..k];
      }
      RunKeepsInv(before);
      assert steps[..|steps| - 1] == before;
      StepKeepsInv(Run(Empty(), before), steps[|steps| - 1]);
    }
  }

  lemma {:induction false} EmptyIsFine()
    ensures Inv(Empty())
  {
  }

  // ---------------------------------------------------------------- the transactions in columns

  /** The worker's resources are set aside on the machine: it is a slot of a pool there, or connected from there. */
  ghost predicate Occupies(w: Worker, m: MachineId)
  {
    w.machine == Some(m) && (w.pool != None || w.status in {Connected, Downloading, Ready, Busy})
  }

  /** A machine has room for so much beside what its other workers occupy. */
  ghost predicate HasRoom(s: State, m: MachineId, except: Option<WorkerId>, threads: int, hashMb: int, hw: Hardware)
  {
    && threads + Threads(s.workers, m, except, s.nextWorker) <= hw.physicalCores
    && hashMb + Hash(s.workers, m, except, s.nextWorker) <= hw.totalRamMb
  }

  lemma {:induction false} CountedMeansOccupies(w: Worker, m: MachineId)
    ensures CountedOn(w, m) <==> Occupies(w, m)
  {
  }

  /** The sums add up the reservations of the workers that occupy the machine, one by one. */
  lemma {:induction false} SumsAddUp(workers: map<WorkerId, Worker>, m: MachineId, except: Option<WorkerId>, n: nat)
    ensures var there := n in workers && Some(n) != except && Occupies(workers[n], m);
            && Threads(workers, m, except, 0) == 0 && Hash(workers, m, except, 0) == 0
            && Threads(workers, m, except, n + 1) == Threads(workers, m, except, n) + (if there then workers[n].threads else 0)
            && Hash(workers, m, except, n + 1) == Hash(workers, m, except, n) + (if there then workers[n].hashMb else 0)
  {
  }

  /**
   A pool is enrolled exactly when it is pending, the workers that occupy the machine report its cores and
   RAM, and there is room for all its slots; then it is enrolled and has its slots, offline, on the machine.
   */
  lemma {:induction false} EnrolsExactly(s: State, p: PoolId, m: MachineId, hw: Hardware)
    requires forall id | id in s.workers :: id < s.nextWorker
    ensures var a := Enrol(s, p, m, hw);
            if p in s.pools && s.pools[p].status == PoolPending
               && (forall id | id in s.workers && Occupies(s.workers[id], m) && s.workers[id].hw.Some? ::
                     s.workers[id].hw.value.physicalCores == hw.physicalCores && s.workers[id].hw.value.totalRamMb == hw.totalRamMb)
               && HasRoom(s, m, None, s.pools[p].slotCount * s.pools[p].threads, s.pools[p].slotCount * s.pools[p].hashMb, hw)
            then
              && a.pools == s.pools[p := s.pools[p].(status := PoolEnrolled)]
              && a.nextWorker == s.nextWorker + s.pools[p].slotCount && a.live == s.live
              && (forall id | id in s.workers :: id in a.workers && a.workers[id] == s.workers[id])
              && (forall id | id in a.workers && id !in s.workers ::
                    a.workers[id] == Worker(Offline, None, Some(m), Some(p), s.pools[p].threads, s.pools[p].hashMb, Some(hw)))
            else a == s
  {
    hide AddSlots, Threads, Hash, CountedOn, Occupies;
    forall id | id in s.workers ensures CountedOn(s.workers[id], m) <==> Occupies(s.workers[id], m) {
      CountedMeansOccupies(s.workers[id], m);
    }
    if p in s.pools {
      SlotRows(s, p, s.pools[p].slotCount, m, hw);
      SlotsAdd(s, p, s.pools[p].slotCount, m, hw, m);
    }
  }

  /**
   A connection is accepted exactly when the worker was issued, asks for what its row reserves if that is
   still there, every other worker that occupies the machine reports the very same hardware or none, and
   there is room; then its row is connected under a new session, and nothing else changes.
   */
  lemma {:induction false} ConnectsExactly(s: State, hello: Hello)
    requires hello.threads > 0 && hello.hashMb > 0
    ensures var a := Connect(s, hello);
            var w, m := hello.worker, hello.machine;
            if w < s.nextWorker
               && (w in s.workers ==> s.workers[w].threads == hello.threads && s.workers[w].hashMb == hello.hashMb)
               && (forall id | id in s.workers && id != w && Occupies(s.workers[id], m) ::
                     s.workers[id].hw == None || s.workers[id].hw == Some(hello.hw))
               && HasRoom(s, m, Some(w), hello.threads, hello.hashMb, hello.hw)
            then
              && a.workers.Keys == s.workers.Keys + {w} && a.pools == s.pools && a.nextWorker == s.nextWorker
              && a.live == s.live[s.nextSession := w] && a.nextSession > s.nextSession
              && a.workers[w].status == Connected && a.workers[w].session == Some(s.nextSession)
              && a.workers[w].machine == Some(m) && a.workers[w].hw == Some(hello.hw)
              && (if w in s.workers then
                    a.workers[w].pool == s.workers[w].pool && a.workers[w].threads == s.workers[w].threads
                    && a.workers[w].hashMb == s.workers[w].hashMb
                  else a.workers[w].pool == None && a.workers[w].threads == 1 && a.workers[w].hashMb == 32)
              && (forall id | id in s.workers && id != w :: a.workers[id] == s.workers[id])
            else a == s
  {
    hide Threads, Hash, Occupies, CountedOn;
    forall id | id in s.workers ensures CountedOn(s.workers[id], hello.machine) <==> Occupies(s.workers[id], hello.machine) {
      CountedMeansOccupies(s.workers[id], hello.machine);
    }
  }

  /** What the other transactions write: new rows, and which workers go offline or away. */
  lemma {:induction false} OtherWrites(s: State, threads: nat, hashMb: nat, slots: nat, w: WorkerId, p: PoolId)
    ensures Mint(s, threads, hashMb).workers == s.workers[s.nextWorker := Worker(Minted, None, None, None, threads, hashMb, None)]
    ensures Mint(s, threads, hashMb).nextWorker == s.nextWorker + 1
    ensures AddPool(s, slots, threads, hashMb).pools == s.pools[s.nextPool := Pool(PoolPending, slots, threads, hashMb)]
    ensures AddPool(s, slots, threads, hashMb).nextPool == s.nextPool + 1
    ensures forall id :: id in Remove(s, w).workers <==> id in s.workers && id != w
    ensures forall id :: p in s.pools ==> (id in RevokePool(s, p).workers <==> id in s.workers && s.workers[id].pool != Some(p))
    ensures p in s.pools ==> RevokePool(s, p).pools == s.pools[p := s.pools[p].(status := PoolRevoked)]
    ensures p !in s.pools ==> RevokePool(s, p) == s
    ensures Restart(s).live == map[] && Restart(s).workers.Keys == s.workers.Keys
    ensures forall id | id in s.workers ::
              Restart(s).workers[id] == if s.workers[id].status in {Connected, Downloading, Ready, Busy}
                                        then s.workers[id].(status := Offline) else s.workers[id]
  {
  }

  /** The end of a loop takes its worker offline, unless the session was replaced or the cleanup fails; a report sets its status. */
  lemma {:induction false} LoopsWrite(s: State, session: SessionId, status: Status, cleanupFails: bool)
    ensures var w := if session in s.live then s.live[session] else 0;
            var current := session in s.live && w in s.workers && s.workers[w].session == Some(session);
            && EndLoop(s, session, cleanupFails).live == s.live - {session}
            && EndLoop(s, session, cleanupFails).workers
               == (if current && !cleanupFails then s.workers[w := s.workers[w].(status := Offline)] else s.workers)
            && Report(s, session, status).workers
               == (if current && status in {Connected, Downloading, Ready, Busy}
                   then s.workers[w := s.workers[w].(status := status)] else s.workers)
            && Report(s, session, status).live == s.live
  {
  }

  // ---------------------------------------------------------------- a run that oversubscribes

  const SMALL := Hardware(4, 32, "")

  /** Two workers of 16 MB each are created; one connects from a machine with 32 MB, and the other is deleted. */
  const DELETION := [DoMint(1, 16), DoMint(1, 16), DoConnect(Hello(1, 1, 16, 7, SMALL)), DoRemove(0)]

  /** The hello of the deleted worker, which authenticated before. */
  const LATE := Hello(0, 1, 16, 7, SMALL)

  const FRESH := Worker(Minted, None, None, None, 1, 16, None)

  const NEIGHBOUR := Worker(Connected, Some(0), Some(7), None, 1, 16, Some(SMALL))

  const BEFORE_DELETION := State(map[0 := FRESH, 1 := NEIGHBOUR], map[], map[0 := 1], 2, 0, 1)

  const AFTER_DELETION := State(map[1 := NEIGHBOUR], map[], map[0 := 1], 2, 0, 1)

  lemma {:induction false} TwoMinted()
    ensures Run(Empty(), DELETION[..2]) == State(map[0 := FRESH, 1 := FRESH], map[], map[], 2, 0, 0)
  {
    assert DELETION[..2][..1] == DELETION[..1] && DELETION[..1][..0] == [];
    assert Run(Empty(), DELETION[..1]) == State(map[0 := FRESH], map[], map[], 1, 0, 0);
  }

  lemma {:induction false} NeighbourConnects()
    ensures Run(Empty(), DELETION[..3]) == BEFORE_DELETION
    ensures Accepted(Run(Empty(), DELETION[..2]), DELETION[2].hello)
  {
    hide Online;
    TwoMinted();
    assert DELETION[..3][..2] == DELETION[..2];
    var s := Run(Empty(), DELETION[..2]);
    SumsOfTwo(s.workers, Some(1));
    assert ConnectionFits(s, DELETION[2].hello);
  }

  lemma {:induction false} SumsOfTwo(workers: map<WorkerId, Worker>, except: Option<WorkerId>)
    ensures Threads(workers, 7, except, 2) == (if Counts(workers, 7, 0, except) then workers[0].threads else 0)
                                              + (if Counts(workers, 7, 1, except) then workers[1].threads else 0)
    ensures Hash(workers, 7, except, 2) == (if Counts(workers, 7, 0, except) then workers[0].hashMb else 0)
                                           + (if Counts(workers, 7, 1, except) then workers[1].hashMb else 0)
  {
    hide CountedOn;
    assert Threads(workers, 7, except, 0) == 0 && Hash(workers, 7, except, 0) == 0;
    assert Threads(workers, 7, except, 1) == if Counts(workers, 7, 0, except) then workers[0].threads else 0;
    assert Hash(workers, 7, except, 1) == if Counts(workers, 7, 0, except) then workers[0].hashMb else 0;
  }

  lemma {:induction false} Deleted()
    ensures Run(Empty(), DELETION) == AFTER_DELETION
  {
    hide Connect, Online;
    NeighbourConnects();
    assert DELETION[..4] == DELETION && DELETION[..3] == DELETION[..|DELETION| - 1];
    assert Remove(BEFORE_DELETION, 0).workers == AFTER_DELETION.workers;
  }

  /**
   Such a connection is reachable: after a harmless run, a worker that was deleted after it
   authenticated is accepted with its 16 MB, comes back with 32, and the machine no longer fits.
   */
  lemma {:induction false} DeletedWorkerOversubscribes()
    ensures var s := Run(Empty(), DELETION);
            && Inv(s) && Accepted(s, LATE) && !RowIsThereOrDefaultFits(s, LATE)
            && !Inv(Run(Empty(), DELETION + [DoConnect(LATE)]))
    ensures var authenticated := Run(Empty(), DELETION[..3]);
            LATE.worker in authenticated.workers && authenticated.workers[LATE.worker].hashMb == LATE.hashMb
  {
    hide Run, Inv, Threads, Hash, Connect, Harmless;
    NeighbourConnects();
    Deleted();
    forall k {:trigger DELETION[..k]} | 0 <= k < |DELETION| ensures Harmless(Run(Empty(), DELETION[..k]), DELETION[k]) {
      DeletionIsHarmless(k);
    }
    RunKeepsInv(DELETION);
    SumsOfTwo(AFTER_DELETION.workers, Some(0));
    ConnectKeeps(AFTER_DELETION, LATE);
    OneMoreStep(DELETION, DoConnect(LATE));
  }

  lemma {:induction false} DeletionIsHarmless(k: nat)
    requires k < |DELETION|
    ensures Harmless(Run(Empty(), DELETION[..k]), DELETION[k])
  {
    hide Run, Accepted;
    if k == 2 {
      TwoMinted();
    }
  }

  lemma {:induction false} OneMoreStep(steps: seq<Step>, step: Step)
    ensures Run(Empty(), steps + [step]) == Apply(Run(Empty(), steps), step)
  {
    hide Apply;
    assert (steps + [step])[..|steps|] == steps;
  }

  // ---------------------------------------------------------------- the transactions with loops

  class WorkerTables {
    var tables: State

    ghost predicate Valid()
      reads this
    {
      Inv(tables)
    }

    constructor ()
      ensures Valid() && tables == Empty()
    {
      tables := Empty();
      new;
      EmptyIsFine();
    }

    /** The check of enroll_worker_pool over the workers that are already on the machine. */
    method CheckExisting(m: MachineId, hw: Hardware) returns (agree: bool, threads: nat, hashMb: nat)
      requires Valid()
      ensures agree <==> forall id | id in tables.workers && CountedOn(tables.workers[id], m) && tables.workers[id].hw.Some? ::
                           SameCapacity(tables.workers[id].hw.value, hw)
      ensures agree ==> threads == Threads(tables.workers, m, None, tables.nextWorker)
      ensures agree ==> hashMb == Hash(tables.workers, m, None, tables.nextWorker)
    {
      hide Fits, Agree, LiveOk, SameCapacity, CountedOn;
      agree, threads, hashMb := true, 0, 0;
      for id := 0 to tables.nextWorker
        invariant agree && threads == Threads(tables.workers, m, None, id) && hashMb == Hash(tables.workers, m, None, id)
        invariant forall k | k in tables.workers && k < id && CountedOn(tables.workers[k], m) && tables.workers[k].hw.Some? ::
                    SameCapacity(tables.workers[k].hw.value, hw)
      {
        if id in tables.workers && CountedOn(tables.workers[id], m) {
          var worker := tables.workers[id];
          if worker.hw.Some? && !SameCapacity(worker.hw.value, hw) {
            return false, 0, 0;
          }
          threads := threads + worker.threads;
          hashMb := hashMb + worker.hashMb;
        }
      }
    }

    /** enroll_worker_pool: one offline row per slot, and the pool is enrolled; or nothing at all. */
    method EnrolWorkerPool(p: PoolId, m: MachineId, hw: Hardware) returns (enrolled: bool)
      requires Valid()
      modifies this
      ensures Valid() && tables == Enrol(old(tables), p, m, hw)
      ensures !enrolled ==> tables == old(tables)
    {
      hide Inv, AddSlots;
      EnrolKeeps(tables, p, m, hw);
      if p !in tables.pools || tables.pools[p].status != PoolPending {
        return false;
      }
      var pool := tables.pools[p];
      var agree, threads, hashMb := CheckExisting(m, hw);
      if !agree {
        return false;
      }
      if pool.slotCount * pool.threads + threads > hw.physicalCores {
        return false;
      }
      if pool.slotCount * pool.hashMb + hashMb > hw.totalRamMb {
        return false;
      }
      InsertSlots(p, m, hw);
      tables := tables.(pools := tables.pools[p := pool.(status := PoolEnrolled)]);
      return true;
    }

    method InsertSlots(p: PoolId, m: MachineId, hw: Hardware)
      requires p in tables.pools
      modifies this
      ensures tables == AddSlots(old(tables), p, old(tables).pools[p].slotCount, m, hw)
      ensures tables.pools == old(tables).pools
    {
      var pool := tables.pools[p];
      for slot := 0 to pool.slotCount
        invariant tables.pools == old(tables).pools
        invariant tables == AddSlots(old(tables), p, slot, m, hw)
      {
        var row := Worker(Offline, None, Some(m), Some(p), pool.threads, pool.hashMb, Some(hw));
        tables := tables.(workers := tables.workers[tables.nextWorker := row], nextWorker := tables.nextWorker + 1);
      }
    }

    /** _record_connection: validate, then disconnect and upsert in the same transaction. */
    method RecordConnection(hello: Hello) returns (session: Option<SessionId>)
      requires Valid()
      requires hello.worker < tables.nextWorker && hello.threads > 0 && hello.hashMb > 0
      modifies this
      ensures tables == Connect(old(tables), hello)
      ensures session.Some? <==> Accepted(old(tables), hello)
      ensures Valid() <==> session.None? || RowIsThereOrDefaultFits(old(tables), hello)
      ensures session.Some? ==> Answers(tables, session.value) && tables.live[session.value] == hello.worker
      ensures session.None? ==> tables == old(tables)
    {
      hide Inv, ConnectionFits, RowIsThereOrDefaultFits;
      if hello.worker in tables.workers
         && (tables.workers[hello.worker].threads != hello.threads || tables.workers[hello.worker].hashMb != hello.hashMb) {
        return None;
      }
      if !ConnectionFits(tables, hello) {
        return None;
      }
      ConnectKeeps(tables, hello);
      session := Some(tables.nextSession);
      var row := Worker(Connected, session, Some(hello.machine), None, DEFAULT_THREADS, DEFAULT_HASH_MB, Some(hello.hw));
      if hello.worker in tables.workers {
        var offlineRow := tables.workers[hello.worker].(status := Offline);
        row := offlineRow.(status := Connected, session := session, machine := Some(hello.machine), hw := Some(hello.hw));
      }
      tables := tables.(workers := tables.workers[hello.worker := row]);
      tables := tables.(live := tables.live[session.value := hello.worker], nextSession := session.value + 1);
    }
  }
}
