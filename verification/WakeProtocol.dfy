/**
 Waking idle workers (cope/runner/worker_server.py): the work generation, the pending wake, the
 cache of empty claims, and the serving loops that park until the generation changes.

 Three processes commit transactions that may free work. The worker server calls _wake_workers
 after its own, and every post to the web application's admin pages sends it runner.wake: such a
 commit owes a wake until that call. The scheduler starts tournaments and adds games (cope/runner/local.py:129-152)
 and sends nothing that reaches the worker server: its commits are unannounced, and only the wake
 of somebody else or of the fallback timer brings them to a parked loop.
 */
module WakeProtocol {
  import opened Common
  import opened Assignments
  import opened AssignmentInvariant
  import AssignmentHandlers
  import AssignmentSafety
  import opened AssignmentDatabase

  /** What the empty-claim cache is keyed by. */
  datatype Capability = Capability(resources: Resources, hw: Option<Hardware>)

  /** Where a serving loop stands; the generation is its own copy. */
  datatype Phase = Scanning | Parked | Working

  datatype Loop = Loop(capability: Capability, phase: Phase, generation: nat)

  datatype Server = Server(
    db: State,
    generation: nat,
    pending: bool,
    /** Commits since the last finished wake whose own wake call is still to come. */
    owed: nat,
    /** Whether a commit since the last finished wake may have freed work without any wake call of its own. */
    unannounced: bool,
    emptyClaims: map<Capability, nat>,
    loops: map<SessionId, Loop>
  )

  function WorkerOf(capability: Capability): Worker
  {
    Worker(Ready, None, capability.resources, capability.hw)
  }

  /** Some tournament would give a worker of this capability a game. */
  ghost predicate HasWork(db: State, capability: Capability)
  {
    exists t :: 0 <= t < db.nextTournament && Claimable(db, WorkerOf(capability), t)
  }

  function CapabilityOf(w: Worker): Capability { Capability(w.resources, w.hw) }

  // ---------------------------------------------------------------- which steps can free work

  /** Steps that never make anything claimable. */
  predicate Quiet(step: Step)
  {
    || step.DoAddTournament? || step.DoEditTournament? || step.DoMintWorker? || step.DoReportStatus?
    || step.DoAdminAction? || step.DoFinishTournament? || step.DoDeleteTournament?
    || step.DoClaim? || step.DoAcknowledge? || step.DoGoLive? || step.DoRecordMove?
  }

  predicate RunningIn(s: State, t: TournamentId)
  {
    t in s.tournaments && s.tournaments[t].status == Running
  }

  /** Nothing in the later tables can be claimed that could not be claimed before. */
  ghost predicate Shrinks(s: State, a: State)
  {
    && s.nextGame == a.nextGame && s.nextTournament <= a.nextTournament
    && (forall t: TournamentId | RunningIn(a, t) ::
          && RunningIn(s, t) && t < s.nextTournament
          && a.tournaments[t].config == s.tournaments[t].config
          && (s.tournaments[t].profile.None? || a.tournaments[t].profile == s.tournaments[t].profile))
    && (forall t: TournamentId, g: GameId | RunningIn(a, t) && ActiveIn(s.games, t, g) :: ActiveIn(a.games, t, g))
    && (forall t: TournamentId, g: GameId | RunningIn(a, t) && PendingIn(a.games, t, g) :: PendingIn(s.games, t, g))
  }

  lemma {:induction false} ShrunkClaim(s: State, a: State, w: Worker, t: TournamentId)
    requires Shrinks(s, a) && Claimable(a, w, t)
    ensures Claimable(s, w, t) && t < s.nextTournament
  {
    hide ActiveIn, ActiveCount, PendingIn;
    assert RunningIn(a, t);
    FewerActive(a.games, s.games, t, s.nextGame);
    var g := FirstPending(a.games, t, a.nextGame).value;
    assert PendingIn(s.games, t, g);
  }

  lemma {:induction false} ShrinkingAddsNoWork(s: State, a: State, capability: Capability)
    requires Shrinks(s, a) && HasWork(a, capability)
    ensures HasWork(s, capability)
  {
    hide Shrinks, Claimable;
    var t :| 0 <= t < a.nextTournament && Claimable(a, WorkerOf(capability), t);
    ShrunkClaim(s, a, WorkerOf(capability), t);
  }

  lemma {:induction false} TournamentsAreBelow(s: State)
    requires Inv(s)
    ensures forall t | t in s.tournaments :: t < s.nextTournament
  {
    hide Inv;
    forall t | t in s.tournaments ensures t < s.nextTournament {
      AssignmentSafety.TournamentBelow(s, t);
    }
  }

  /** A step within one game that stays active is invisible to a claim. */
  lemma {:induction false} ActiveGameShrinks(s: State, a: State, g: GameId)
    requires Inv(s) && a.tournaments == s.tournaments && a.nextGame == s.nextGame && a.nextTournament == s.nextTournament
    requires g in s.games && ActiveGame(s.games[g]) && a.games.Keys == s.games.Keys && ActiveGame(a.games[g])
    requires a.games[g].tournament == s.games[g].tournament
    requires forall h | h in s.games && h != g :: a.games[h] == s.games[h]
    ensures Shrinks(s, a)
  {
    hide Inv;
    TournamentsAreBelow(s);
  }

  lemma {:induction false} RunningShrinks(s: State, step: Step)
    requires Inv(s) && (step.DoGoLive? || step.DoRecordMove? || step.DoAcknowledge?)
    ensures Shrinks(s, Apply(s, step))
  {
    hide Coupled, Bounded, Shrinks;
    if Holds(s, step.session) && Validated(s, s.handlers[step.session].holding.value) {
      var g := s.handlers[step.session].holding.value.game;
      HeldWellFacts(s, step.session);
      ActiveGameShrinks(s, Apply(s, step), g);
    } else {
      SameShrinks(s);
    }
  }

  lemma {:induction false} HeldWellFacts(s: State, session: SessionId)
    requires Inv(s) && Holds(s, session) && Validated(s, s.handlers[session].holding.value)
    ensures var g := s.handlers[session].holding.value.game;
            g in s.games && ActiveGame(s.games[g])
  {
    hide Coupled, Bounded, HeldWell, LogOk;
    AssignmentHandlers.ValidatedIsHeld(s, session);
  }

  lemma {:induction false} SameShrinks(s: State)
    requires Inv(s)
    ensures Shrinks(s, s)
  {
    hide Inv;
    TournamentsAreBelow(s);
  }

  lemma {:induction false} SettingUpShrinks(s: State, step: Step)
    requires Inv(s) && (step.DoAddTournament? || step.DoEditTournament? || step.DoMintWorker? || step.DoReportStatus?)
    ensures Shrinks(s, Apply(s, step))
  {
    hide Inv;
    TournamentsAreBelow(s);
  }

  /** A tournament that is stopped, finished or deleted offers less, and the others are untouched. */
  lemma {:induction false} StoppingShrinks(s: State, step: Step)
    requires Inv(s) && (step.DoAdminAction? || step.DoFinishTournament? || step.DoDeleteTournament?)
    ensures Shrinks(s, Apply(s, step))
  {
    hide Inv, AnyAbandoned, AnyGame, AllowedAction, AllTerminal, Shrinks, SetStatus, DeleteTournament;
    SameShrinks(s);
    if step.DoDeleteTournament? {
      DeletingShrinks(s, step.tournament);
    } else if step.tournament in s.tournaments {
      var target := if step.DoAdminAction? then step.target else if AnyAbandoned(s, step.tournament) then Aborted else Complete;
      ActionsDoNotStart(s.tournaments[step.tournament].status, target);
      if target != Running {
        SetStatusShrinks(s, step.tournament, target);
      }
    }
  }

  lemma {:induction false} ActionsDoNotStart(status: TournamentStatus, target: TournamentStatus)
    ensures AllowedAction(status, target) ==> target != Running
  {
  }

  lemma {:induction false} SetStatusShrinks(s: State, t: TournamentId, status: TournamentStatus)
    requires Inv(s) && status != Running
    ensures Shrinks(s, SetStatus(s, t, status))
  {
    hide Inv, AbandonedRow;
    TournamentsAreBelow(s);
  }

  lemma {:induction false} DeletingShrinks(s: State, t: TournamentId)
    requires Inv(s)
    ensures Shrinks(s, DeleteTournament(s, t))
  {
    hide Inv;
    TournamentsAreBelow(s);
  }

  lemma {:induction false} ClaimShrinks(s: State, session: SessionId)
    requires Inv(s)
    ensures Shrinks(s, Claim(s, session))
  {
    hide Inv, ActiveCount;
    TournamentsAreBelow(s);
  }

  lemma {:induction false} ClaimStep(s: State, session: SessionId)
    ensures Apply(s, DoClaim(session)) == Claim(s, session)
  {
    hide Claim;
  }

  /** Setting up and stopping tournaments, claims, and a running game up to its end only ever take work away. */
  lemma {:induction false} QuietStepsShrink(s: State, step: Step)
    requires Inv(s) && Quiet(step)
    ensures Shrinks(s, Apply(s, step))
  {
    hide Inv, Shrinks, Apply;
    if step.DoClaim? {
      ClaimStep(s, step.session);
      ClaimShrinks(s, step.session);
    } else if step.DoGoLive? || step.DoRecordMove? || step.DoAcknowledge? {
      RunningShrinks(s, step);
    } else if step.DoAdminAction? || step.DoFinishTournament? || step.DoDeleteTournament? {
      StoppingShrinks(s, step);
    } else {
      SettingUpShrinks(s, step);
    }
  }

  // ---------------------------------------------------------------- the server's steps

  /** The process that commits a transaction. */
  datatype Origin = WorkerSide | Web | Scheduler

  /** Which process commits what; claims are passes of a serving loop. */
  predicate Issues(origin: Origin, step: Step)
  {
    match step
    case DoAddTournament(_) => origin == Web
    case DoEditTournament(_, _) => origin == Web
    case DoAdminAction(_, target) => origin == Web || (origin == Scheduler && target == Paused)
    case DoDeleteTournament(_) => origin == Web
    case DoRevoke(_) => origin == Web
    case DoDeleteWorker(_) => origin == Web
    case DoStartTournament(_) => origin == Scheduler
    case DoAddGame(_, _) => origin == Scheduler || origin == WorkerSide
    case DoFinishTournament(_) => origin == Scheduler || origin == WorkerSide
    case DoMintWorker(_) => origin == Web || origin == WorkerSide
    case DoClaim(_) => false
    case _ => origin == WorkerSide
  }

  datatype Event =
    /** A committed transaction other than a claim. */
    | Commit(step: Step, origin: Origin)
    /** A call of _wake_workers up to its pause: due after a commit, or from the fallback timer. */
    | BeginWake(due: bool)
    /** The wake call that was to follow a commit is not made, because the cleanup or the publication before it fails. */
    | SkipWake
    /** The rest of a pending wake. */
    | FinishWake
    /** A new serving loop, after its session was recorded. */
    | OpenLoop(session: SessionId)
    | CloseLoop(session: SessionId)
    /** One pass of the loop through _claim_next_assignment. */
    | TryClaim(session: SessionId)
    /** _wait_for_work returns. */
    | Resume(session: SessionId)
    /** The assignment is over, one way or the other. */
    | Finished(session: SessionId)

  function CommitStep(v: Server, step: Step, origin: Origin): Server
  {
    var done := v.(db := Apply(v.db, step));
    if Quiet(step) then done
    else if origin == Scheduler then done.(unannounced := true)
    else done.(owed := v.owed + 1)
  }

  /** A wake that finds another one pending is dropped. */
  function StartWake(v: Server, due: bool): Server
  {
    v.(owed := if due && v.owed > 0 then v.owed - 1 else v.owed, pending := true)
  }

  /** The new generation outdates every parked loop and the whole cache, so nothing before it needs another wake. */
  function CompleteWake(v: Server): Server
  {
    if !v.pending then v
    else v.(generation := v.generation + 1, emptyClaims := map[], pending := false, owed := 0, unannounced := false)
  }

  function DropWake(v: Server): Server
  {
    if v.owed == 0 then v else v.(owed := v.owed - 1, unannounced := true)
  }

  predicate CachedEmpty(v: Server, capability: Capability, generation: nat)
  {
    capability in v.emptyClaims && v.emptyClaims[capability] == generation
  }

  /** A pass that the cache answers, one that finds nothing, one that claims; an inactive session ends the loop. */
  function Pass(v: Server, session: SessionId): Server
  {
    if session !in v.loops || v.loops[session].phase != Scanning then v
    else
      var loop := v.loops[session];
      if CachedEmpty(v, loop.capability, loop.generation) then v.(loops := v.loops[session := loop.(phase := Parked)])
      else if !Current(v.db, session) || v.db.handlers[session].holding.Some? then v.(loops := v.loops - {session})
      else if Chosen(v.db, v.db.workers[v.db.handlers[session].worker], v.db.nextTournament).None? then
        v.(emptyClaims := v.emptyClaims[loop.capability := loop.generation],
           loops := v.loops[session := loop.(phase := Parked)])
      else
        v.(db := Claim(v.db, session), loops := v.loops[session := loop.(phase := Working)])
  }

  function Next(v: Server, event: Event): Server
  {
    match event
    case Commit(step, origin) => if Issues(origin, step) then CommitStep(v, step, origin) else v
    case BeginWake(due) => StartWake(v, due)
    case SkipWake => DropWake(v)
    case FinishWake => CompleteWake(v)
    case OpenLoop(session) =>
      if session in v.loops || !Current(v.db, session) || v.db.handlers[session].holding.Some? then v
      else
        var capability := CapabilityOf(v.db.workers[v.db.handlers[session].worker]);
        v.(loops := v.loops[session := Loop(capability, Scanning, v.generation)])
    case CloseLoop(session) => v.(loops := v.loops - {session})
    case TryClaim(session) => Pass(v, session)
    case Resume(session) =>
      if session !in v.loops || v.loops[session].phase != Parked || v.loops[session].generation == v.generation then v
      else v.(loops := v.loops[session := v.loops[session].(phase := Scanning, generation := v.generation)])
    case Finished(session) =>
      if session !in v.loops || v.loops[session].phase != Working then v
      else v.(loops := v.loops[session := v.loops[session].(phase := Scanning)])
  }

  // ---------------------------------------------------------------- no wake-up is lost

  /** A wake is on its way. */
  predicate WakeComing(v: Server) { v.pending || v.owed > 0 }

  /** Nothing has freed work behind the server's back since the last wake, or a wake is on its way. */
  predicate Covered(v: Server) { WakeComing(v) || v.unannounced }

  ghost predicate CacheOk(v: Server, capability: Capability)
    requires capability in v.emptyClaims
  {
    v.emptyClaims[capability] <= v.generation && (HasWork(v.db, capability) ==> Covered(v))
  }

  ghost predicate LoopOk(v: Server, session: SessionId)
    requires session in v.loops
  {
    var loop := v.loops[session];
    && loop.generation <= v.generation
    && (loop.phase == Parked && loop.generation == v.generation && HasWork(v.db, loop.capability) ==> Covered(v))
  }

  /** The worker row answers to the session. */
  predicate Answers(db: State, session: SessionId)
  {
    && session in db.handlers && db.handlers[session].worker in db.workers
    && db.workers[db.handlers[session].worker].session == Some(session)
  }

  /** As long as the session is not replaced, its worker has the capability the loop was opened with. */
  ghost predicate CapabilityKnown(v: Server, session: SessionId)
    requires session in v.loops
  {
    && session in v.db.handlers
    && (Answers(v.db, session) ==>
          CapabilityOf(v.db.workers[v.db.handlers[session].worker]) == v.loops[session].capability)
  }

  ghost predicate ServerInv(v: Server)
  {
    && Inv(v.db)
    && (forall c | c in v.emptyClaims :: CacheOk(v, c))
    && (forall h | h in v.loops :: LoopOk(v, h))
    && (forall h | h in v.loops :: CapabilityKnown(v, h))
  }

  ghost predicate PinsCapability(s: State, a: State, session: SessionId)
    requires session in s.handlers
  {
    var w := s.handlers[session].worker;
    && session in a.handlers && a.handlers[session].worker == w
    && (Answers(a, session) ==> Answers(s, session) && CapabilityOf(a.workers[w]) == CapabilityOf(s.workers[w]))
  }

  lemma {:induction false} SessionsAreBelow(s: State, session: SessionId)
    requires Inv(s) && session in s.handlers
    ensures session < s.nextSession
  {
    hide GameOk, RowOk, WorkerOk, Apart, TournamentOk;
    assert HandlerOk(s, session);
  }

  lemma {:induction false} RunningPinsCapability(s: State, step: Step, session: SessionId)
    requires AssignmentSafety.RunningAssignment(step) && session in s.handlers
    ensures PinsCapability(s, Apply(s, step), session)
  {
    hide Validated;
  }

  lemma {:induction false} AdminPinsCapability(s: State, step: Step, session: SessionId)
    requires !AssignmentSafety.RunningAssignment(step) && session in s.handlers && session < s.nextSession
    ensures PinsCapability(s, Apply(s, step), session)
  {
    hide ActiveCount, Chosen, Suits;
  }

  /** Resources and hardware of a worker only change together with its session. */
  lemma {:induction false} SessionPinsCapability(s: State, step: Step, session: SessionId)
    requires Inv(s) && session in s.handlers
    ensures PinsCapability(s, Apply(s, step), session)
  {
    hide Inv, Apply, PinsCapability;
    SessionsAreBelow(s, session);
    if AssignmentSafety.RunningAssignment(step) {
      RunningPinsCapability(s, step, session);
    } else {
      AdminPinsCapability(s, step, session);
    }
  }

  lemma {:induction false} CommitKeeps(v: Server, step: Step, origin: Origin)
    requires ServerInv(v) && !step.DoClaim?
    ensures ServerInv(CommitStep(v, step, origin))
  {
    hide Inv, HasWork, Apply, Shrinks, PinsCapability;
    var after := CommitStep(v, step, origin);
    AssignmentSafety.StepKeepsInv(v.db, step);
    if Quiet(step) {
      QuietStepsShrink(v.db, step);
    }
    forall c | c in after.emptyClaims ensures CacheOk(after, c) {
      assert CacheOk(v, c);
      NoNewWork(v, after, step, c);
    }
    forall h | h in after.loops ensures LoopOk(after, h) {
      assert LoopOk(v, h);
      NoNewWork(v, after, step, v.loops[h].capability);
    }
    forall h | h in after.loops ensures CapabilityKnown(after, h) {
      assert CapabilityKnown(v, h);
      SessionPinsCapability(v.db, step, h);
      CapabilityStaysKnown(v, after, h);
    }
  }

  lemma {:induction false} NoNewWork(v: Server, after: Server, step: Step, capability: Capability)
    requires Quiet(step) ==> Shrinks(v.db, after.db)
    requires (Covered(v) ==> Covered(after)) && (!Quiet(step) ==> Covered(after))
    ensures HasWork(after.db, capability) && !Covered(after) ==> HasWork(v.db, capability)
  {
    hide Shrinks, HasWork;
    if HasWork(after.db, capability) && !Covered(after) {
      ShrinkingAddsNoWork(v.db, after.db, capability);
    }
  }

  lemma {:induction false} CapabilityStaysKnown(v: Server, after: Server, session: SessionId)
    requires session in v.loops && session in after.loops && after.loops[session].capability == v.loops[session].capability
    requires CapabilityKnown(v, session) && PinsCapability(v.db, after.db, session)
    ensures CapabilityKnown(after, session)
  {
  }

  // ---------------------------------------------------------------- the passes of a loop

  /** Claimability looks at resources and hardware only. */
  lemma {:induction false} CapabilityDecides(db: State, w: Worker)
    ensures Chosen(db, w, db.nextTournament).None? ==> !HasWork(db, CapabilityOf(w))
    ensures Chosen(db, w, db.nextTournament).Some? ==> HasWork(db, CapabilityOf(w))
  {
    hide ActiveCount, FirstPending;
    var capability := CapabilityOf(w);
    forall t | 0 <= t < db.nextTournament ensures Claimable(db, w, t) <==> Claimable(db, WorkerOf(capability), t) {
    }
    var chosen := Chosen(db, w, db.nextTournament);
    if chosen.Some? {
      assert Claimable(db, WorkerOf(capability), chosen.value);
    }
  }

  /**
   What the cache is for: once a scan with some capability has found nothing in a generation, every
   later pass with that capability in that generation parks without looking at the tables.
   */
  lemma {:induction false} EmptyScansAreRemembered(v: Server, session: SessionId, other: SessionId)
    requires session in v.loops && v.loops[session].phase == Scanning
    requires other in v.loops && v.loops[other].phase == Scanning && other != session
    requires v.loops[other].capability == v.loops[session].capability && v.loops[other].generation == v.loops[session].generation
    ensures var once := Pass(v, session);
            session in once.loops && once.loops[session].phase == Parked ==>
              && other in once.loops
              && Pass(once, other) == once.(loops := once.loops[other := once.loops[other].(phase := Parked)])
  {
    hide Claim, Chosen, Current;
  }

  lemma {:induction false} ScanKeeps(v: Server, session: SessionId)
    requires ServerInv(v) && session in v.loops && v.loops[session].phase == Scanning
    requires Current(v.db, session) && !CachedEmpty(v, v.loops[session].capability, v.loops[session].generation)
    requires v.db.handlers[session].holding.None?
    requires Chosen(v.db, v.db.workers[v.db.handlers[session].worker], v.db.nextTournament).None?
    ensures ServerInv(Pass(v, session))
  {
    hide Inv, HasWork, Chosen;
    var after := Pass(v, session);
    var loop := v.loops[session];
    assert CapabilityKnown(v, session) && LoopOk(v, session);
    CapabilityDecides(v.db, v.db.workers[v.db.handlers[session].worker]);
    forall c | c in after.emptyClaims ensures CacheOk(after, c) {
      if c != loop.capability {
        assert CacheOk(v, c);
      }
    }
    forall h | h in after.loops ensures LoopOk(after, h) && CapabilityKnown(after, h) {
      assert LoopOk(v, h) && CapabilityKnown(v, h);
    }
  }

  lemma {:induction false} ClaimPassKeeps(v: Server, session: SessionId)
    requires ServerInv(v) && session in v.loops
    ensures ServerInv(v.(db := Claim(v.db, session), loops := v.loops[session := v.loops[session].(phase := Working)]))
  {
    hide Inv, HasWork, Claim, Shrinks, PinsCapability;
    var after := v.(db := Claim(v.db, session), loops := v.loops[session := v.loops[session].(phase := Working)]);
    var step := DoClaim(session);
    AssignmentSafety.StepKeepsInv(v.db, step);
    QuietStepsShrink(v.db, step);
    forall c | c in after.emptyClaims ensures CacheOk(after, c) {
      assert CacheOk(v, c);
      NoNewWork(v, after, step, c);
    }
    forall h | h in after.loops ensures LoopOk(after, h) {
      assert LoopOk(v, h);
      NoNewWork(v, after, step, v.loops[h].capability);
    }
    forall h | h in after.loops ensures CapabilityKnown(after, h) {
      assert CapabilityKnown(v, h);
      SessionPinsCapability(v.db, step, h);
      CapabilityStaysKnown(v, after, h);
    }
  }

  lemma {:induction false} PassKeeps(v: Server, session: SessionId)
    requires ServerInv(v)
    ensures ServerInv(Pass(v, session))
  {
    hide Inv, HasWork, Chosen, Claim;
    if session in v.loops && v.loops[session].phase == Scanning {
      var loop := v.loops[session];
      assert LoopOk(v, session);
      if CachedEmpty(v, loop.capability, loop.generation) {
        assert CacheOk(v, loop.capability);
        LoopsKept(v, Pass(v, session));
      } else if !Current(v.db, session) || v.db.handlers[session].holding.Some? {
        LoopsKept(v, Pass(v, session));
      } else if Chosen(v.db, v.db.workers[v.db.handlers[session].worker], v.db.nextTournament).None? {
        ScanKeeps(v, session);
      } else {
        ClaimPassKeeps(v, session);
      }
    }
  }

  /** Only loops change, and those that remain or move are in order. */
  lemma {:induction false} LoopsKept(v: Server, after: Server)
    requires ServerInv(v) && after == v.(loops := after.loops)
    requires forall h | h in after.loops ::
               h in v.loops && (after.loops[h] == v.loops[h]
                                || (LoopOk(after, h) && after.loops[h].capability == v.loops[h].capability))
    ensures ServerInv(after)
  {
    hide Inv, HasWork;
    forall h | h in after.loops ensures LoopOk(after, h) && CapabilityKnown(after, h) {
      assert LoopOk(v, h) && CapabilityKnown(v, h);
    }
    forall c | c in after.emptyClaims ensures CacheOk(after, c) {
      assert CacheOk(v, c);
    }
  }

  lemma {:induction false} BeginWakeKeeps(v: Server, due: bool)
    requires ServerInv(v)
    ensures ServerInv(StartWake(v, due)) && ServerInv(DropWake(v))
  {
    hide Inv, HasWork;
    CoveredKeeps(v, StartWake(v, due));
    CoveredKeeps(v, DropWake(v));
  }

  lemma {:induction false} CoveredKeeps(v: Server, after: Server)
    requires ServerInv(v) && (Covered(v) ==> Covered(after))
    requires after == v.(owed := after.owed, unannounced := after.unannounced, pending := after.pending)
    ensures ServerInv(after)
  {
    hide Inv, HasWork, Covered;
    forall h | h in after.loops ensures LoopOk(after, h) && CapabilityKnown(after, h) {
      assert LoopOk(v, h) && CapabilityKnown(v, h);
    }
    forall c | c in after.emptyClaims ensures CacheOk(after, c) {
      assert CacheOk(v, c);
    }
  }

  /** The new generation makes every parked loop outdated and the cache empty. */
  lemma {:induction false} FinishWakeKeeps(v: Server)
    requires ServerInv(v)
    ensures ServerInv(CompleteWake(v))
  {
    hide Inv, HasWork;
    var after := CompleteWake(v);
    forall h | h in after.loops ensures LoopOk(after, h) && CapabilityKnown(after, h) {
      assert LoopOk(v, h) && CapabilityKnown(v, h);
    }
  }

  lemma {:induction false} LoopEventKeeps(v: Server, event: Event)
    requires ServerInv(v) && (event.OpenLoop? || event.CloseLoop? || event.Resume? || event.Finished?)
    ensures ServerInv(Next(v, event))
  {
    hide Inv, HasWork;
    var after := Next(v, event);
    forall h | h in after.loops ensures LoopOk(after, h) && CapabilityKnown(after, h) {
      if h in v.loops {
        assert LoopOk(v, h) && CapabilityKnown(v, h);
      }
    }
    forall c | c in after.emptyClaims ensures CacheOk(after, c) {
      assert CacheOk(v, c);
    }
  }

  lemma {:induction false} NextKeepsInv(v: Server, event: Event)
    requires ServerInv(v)
    ensures ServerInv(Next(v, event))
  {
    hide ServerInv, Pass, StartWake, DropWake, CompleteWake, CommitStep;
    match event
    case Commit(step, origin) =>
      if Issues(origin, step) {
        CommitKeeps(v, step, origin);
      }
    case BeginWake(due) => BeginWakeKeeps(v, due);
    case SkipWake => BeginWakeKeeps(v, true);
    case FinishWake => FinishWakeKeeps(v);
    case TryClaim(session) => PassKeeps(v, session);
    case _ => LoopEventKeeps(v, event);
  }

  function RunServer(v: Server, events: seq<Event>): Server
  {
    if events == [] then v else Next(RunServer(v, events[..|events| - 1]), events[|events| - 1])
  }

  /** A server starts without loops over whatever its tables hold. */
  function NewServer(db: State): Server { Server(db, 0, false, 0, false, map[], map[]) }

  lemma {:induction false} RunServerKeepsInv(history: seq<Step>, events: seq<Event>)
    ensures ServerInv(RunServer(NewServer(Run(Empty(), history)), events))
  {
    hide Inv, Next, Run;
    if events == [] {
      EmptyInv();
      AssignmentSafety.RunKeepsInv(Empty(), history);
    } else {
      RunServerKeepsInv(history, events[..|events| - 1]);
      NextKeepsInv(RunServer(NewServer(Run(Empty(), history)), events[..|events| - 1]), events[|events| - 1]);
    }
  }

  /** The loop is parked on the current generation although some tournament has a game for its worker. */
  ghost predicate ParkedWithWork(v: Server, session: SessionId)
  {
    && session in v.loops && v.loops[session].phase == Parked && v.loops[session].generation == v.generation
    && HasWork(v.db, v.loops[session].capability)
  }

  /** A pass that the cache would cut short although it would find a game. */
  ghost predicate CutShort(v: Server, session: SessionId)
  {
    && session in v.loops && CachedEmpty(v, v.loops[session].capability, v.loops[session].generation)
    && HasWork(v.db, v.loops[session].capability)
  }

  /**
   In every reachable state of a server that started over any reachable tables, a loop is parked
   although there is a game for its worker, or would be sent away by the cache, only while a wake is
   pending, or owed by a commit of the worker server or of the web application, or after a commit
   since the last finished wake that no wake call follows.
   */
  lemma {:induction false} NoLostWakeUp(history: seq<Step>, events: seq<Event>, session: SessionId)
    ensures var v := RunServer(NewServer(Run(Empty(), history)), events);
            ParkedWithWork(v, session) || CutShort(v, session) ==> v.pending || v.owed > 0 || v.unannounced
  {
    hide Inv, Next, RunServer, HasWork, CapabilityKnown, Run;
    RunServerKeepsInv(history, events);
    var v := RunServer(NewServer(Run(Empty(), history)), events);
    if session in v.loops {
      assert LoopOk(v, session);
      if v.loops[session].capability in v.emptyClaims {
        assert CacheOk(v, v.loops[session].capability);
      }
    }
  }

  /**
   And the wake arrives: from any reachable state with a parked loop, an idle current session and
   a game for it, a wake - even that of the fallback timer - the loop's return from waiting and its
   next pass give it a game.
   */
  lemma {:induction false} WakeBringsTheGame(v: Server, session: SessionId, due: bool)
    requires ServerInv(v) && session in v.loops && v.loops[session].phase == Parked
    requires Current(v.db, session) && v.db.handlers[session].holding.None? && HasWork(v.db, v.loops[session].capability)
    ensures var w := Next(Next(Next(Next(v, BeginWake(due)), FinishWake), Resume(session)), TryClaim(session));
            session in w.loops && w.loops[session].phase == Working && Holds(w.db, session)
  {
    hide Inv, HasWork, Chosen, Claimable;
    var w1 := Next(Next(v, BeginWake(due)), FinishWake);
    var w2 := Next(w1, Resume(session));
    assert CapabilityKnown(v, session) && LoopOk(v, session);
    CapabilityDecides(v.db, v.db.workers[v.db.handlers[session].worker]);
    ClaimGives(v.db, session);
  }

  lemma {:induction false} ClaimGives(db: State, session: SessionId)
    requires Current(db, session) && db.handlers[session].holding.None?
    requires Chosen(db, db.workers[db.handlers[session].worker], db.nextTournament).Some?
    ensures Holds(Claim(db, session), session)
  {
    hide ActiveCount, Chosen;
  }

  // ---------------------------------------------------------------- the server object

  datatype ClaimResult = Nothing | Claimed(payload: Payload) | Inactive

  /** Where the loop goes after a pass. */
  function LoopsAfter(loops: map<SessionId, Loop>, session: SessionId, r: ClaimResult): map<SessionId, Loop>
    requires session in loops
  {
    match r
    case Nothing => loops[session := loops[session].(phase := Parked)]
    case Claimed(_) => loops[session := loops[session].(phase := Working)]
    case Inactive => loops - {session}
  }

  class WorkerServer {
    var workGeneration: nat
    var wakePending: bool
    var emptyClaimGeneration: map<Capability, nat>

    ghost function View(db: State, owed: nat, unannounced: bool, loops: map<SessionId, Loop>): Server
      reads this
    {
      Server(db, workGeneration, wakePending, owed, unannounced, emptyClaimGeneration, loops)
    }

    constructor (ghost db: State)
      ensures View(db, 0, false, map[]) == NewServer(db)
    {
      workGeneration, wakePending, emptyClaimGeneration := 0, false, map[];
    }

    /** _wake_workers up to its pause, after a commit or from the timer; while one is pending a second call does nothing. */
    method BeginWake(ghost db: State, ghost owed: nat, ghost unannounced: bool, ghost loops: map<SessionId, Loop>, ghost due: bool)
      returns (pausing: bool, ghost still: nat)
      modifies this
      ensures still == if due && owed > 0 then owed - 1 else owed
      ensures View(db, still, unannounced, loops) == StartWake(old(View(db, owed, unannounced, loops)), due)
      ensures pausing <==> !old(wakePending)
    {
      still := if due && owed > 0 then owed - 1 else owed;
      if wakePending {
        pausing := false;
        return;
      }
      wakePending, pausing := true, true;
    }

    /** _wake_workers after its pause. */
    method FinishWake(ghost db: State, ghost owed: nat, ghost unannounced: bool, ghost loops: map<SessionId, Loop>)
      requires wakePending
      modifies this
      ensures View(db, 0, false, loops) == CompleteWake(old(View(db, owed, unannounced, loops)))
    {
      workGeneration := workGeneration + 1;
      emptyClaimGeneration := map[];
      wakePending := false;
    }

    /** _claim_next_assignment: the cache first, then the claim transaction under the lock. */
    method ClaimNextAssignment(database: Database, session: SessionId, capability: Capability, wakeGeneration: nat,
                               ghost owed: nat, ghost unannounced: bool, ghost loops: map<SessionId, Loop>)
      returns (r: ClaimResult)
      requires database.Valid()
      requires session in loops && loops[session] == Loop(capability, Scanning, wakeGeneration)
      modifies this, database
      ensures database.Valid()
      ensures View(database.db, owed, unannounced, LoopsAfter(loops, session, r))
           == Pass(old(View(database.db, owed, unannounced, loops)), session)
      ensures r.Claimed? ==> Holds(database.db, session) && database.db.handlers[session].holding == Some(r.payload)
    {
      hide Inv, Chosen;
      if capability in emptyClaimGeneration && emptyClaimGeneration[capability] == wakeGeneration {
        return Nothing;
      }
      if !Current(database.db, session) || database.db.handlers[session].holding.Some? {
        return Inactive;
      }
      ghost var before := database.db;
      var payload := database.Claim(session);
      ClaimOrNothing(before, session);
      if payload.Some? {
        return Claimed(payload.value);
      }
      emptyClaimGeneration := emptyClaimGeneration[capability := wakeGeneration];
      return Nothing;
    }
  }

  lemma {:induction false} ClaimOrNothing(db: State, session: SessionId)
    requires Current(db, session) && db.handlers[session].holding.None?
    ensures var none := Chosen(db, db.workers[db.handlers[session].worker], db.nextTournament).None?;
            (none ==> Claim(db, session) == db) && (!none ==> Holds(Claim(db, session), session))
  {
    hide ActiveCount, Chosen;
  }
}
