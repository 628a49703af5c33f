/**
 The tables behind game assignment (cope/db/repo.py, cope/runner/local.py,
 cope/runner/worker_server.py) and what each committed transaction does to them.

 A transaction is one function from tables to tables; one that raises leaves them as they were.
 A handler is the server's loop for one worker session; it may be stale, that is, act on an
 assignment key that is no longer the current one.
 */
module Assignments {
  import opened Common

  type GameId = nat
  type TournamentId = nat
  type WorkerId = nat
  type SessionId = nat
  type Key = nat
  type Move = int

  datatype GameStatus = Pending | Assigned | Live | Finished | Abandoned

  datatype RowStatus = RowAssigned | RowAcked | RowLive | RowFinished | RowAbandoned | RowExpired

  datatype TournamentStatus = Draft | Scheduled | Running | Paused | Complete | Aborted

  datatype WorkerStatus = Minted | Connected | Downloading | Ready | Busy | Offline

  datatype Result = WhiteWins | BlackWins | Drawn

  /** A row of the moves table, with the key of the assignment that wrote it. */
  datatype LoggedMove = LoggedMove(ply: nat, move: Move, key: Key)

  /** Where a game starts: a position, and the ply count it carries. */
  datatype Opening = Opening(fen: string, ply: nat)

  datatype Game = Game(tournament: TournamentId, status: GameStatus, result: Option<Result>, opening: Opening, log: seq<LoggedMove>)

  /** The assignment row of a game: at most one per game, reused by every claim of it. */
  datatype Row = Row(id: nat, key: Key, worker: Option<WorkerId>, status: RowStatus)

  datatype Profile = Profile(cpuModel: string, physicalCores: nat, logicalCores: nat, os: string)

  datatype Hardware = Hardware(profile: Profile, totalRamMb: nat)

  datatype Resources = Resources(threads: nat, hashMb: nat) {
    predicate CanRun(required: Resources) {
      threads >= required.threads && hashMb >= required.hashMb
    }
  }

  datatype Config = Config(concurrency: nat, engineThreads: nat, engineHashMb: nat) {
    function Required(): Resources {
      Resources(engineThreads, engineHashMb * 2)
    }
  }

  datatype Tournament = Tournament(status: TournamentStatus, config: Config, profile: Option<Profile>)

  datatype Worker = Worker(status: WorkerStatus, session: Option<SessionId>, resources: Resources, hw: Option<Hardware>)

  /** What the claim hands to the handler. */
  datatype Payload = Payload(game: GameId, row: nat, key: Key)

  /** The loop serving one session: the assignment in its hands, and the board once the game runs. */
  datatype Handler = Handler(worker: WorkerId, holding: Option<Payload>, board: Option<seq<Move>>)

  datatype State = State(
    games: map<GameId, Game>,
    rows: map<GameId, Row>,
    tournaments: map<TournamentId, Tournament>,
    workers: map<WorkerId, Worker>,
    handlers: map<SessionId, Handler>,
    nextGame: nat,
    nextRow: nat,
    nextTournament: nat,
    nextWorker: nat,
    nextSession: nat,
    nextKey: nat
  )

  function Empty(): State
  {
    State(map[], map[], map[], map[], map[], 0, 0, 0, 0, 0, 0)
  }

  predicate ActiveGame(g: Game) { g.status == Assigned || g.status == Live }

  predicate ActiveRow(r: Row) { r.status == RowAssigned || r.status == RowAcked || r.status == RowLive }

  predicate Terminal(g: Game) { g.status == Finished || g.status == Abandoned }

  /** The statuses of a connected worker. */
  predicate Assignable(status: WorkerStatus)
  {
    status == Connected || status == Downloading || status == Ready || status == Busy
  }

  function MovesOf(log: seq<LoggedMove>): (moves: seq<Move>)
    ensures |moves| == |log|
  {
    seq(|log|, i requires 0 <= i < |log| => log[i].move)
  }

  // ---------------------------------------------------------------- tournaments and their games

  function AddTournament(s: State, config: Config): State
  {
    s.(tournaments := s.tournaments[s.nextTournament := Tournament(Draft, config, None)], nextTournament := s.nextTournament + 1)
  }

  /** Only drafts can be edited. */
  function EditTournament(s: State, t: TournamentId, config: Config): State
  {
    if t !in s.tournaments || s.tournaments[t].status != Draft then s
    else s.(tournaments := s.tournaments[t := s.tournaments[t].(config := config)])
  }

  /** The lifecycle changes an administrator may ask for. */
  predicate AllowedAction(from: TournamentStatus, to: TournamentStatus)
  {
    match from
    case Draft => to == Scheduled
    case Scheduled => to == Paused || to == Aborted
    case Running => to == Paused || to == Aborted
    case Paused => to == Scheduled || to == Aborted
    case _ => false
  }

  function AbandonedRow(r: Row): Row
  {
    if ActiveRow(r) then r.(status := RowAbandoned) else r
  }

  function AbandonedGame(g: Game): Game
  {
    if g.status == Finished then g else g.(status := Abandoned)
  }

  predicate InTournament(s: State, g: GameId, t: TournamentId)
  {
    g in s.games && s.games[g].tournament == t
  }

  /** _abandon_tournament_games: assignments first, then the games. */
  function AbandonTournamentGames(s: State, t: TournamentId): State
  {
    var rows := map g | g in s.rows ::
                  if InTournament(s, g, t) && s.games[g].status != Finished then AbandonedRow(s.rows[g]) else s.rows[g];
    var games := map g | g in s.games :: if s.games[g].tournament == t then AbandonedGame(s.games[g]) else s.games[g];
    s.(rows := rows, games := games)
  }

  /** set_tournament_status */
  function SetStatus(s: State, t: TournamentId, status: TournamentStatus): State
  {
    if t !in s.tournaments then s
    else
      var updated := s.(tournaments := s.tournaments[t := s.tournaments[t].(status := status)]);
      if status == Aborted then AbandonTournamentGames(updated, t) else updated
  }

  function AdminAction(s: State, t: TournamentId, status: TournamentStatus): State
  {
    if t in s.tournaments && AllowedAction(s.tournaments[t].status, status) then SetStatus(s, t, status) else s
  }

  function StartTournament(s: State, t: TournamentId): State
  {
    if t in s.tournaments && s.tournaments[t].status == Scheduled then SetStatus(s, t, Running) else s
  }

  /** A scheduled or advancing tournament adds a game row. */
  function AddGame(s: State, t: TournamentId, opening: Opening): State
  {
    if t !in s.tournaments || (s.tournaments[t].status != Scheduled && s.tournaments[t].status != Running) then s
    else s.(games := s.games[s.nextGame := Game(t, Pending, None, opening, [])], nextGame := s.nextGame + 1)
  }

  predicate AllTerminal(s: State, t: TournamentId)
  {
    forall g | g in s.games :: s.games[g].tournament == t ==> Terminal(s.games[g])
  }

  predicate AnyAbandoned(s: State, t: TournamentId)
  {
    exists g | g in s.games :: s.games[g].tournament == t && s.games[g].status == Abandoned
  }

  predicate AnyGame(s: State, t: TournamentId)
  {
    exists g | g in s.games :: s.games[g].tournament == t
  }

  /** _finish_tournament_if_complete, once the format has nothing more to add. */
  function FinishTournament(s: State, t: TournamentId): State
  {
    if t !in s.tournaments || s.tournaments[t].status != Running || !AnyGame(s, t) || !AllTerminal(s, t) then s
    else SetStatus(s, t, if AnyAbandoned(s, t) then Aborted else Complete)
  }

  /** delete_tournament: the games and their assignment rows go with it. */
  function DeleteTournament(s: State, t: TournamentId): State
  {
    if t !in s.tournaments || s.tournaments[t].status == Scheduled || s.tournaments[t].status == Running then s
    else s.(tournaments := map u | u in s.tournaments && u != t :: s.tournaments[u],
            rows := map g | g in s.rows && !InTournament(s, g, t) :: s.rows[g],
            games := map g | g in s.games && s.games[g].tournament != t :: s.games[g])
  }

  // ---------------------------------------------------------------- workers

  function MintWorker(s: State, resources: Resources): State
  {
    s.(workers := s.workers[s.nextWorker := Worker(Minted, None, resources, None)], nextWorker := s.nextWorker + 1)
  }

  /** The game has an active assignment held by the worker. */
  predicate HeldActive(s: State, g: GameId, w: WorkerId)
  {
    g in s.rows && s.rows[g].worker == Some(w) && ActiveRow(s.rows[g])
  }

  /** Active assignments of the worker end with the given status, and their games return to the pool. */
  function ReleaseAs(s: State, w: WorkerId, status: RowStatus): State
  {
    s.(games := map g | g in s.games ::
         if HeldActive(s, g, w) && ActiveGame(s.games[g]) then s.games[g].(status := Pending) else s.games[g],
       rows := map g | g in s.rows ::
         if HeldActive(s, g, w) then s.rows[g].(status := status, worker := None) else s.rows[g])
  }

  /** _release_worker_active_assignments */
  function Release(s: State, w: WorkerId): State
  {
    ReleaseAs(s, w, RowAbandoned)
  }

  function GoOffline(s: State, w: WorkerId): State
    requires w in s.workers
  {
    s.(workers := s.workers[w := s.workers[w].(status := Offline)])
  }

  /** disconnect_worker; with a session it acts only on the current one. */
  function Disconnect(s: State, w: WorkerId, session: Option<SessionId>): State
  {
    if w !in s.workers || (session.Some? && s.workers[w].session != session) then s
    else GoOffline(Release(s, w), w)
  }

  /** Resources of a worker row that is created without naming any. */
  const DEFAULT_RESOURCES := Resources(1, 32)

  /** upsert_worker_connection, and the server loop that serves the new session. */
  function OpenSession(s: State, w: WorkerId, hw: Hardware): State
  {
    var resources := if w in s.workers then s.workers[w].resources else DEFAULT_RESOURCES;
    s.(workers := s.workers[w := Worker(Connected, Some(s.nextSession), resources, Some(hw))],
       handlers := s.handlers[s.nextSession := Handler(w, None, None)],
       nextSession := s.nextSession + 1)
  }

  /** _record_connection: whatever the worker held under its old session is released first. */
  function Connect(s: State, w: WorkerId, hw: Hardware): State
  {
    if w >= s.nextWorker then s else OpenSession(Disconnect(s, w, None), w, hw)
  }

  /** Deleting a worker row sets every reference to it to null. */
  function RemoveWorker(s: State, w: WorkerId): State
  {
    s.(rows := map g | g in s.rows :: if s.rows[g].worker == Some(w) then s.rows[g].(worker := None) else s.rows[g],
       workers := map u | u in s.workers && u != w :: s.workers[u])
  }

  /** revoke_worker */
  function Revoke(s: State, w: WorkerId): State
  {
    RemoveWorker(Release(s, w), w)
  }

  /** delete_worker: as revoke_worker, but active assignments become expired. */
  function DeleteWorker(s: State, w: WorkerId): State
  {
    RemoveWorker(ReleaseAs(s, w, RowExpired), w)
  }

  /** update_worker_status, guarded by the session. */
  function ReportStatus(s: State, session: SessionId, status: WorkerStatus): State
  {
    if session !in s.handlers || !Assignable(status) then s
    else
      var w := s.handlers[session].worker;
      if w !in s.workers || s.workers[w].session != Some(session) then s
      else s.(workers := s.workers[w := s.workers[w].(status := status)])
  }

  // ---------------------------------------------------------------- claiming

  /** How many games with an id below n are assigned or live in the tournament. */
  function ActiveCount(games: map<GameId, Game>, t: TournamentId, n: nat): nat
  {
    if n == 0 then 0
    else
      ActiveCount(games, t, n - 1)
      + if n - 1 in games && games[n - 1].tournament == t && ActiveGame(games[n - 1]) then 1 else 0
  }

  predicate PendingIn(games: map<GameId, Game>, t: TournamentId, g: GameId)
  {
    g in games && games[g].tournament == t && games[g].status == Pending
  }

  /** The first pending game of the tournament, in the order its games are listed. */
  function FirstPending(games: map<GameId, Game>, t: TournamentId, n: nat): (r: Option<GameId>)
    ensures r.Some? ==> r.value < n && PendingIn(games, t, r.value)
    ensures r.Some? ==> forall g :: 0 <= g < r.value ==> !PendingIn(games, t, g)
    ensures r.None? ==> forall g :: 0 <= g < n ==> !PendingIn(games, t, g)
  {
    if n == 0 then None
    else
      var r := FirstPending(games, t, n - 1);
      if r.Some? then r else if PendingIn(games, t, n - 1) then Some(n - 1) else None
  }

  /** Strong enough for the tournament's engines, on the hardware it is pinned to. */
  predicate Suits(w: Worker, t: Tournament)
  {
    && w.resources.CanRun(t.config.Required())
    && w.hw.Some?
    && (t.profile.None? || t.profile == Some(w.hw.value.profile))
  }

  predicate Claimable(s: State, w: Worker, t: TournamentId)
  {
    && t in s.tournaments && s.tournaments[t].status == Running
    && ActiveCount(s.games, t, s.nextGame) < s.tournaments[t].config.concurrency
    && Suits(w, s.tournaments[t])
    && FirstPending(s.games, t, s.nextGame).Some?
  }

  /** The tournament next_worker_assignment settles on: newest first, the first that can be claimed. */
  function Chosen(s: State, w: Worker, n: nat): (r: Option<TournamentId>)
    ensures r.Some? ==> r.value < n && Claimable(s, w, r.value) && forall t :: r.value < t < n ==> !Claimable(s, w, t)
    ensures r.None? ==> forall t :: 0 <= t < n ==> !Claimable(s, w, t)
  {
    if n == 0 then None
    else if Claimable(s, w, n - 1) then Some(n - 1)
    else Chosen(s, w, n - 1)
  }

  /** assign_game_to_worker with the profile claim before it: one row per game, so a reassignment keeps its id. */
  function Assign(s: State, session: SessionId, t: TournamentId, g: GameId): State
    requires session in s.handlers && t in s.tournaments && g in s.games
    requires s.handlers[session].worker in s.workers && s.workers[s.handlers[session].worker].hw.Some?
  {
    var h := s.handlers[session];
    var profile := s.workers[h.worker].hw.value.profile;
    var id := if g in s.rows then s.rows[g].id else s.nextRow;
    s.(tournaments := s.tournaments[t := s.tournaments[t].(profile := Some(profile))],
       games := s.games[g := s.games[g].(status := Assigned)],
       rows := s.rows[g := Row(id, s.nextKey, Some(h.worker), RowAssigned)],
       handlers := s.handlers[session := Handler(h.worker, Some(Payload(g, id, s.nextKey)), None)],
       nextRow := s.nextRow + 1,
       nextKey := s.nextKey + 1)
  }

  /** The session is the current one of a connected worker. */
  predicate Current(s: State, session: SessionId)
  {
    && session in s.handlers
    && s.handlers[session].worker in s.workers
    && s.workers[s.handlers[session].worker].session == Some(session)
    && Assignable(s.workers[s.handlers[session].worker].status)
  }

  /** An idle handler asks for the next assignment. */
  function Claim(s: State, session: SessionId): State
  {
    if !Current(s, session) || s.handlers[session].holding.Some? then s
    else
      var chosen := Chosen(s, s.workers[s.handlers[session].worker], s.nextTournament);
      if chosen.None? then s
      else Assign(s, session, chosen.value, FirstPending(s.games, chosen.value, s.nextGame).value)
  }

  // ---------------------------------------------------------------- running an assignment

  predicate Holds(s: State, session: SessionId)
  {
    session in s.handlers && s.handlers[session].holding.Some?
  }

  /** _validated_assignment_record: the payload is the current and active assignment of its game. */
  predicate Validated(s: State, p: Payload)
  {
    p.game in s.rows && s.rows[p.game].id == p.row && s.rows[p.game].key == p.key && ActiveRow(s.rows[p.game])
  }

  function WithRow(s: State, g: GameId, status: RowStatus): State
    requires g in s.rows
  {
    s.(rows := s.rows[g := s.rows[g].(status := status)])
  }

  /** acknowledge_game_assignment */
  function Acknowledge(s: State, session: SessionId): State
  {
    if !Holds(s, session) then s
    else
      var p := s.handlers[session].holding.value;
      if Validated(s, p) && s.rows[p.game].status != RowLive then WithRow(s, p.game, RowAcked) else s
  }

  function PutDown(s: State, session: SessionId): State
    requires session in s.handlers
  {
    s.(handlers := s.handlers[session := Handler(s.handlers[session].worker, None, None)])
  }

  /** The start of run_worker_assignment_game: the board is set up from the recorded moves and the game goes live. */
  function GoLive(s: State, session: SessionId): State
  {
    if !Holds(s, session) || s.handlers[session].board.Some? then s
    else
      var p := s.handlers[session].holding.value;
      if !Validated(s, p) || p.game !in s.games || Terminal(s.games[p.game]) then s
      else
        WithRow(s, p.game, RowLive).(
          games := s.games[p.game := s.games[p.game].(status := Live)],
          handlers := s.handlers[session := s.handlers[session].(board := Some(MovesOf(s.games[p.game].log)))])
  }

  /** The runner is in the middle of the game of its payload. */
  predicate Playing(s: State, session: SessionId)
  {
    && Holds(s, session) && s.handlers[session].board.Some?
    && Validated(s, s.handlers[session].holding.value) && s.handlers[session].holding.value.game in s.games
  }

  /** record_move: the move is made on the runner's board and its row is keyed by the board's ply. */
  function RecordMove(s: State, session: SessionId, move: Move): State
  {
    if !Playing(s, session) then s
    else
      var h := s.handlers[session];
      var p, board := h.holding.value, h.board.value + [move];
      var game := s.games[p.game];
      s.(games := s.games[p.game := game.(log := game.log + [LoggedMove(game.opening.ply + |board|, move, p.key)])],
         handlers := s.handlers[session := h.(board := Some(board))])
  }

  /** finish_game and finish_game_assignment */
  function FinishGame(s: State, session: SessionId, result: Result): State
  {
    if !Playing(s, session) then s
    else
      var p := s.handlers[session].holding.value;
      var finished := s.games[p.game].(status := Finished, result := Some(result));
      PutDown(WithRow(s, p.game, RowFinished).(games := s.games[p.game := finished]), session)
  }

  /** fail_game_assignment: guarded by the key, and the game returns to the pool only from an active status. */
  function FailPayload(s: State, p: Payload): State
  {
    if p.game !in s.rows || s.rows[p.game].id != p.row || s.rows[p.game].key != p.key then s
    else
      var row := AbandonedRow(s.rows[p.game]);
      var games := if p.game in s.games && ActiveGame(s.games[p.game])
                   then s.games[p.game := s.games[p.game].(status := Pending)] else s.games;
      s.(rows := s.rows[p.game := row], games := games)
  }

  function FailAssignment(s: State, session: SessionId): State
  {
    if !Holds(s, session) then s
    else PutDown(FailPayload(s, s.handlers[session].holding.value), session)
  }

  // ---------------------------------------------------------------- runs

  datatype Step =
    | DoAddTournament(config: Config)
    | DoEditTournament(tournament: TournamentId, config: Config)
    | DoAdminAction(tournament: TournamentId, target: TournamentStatus)
    | DoStartTournament(tournament: TournamentId)
    | DoAddGame(tournament: TournamentId, opening: Opening)
    | DoFinishTournament(tournament: TournamentId)
    | DoDeleteTournament(tournament: TournamentId)
    | DoMintWorker(resources: Resources)
    | DoConnect(worker: WorkerId, hw: Hardware)
    | DoDisconnect(worker: WorkerId, sessionOption: Option<SessionId>)
    | DoRevoke(worker: WorkerId)
    | DoDeleteWorker(worker: WorkerId)
    | DoReportStatus(session: SessionId, status: WorkerStatus)
    | DoClaim(session: SessionId)
    | DoAcknowledge(session: SessionId)
    | DoGoLive(session: SessionId)
    | DoRecordMove(session: SessionId, move: Move)
    | DoFinishGame(session: SessionId, result: Result)
    | DoFailAssignment(session: SessionId)

  function Apply(s: State, step: Step): State
  {
    match step
    case DoAddTournament(config) => AddTournament(s, config)
    case DoEditTournament(t, config) => EditTournament(s, t, config)
    case DoAdminAction(t, target) => AdminAction(s, t, target)
    case DoStartTournament(t) => StartTournament(s, t)
    case DoAddGame(t, opening) => AddGame(s, t, opening)
    case DoFinishTournament(t) => FinishTournament(s, t)
    case DoDeleteTournament(t) => DeleteTournament(s, t)
    case DoMintWorker(resources) => MintWorker(s, resources)
    case DoConnect(w, hw) => Connect(s, w, hw)
    case DoDisconnect(w, session) => Disconnect(s, w, session)
    case DoRevoke(w) => Revoke(s, w)
    case DoDeleteWorker(w) => DeleteWorker(s, w)
    case DoReportStatus(session, status) => ReportStatus(s, session, status)
    case DoClaim(session) => Claim(s, session)
    case DoAcknowledge(session) => Acknowledge(s, session)
    case DoGoLive(session) => GoLive(s, session)
    case DoRecordMove(session, move) => RecordMove(s, session, move)
    case DoFinishGame(session, result) => FinishGame(s, session, result)
    case DoFailAssignment(session) => FailAssignment(s, session)
  }

  function Run(s: State, steps: seq<Step>): State
  {
    if steps == [] then s else Apply(Run(s, steps[..|steps| - 1]), steps[|steps| - 1])
  }
}
