/**
 Rating commits as runner commands (cope/runner/commands.py, cope/ratings.py, cope/db/repo.py):
 requesting, claiming, applying under a savepoint, failing and asking again.
 */
module RatingCommits {
  import opened Common
  import opened Elo
  import opened RatingBook

  type TournamentId = int
  type CommandId = nat

  /** Only whether a tournament is over, and how, matters here. */
  datatype TournamentStatus = Open | Finished | Aborted

  /** A game has a result just when its status is finished. */
  datatype Game = Game(id: int, white: Engine, black: Engine, result: Option<Result>)

  datatype Tournament = Tournament(
    status: TournamentStatus, rated: bool, category: Option<Category>, linked: bool,
    participants: seq<Engine>, games: seq<Game>)

  datatype CommitStatus = CommitPending | CommitClaimed | CommitApplied | CommitFailed

  datatype Commit = Commit(category: Category, command: Option<CommandId>, status: CommitStatus)

  datatype Payload = CommitResults(tournament: int, category: int) | OtherCommand

  datatype CommandStatus = Pending | Claimed | Applied | Failed

  datatype Command = Command(payload: Payload, status: CommandStatus)

  datatype Store = Store(
    tournaments: map<TournamentId, Tournament>,
    commits: map<TournamentId, Commit>,
    commands: map<CommandId, Command>,
    book: Book,
    nextCommand: CommandId)

  predicate Over(t: Tournament) { t.status != Open }

  // ---------------------------------------------------------------- the games that count

  function Decided(games: seq<Game>): seq<Game>
  {
    if games == [] then []
    else Decided(games[..|games| - 1]) + if games[|games| - 1].result.Some? then [games[|games| - 1]] else []
  }

  /** An aborted tournament counts the games it finished, a finished one all of its games. */
  function Counted(t: Tournament): seq<Game>
  {
    if t.status == Aborted then Decided(t.games) else t.games
  }

  predicate AllRateable(t: Tournament, games: seq<Game>)
  {
    forall i :: 0 <= i < |games| ==>
      games[i].result.Some? && games[i].white in t.participants && games[i].black in t.participants
  }

  function Rated(games: seq<Game>): (rated: seq<RatedGame>)
    requires forall i :: 0 <= i < |games| ==> games[i].result.Some?
    ensures |rated| == |games|
  {
    seq(|games|, i requires 0 <= i < |games| => RatedGame(games[i].id, games[i].white, games[i].black, games[i].result.value))
  }

  predicate HasHistory(history: seq<HistoryRow>, t: TournamentId)
  {
    exists i :: 0 <= i < |history| && history[i].tournament == t
  }

  predicate MayCommit(t: Tournament, category: Category)
  {
    && Over(t) && t.rated && t.category == Some(category) && t.linked
    && Counted(t) != [] && AllRateable(t, Counted(t))
  }

  // ---------------------------------------------------------------- requesting

  /** Why a request is refused, in the order of the checks; the first is the answer of the route before it. */
  datatype Refusal = UnknownTournament | NotOver | NothingFinished | Unrated | CustomSettings

  /** What a request comes to: refused with an error, unnecessary, or queued. */
  datatype Answer = Refused(reason: Refusal) | AlreadyRequested | Queued(command: CommandId)

  /** The command of a pending commit is still to be processed. */
  predicate UnderWay(s: Store, commit: Commit)
  {
    && commit.command.Some? && commit.command.value in s.commands
    && (s.commands[commit.command.value].status == Pending || s.commands[commit.command.value].status == Claimed)
  }

  function AnswerTo(s: Store, t: TournamentId): Answer
  {
    if t !in s.tournaments then Refused(UnknownTournament)
    else
      var tournament := s.tournaments[t];
      if !Over(tournament) then Refused(NotOver)
      else if tournament.status == Aborted && Decided(tournament.games) == [] then Refused(NothingFinished)
      else if !tournament.rated then Refused(Unrated)
      else if tournament.category.None? || !tournament.linked then Refused(CustomSettings)
      else if t in s.commits && (s.commits[t].status == CommitClaimed || s.commits[t].status == CommitApplied) then AlreadyRequested
      else if t in s.commits && s.commits[t].status == CommitPending && UnderWay(s, s.commits[t]) then AlreadyRequested
      else Queued(s.nextCommand)
  }

  /** request_tournament_rating_commit; a refused request, or one already under way, changes nothing. */
  function Request(s: Store, t: TournamentId): Store
  {
    if !AnswerTo(s, t).Queued? then s
    else
      var category := s.tournaments[t].category.value;
      s.(commands := s.commands[s.nextCommand := Command(CommitResults(t, category), Pending)],
         commits := s.commits[t := Commit(category, Some(s.nextCommand), CommitPending)],
         nextCommand := s.nextCommand + 1)
  }

  // ---------------------------------------------------------------- applying

  /** A commit without a command is taken over by the command that names it. */
  function Adopted(commit: Commit, id: CommandId): Commit
  {
    if commit.command.None? && commit.status == CommitPending then commit.(command := Some(id)) else commit
  }

  /** apply_tournament_rating_commit: the new tables, or nothing when it raises. */
  function ApplyCommit(s: Store, expected: Expected, id: CommandId): Option<Store>
    requires id in s.commands
  {
    match s.commands[id].payload
    case OtherCommand => None
    case CommitResults(t, category) =>
      if t <= 0 || category <= 0 || t !in s.commits then None
      else
        var commit := Adopted(s.commits[t], id);
        if commit.command != Some(id) || commit.category != category then None
        else if commit.status != CommitPending && commit.status != CommitClaimed then None
        else if t !in s.tournaments || !MayCommit(s.tournaments[t], category) then None
        else if HasHistory(s.book.history, t) then None
        else
          Some(s.(commits := s.commits[t := Commit(category, Some(id), CommitApplied)],
                  book := AddGames(expected, s.book, t, category, Rated(Counted(s.tournaments[t])))))
  }

  function WithStatus(s: Store, id: CommandId, status: CommandStatus): Store
    requires id in s.commands
  {
    s.(commands := s.commands[id := s.commands[id].(status := status)])
  }

  function FailedCommit(s: Store, id: CommandId, t: TournamentId): Commit
    requires id in s.commands && t in s.commits
  {
    var commit, payload := s.commits[t], s.commands[id].payload;
    if payload.CommitResults? && (commit.status == CommitPending || commit.status == CommitClaimed)
       && (commit.command == Some(id) || (commit.command.None? && payload == CommitResults(t, commit.category)))
    then Commit(commit.category, if commit.command.None? then Some(id) else commit.command, CommitFailed)
    else commit
  }

  /** _fail_linked_rating_commit */
  function FailLinked(s: Store, id: CommandId): Store
    requires id in s.commands
  {
    s.(commits := map t | t in s.commits :: FailedCommit(s, id, t))
  }

  /**
   One command from claim to end. Whatever the dispatch did before it raised, by itself or in the
   announcement after it, is rolled back to the savepoint taken after the claim.
   */
  function ProcessOne(s: Store, expected: Expected, id: CommandId, announcementFails: bool): Store
    requires id in s.commands
  {
    var claimed := WithStatus(s, id, Claimed);
    var applied := ApplyCommit(claimed, expected, id);
    if applied.Some? && !announcementFails then WithStatus(applied.value, id, Applied)
    else FailLinked(WithStatus(claimed, id, Failed), id)
  }

  /** All pending commands below n, oldest first. */
  function ProcessBelow(s: Store, expected: Expected, failing: set<CommandId>, n: nat): Store
  {
    if n == 0 then s
    else
      var before := ProcessBelow(s, expected, failing, n - 1);
      if n - 1 in before.commands && before.commands[n - 1].status == Pending
      then ProcessOne(before, expected, n - 1, n - 1 in failing) else before
  }

  // ---------------------------------------------------------------- runs

  datatype Step =
    /** Anything else that happens to a tournament: it may change while it is open, and keeps its games once it is over. */
    | DoSetTournament(tournament: TournamentId, record: Tournament)
    | DoDeleteTournament(tournament: TournamentId)
    | DoRequest(tournament: TournamentId)
    | DoEnqueueOther
    | DoProcess(failing: set<CommandId>)

  ghost predicate GoodGames(t: Tournament)
  {
    forall i :: 0 <= i < |t.games| ==> t.games[i].white != t.games[i].black
  }

  ghost predicate MayBecome(s: Store, t: TournamentId, record: Tournament)
  {
    && GoodGames(record)
    && (t in s.tournaments && Over(s.tournaments[t]) ==>
          record.status == s.tournaments[t].status && record.games == s.tournaments[t].games)
  }

  /** delete_tournament: refused while a commit is applied or in progress, or history refers to it. */
  function Delete(s: Store, t: TournamentId): Store
  {
    if t !in s.tournaments then s
    else if t in s.commits && s.commits[t].status != CommitFailed then s
    else if HasHistory(s.book.history, t) then s
    else
      s.(tournaments := map u | u in s.tournaments && u != t :: s.tournaments[u],
         commits := map u | u in s.commits && u != t :: s.commits[u])
  }

  ghost function Apply(s: Store, expected: Expected, step: Step): Store
  {
    match step
    case DoSetTournament(t, record) => if MayBecome(s, t, record) then s.(tournaments := s.tournaments[t := record]) else s
    case DoDeleteTournament(t) => Delete(s, t)
    case DoRequest(t) => Request(s, t)
    case DoEnqueueOther =>
      s.(commands := s.commands[s.nextCommand := Command(OtherCommand, Pending)], nextCommand := s.nextCommand + 1)
    case DoProcess(failing) => ProcessBelow(s, expected, failing, s.nextCommand)
  }

  ghost function Run(s: Store, expected: Expected, steps: seq<Step>): Store
  {
    if steps == [] then s else Apply(Run(s, expected, steps[..|steps| - 1]), expected, steps[|steps| - 1])
  }

  function Empty(): Store { Store(map[], map[], map[], Book(map[], []), 0) }

  // ---------------------------------------------------------------- the invariant

  /** The history rows of a tournament. */
  function RowsOf(history: seq<HistoryRow>, t: TournamentId): seq<HistoryRow>
  {
    if history == [] then []
    else RowsOf(history[..|history| - 1], t) + if history[|history| - 1].tournament == t then [history[|history| - 1]] else []
  }

  /** Two rows for every counted game, in order. */
  ghost predicate RowsMatchGames(rows: seq<HistoryRow>, games: seq<Game>, t: TournamentId, c: Category)
  {
    && |rows| == 2 * |games|
    && (forall i :: 0 <= i < |games| ==> games[i].result.Some?)
    && forall i :: 0 <= i < |games| ==> RowsOfGame(rows[2 * i], rows[2 * i + 1], Rated(games)[i], t, c)
  }

  /** Nothing is on record for a tournament unless its commit is applied, and then everything is. */
  ghost predicate CommitOk(s: Store, t: TournamentId)
  {
    if t in s.commits && s.commits[t].status == CommitApplied then
      && t in s.tournaments && Over(s.tournaments[t]) && Counted(s.tournaments[t]) != []
      && RowsMatchGames(RowsOf(s.book.history, t), Counted(s.tournaments[t]), t, s.commits[t].category)
    else RowsOf(s.book.history, t) == []
  }

  ghost predicate StoreInv(s: Store)
  {
    && BookOk(s.book)
    && (forall t | t in s.tournaments :: GoodGames(s.tournaments[t]))
    && (forall t :: CommitOk(s, t))
    && (forall id | id in s.commands :: id < s.nextCommand)
  }
}
