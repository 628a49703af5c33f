/** What holds over every run of rating commits (cope/runner/commands.py, cope/ratings.py). */
module RatingSafety {
  import opened Common
  import opened Elo
  import opened RatingBook
  import opened RatingCommits

  // ---------------------------------------------------------------- rows of a tournament

  ghost predicate RatedRows(rows: seq<HistoryRow>, rated: seq<RatedGame>, t: TournamentId, c: Category)
  {
    && |rows| == 2 * |rated|
    && forall i :: 0 <= i < |rated| ==> RowsOfGame(rows[2 * i], rows[2 * i + 1], rated[i], t, c)
  }

  lemma {:induction false} RowsAppend(history: seq<HistoryRow>, row: HistoryRow, t: TournamentId)
    ensures RowsOf(history + [row], t) == RowsOf(history, t) + if row.tournament == t then [row] else []
  {
    assert (history + [row])[..|history|] == history;
  }

  lemma {:induction false} NoRowsNoHistory(history: seq<HistoryRow>, t: TournamentId)
    ensures HasHistory(history, t) <==> RowsOf(history, t) != []
  {
    if history != [] {
      var k := |history| - 1;
      NoRowsNoHistory(history[..k], t);
      if HasHistory(history, t) && history[k].tournament != t {
        var i :| 0 <= i < |history| && history[i].tournament == t;
        assert history[..k][i] == history[i];
      }
      if HasHistory(history[..k], t) {
        var i :| 0 <= i < k && history[..k][i].tournament == t;
        assert history[i].tournament == t;
      }
    }
  }

  lemma {:induction false} RowsAfterGame(expected: Expected, book: Book, t: TournamentId, c: Category, g: RatedGame, u: TournamentId)
    ensures var after := RowsOf(AddGame(expected, book, t, c, g).history, u);
            if u == t then
              var white, black := WhiteRow(expected, book.table, t, c, g), BlackRow(expected, book.table, t, c, g);
              after == RowsOf(book.history, t) + [white, black] && RowsOfGame(white, black, g, t, c)
            else after == RowsOf(book.history, u)
  {
    hide AfterGame, RowsOf;
    var white, black := WhiteRow(expected, book.table, t, c, g), BlackRow(expected, book.table, t, c, g);
    RowsAppend(book.history, white, u);
    RowsAppend(book.history + [white], black, u);
  }

  /** Rating a list of games writes its rows for that tournament and none for any other. */
  lemma {:induction false} RowsAfterGames(expected: Expected, book: Book, t: TournamentId, c: Category, rated: seq<RatedGame>, u: TournamentId)
    requires RowsOf(book.history, t) == []
    ensures RatedRows(RowsOf(AddGames(expected, book, t, c, rated).history, t), rated, t, c)
    ensures u != t ==> RowsOf(AddGames(expected, book, t, c, rated).history, u) == RowsOf(book.history, u)
  {
    hide AddGame, RowsOfGame, RowsOf;
    if rated != [] {
      var k := |rated| - 1;
      RowsAfterGames(expected, book, t, c, rated[..k], u);
      var before := AddGames(expected, book, t, c, rated[..k]);
      RowsAfterGame(expected, before, t, c, rated[k], t);
      RowsAfterGame(expected, before, t, c, rated[k], u);
    }
  }

  lemma {:induction false} CountedGood(t: Tournament, i: nat)
    requires GoodGames(t) && i < |Counted(t)|
    ensures Counted(t)[i].white != Counted(t)[i].black
  {
    if t.status == Aborted {
      DecidedGood(t.games, i);
    }
  }

  lemma {:induction false} DecidedGood(games: seq<Game>, i: nat)
    requires (forall j :: 0 <= j < |games| ==> games[j].white != games[j].black) && i < |Decided(games)|
    ensures Decided(games)[i].white != Decided(games)[i].black
  {
    var k := |games| - 1;
    if i < |Decided(games[..k])| {
      DecidedGood(games[..k], i);
    }
  }

  // ---------------------------------------------------------------- applying

  /** A commit that applies writes the whole tournament, once, and keeps every other tournament. */
  lemma {:induction false} ApplyKeepsInv(s: Store, expected: Expected, id: CommandId)
    requires StoreInv(s) && id in s.commands && ApplyCommit(s, expected, id).Some?
    ensures StoreInv(ApplyCommit(s, expected, id).value)
  {
    hide BookOk, AddGames, RowsOf, Counted;
    var after := ApplyCommit(s, expected, id).value;
    var t, c := s.commands[id].payload.tournament, s.commands[id].payload.category;
    var games := Counted(s.tournaments[t]);
    NoRowsNoHistory(s.book.history, t);
    RatedNoSelf(s.tournaments[t]);
    GamesKeepBook(expected, s.book, t, c, Rated(games));
    hide RatedRows, GoodGames, MayCommit, HasHistory;
    forall u ensures CommitOk(after, u) {
      assert CommitOk(s, u);
      RowsAfterGames(expected, s.book, t, c, Rated(games), u);
    }
  }

  lemma {:induction false} RatedNoSelf(t: Tournament)
    requires GoodGames(t) && forall i :: 0 <= i < |Counted(t)| ==> Counted(t)[i].result.Some?
    ensures NoSelfGames(Rated(Counted(t)))
  {
    hide Counted, GoodGames;
    forall i | 0 <= i < |Counted(t)| ensures Rated(Counted(t))[i].white != Rated(Counted(t))[i].black {
      CountedGood(t, i);
    }
  }

  // ---------------------------------------------------------------- one command

  lemma {:induction false} StatusKeepsInv(s: Store, id: CommandId, status: CommandStatus)
    requires StoreInv(s) && id in s.commands
    ensures StoreInv(WithStatus(s, id, status))
  {
    hide BookOk, RowsOf, Counted, RowsMatchGames, GoodGames;
    var after := WithStatus(s, id, status);
    forall t ensures CommitOk(after, t) {
      assert CommitOk(s, t);
    }
  }

  lemma {:induction false} FailKeepsInv(s: Store, id: CommandId)
    requires StoreInv(s) && id in s.commands
    ensures StoreInv(FailLinked(s, id))
  {
    hide BookOk, RowsOf, Counted, RowsMatchGames, GoodGames;
    var after := FailLinked(s, id);
    forall t ensures CommitOk(after, t) {
      assert CommitOk(s, t);
    }
  }

  lemma {:induction false} ProcessOneKeepsInv(s: Store, expected: Expected, id: CommandId, announcementFails: bool)
    requires StoreInv(s) && id in s.commands
    ensures StoreInv(ProcessOne(s, expected, id, announcementFails))
  {
    hide StoreInv, ApplyCommit, FailLinked;
    var claimed := WithStatus(s, id, Claimed);
    StatusKeepsInv(s, id, Claimed);
    var applied := ApplyCommit(claimed, expected, id);
    if applied.Some? && !announcementFails {
      ApplyKeepsInv(claimed, expected, id);
      ApplyKeepsCommands(claimed, expected, id);
      StatusKeepsInv(applied.value, id, Applied);
    } else {
      StatusKeepsInv(claimed, id, Failed);
      FailKeepsInv(WithStatus(claimed, id, Failed), id);
    }
  }

  lemma {:induction false} ApplyKeepsCommands(s: Store, expected: Expected, id: CommandId)
    requires id in s.commands && ApplyCommit(s, expected, id).Some?
    ensures ApplyCommit(s, expected, id).value.commands == s.commands
    ensures ApplyCommit(s, expected, id).value.nextCommand == s.nextCommand
    ensures ApplyCommit(s, expected, id).value.tournaments == s.tournaments
  {
  }

  /** A command that does not end as applied leaves ratings and history exactly as they were. */
  lemma {:induction false} FailedCommandLeavesTheBook(s: Store, expected: Expected, id: CommandId, announcementFails: bool)
    requires id in s.commands
    ensures var after := ProcessOne(s, expected, id, announcementFails);
            && id in after.commands && (after.commands[id].status == Applied || after.commands[id].status == Failed)
            && (after.commands[id].status == Failed ==> after.book == s.book)
            && (after.commands[id].status == Applied <==> !announcementFails && ApplyCommit(WithStatus(s, id, Claimed), expected, id).Some?)
  {
    hide AddGames;
  }

  /** Every command is processed, applied or failed, and none is created on the way. */
  lemma {:induction false} ProcessOneCommands(s: Store, expected: Expected, id: CommandId, announcementFails: bool)
    requires id in s.commands
    ensures var after := ProcessOne(s, expected, id, announcementFails);
            && after.commands.Keys == s.commands.Keys && after.nextCommand == s.nextCommand && after.tournaments == s.tournaments
            && forall k | k in s.commands && k != id :: after.commands[k] == s.commands[k]
  {
    hide AddGames;
  }

  lemma {:induction false} ProcessKeepsInv(s: Store, expected: Expected, failing: set<CommandId>, n: nat)
    requires StoreInv(s)
    ensures StoreInv(ProcessBelow(s, expected, failing, n))
  {
    hide StoreInv, ProcessOne;
    if n > 0 {
      ProcessKeepsInv(s, expected, failing, n - 1);
      var before := ProcessBelow(s, expected, failing, n - 1);
      if n - 1 in before.commands && before.commands[n - 1].status == Pending {
        ProcessOneKeepsInv(before, expected, n - 1, n - 1 in failing);
      }
    }
  }

  // ---------------------------------------------------------------- all steps

  lemma {:induction false} EnqueueKeepsInv(s: Store, payload: Payload)
    requires StoreInv(s)
    ensures StoreInv(s.(commands := s.commands[s.nextCommand := Command(payload, Pending)], nextCommand := s.nextCommand + 1))
  {
    hide BookOk, RowsOf, Counted, RowsMatchGames, GoodGames;
    var after := s.(commands := s.commands[s.nextCommand := Command(payload, Pending)], nextCommand := s.nextCommand + 1);
    forall t ensures CommitOk(after, t) {
      assert CommitOk(s, t);
    }
  }

  lemma {:induction false} RequestKeepsInv(s: Store, t: TournamentId)
    requires StoreInv(s)
    ensures StoreInv(Request(s, t))
  {
    hide BookOk, RowsOf, Counted, RowsMatchGames, GoodGames, Decided;
    var after := Request(s, t);
    forall u ensures CommitOk(after, u) {
      assert CommitOk(s, u);
    }
  }

  lemma {:induction false} SetTournamentKeepsInv(s: Store, t: TournamentId, record: Tournament)
    requires StoreInv(s) && MayBecome(s, t, record)
    ensures StoreInv(s.(tournaments := s.tournaments[t := record]))
  {
    hide BookOk, RowsOf, RowsMatchGames, GoodGames, Decided;
    var after := s.(tournaments := s.tournaments[t := record]);
    forall u ensures CommitOk(after, u) {
      assert CommitOk(s, u);
    }
  }

  lemma {:induction false} DeleteKeepsInv(s: Store, t: TournamentId)
    requires StoreInv(s)
    ensures StoreInv(Delete(s, t))
  {
    hide BookOk, RowsOf, RowsMatchGames, GoodGames, Counted, HasHistory;
    var after := Delete(s, t);
    forall u ensures CommitOk(after, u) {
      assert CommitOk(s, u);
    }
  }

  lemma {:induction false} StepKeepsInv(s: Store, expected: Expected, step: Step)
    requires StoreInv(s)
    ensures StoreInv(Apply(s, expected, step))
  {
    hide StoreInv, ProcessBelow, Request, Delete, MayBecome;
    match step
    case DoSetTournament(t, record) =>
      if MayBecome(s, t, record) {
        SetTournamentKeepsInv(s, t, record);
      }
    case DoDeleteTournament(t) => DeleteKeepsInv(s, t);
    case DoRequest(t) => RequestKeepsInv(s, t);
    case DoEnqueueOther => EnqueueKeepsInv(s, OtherCommand);
    case DoProcess(failing) => ProcessKeepsInv(s, expected, failing, s.nextCommand);
  }

  lemma {:induction false} EmptyInv()
    ensures StoreInv(Empty())
  {
  }

  lemma {:induction false} RunKeepsInv(expected: Expected, steps: seq<Step>)
    ensures StoreInv(Run(Empty(), expected, steps))
  {
    hide StoreInv, Apply;
    if steps == [] {
      EmptyInv();
    } else {
      RunKeepsInv(expected, steps[..|steps| - 1]);
      StepKeepsInv(Run(Empty(), expected, steps[..|steps| - 1]), expected, steps[|steps| - 1]);
    }
  }

  // ---------------------------------------------------------------- exactly once

  /** An applied commit, its tournament and its history rows: what stays for good. */
  ghost predicate Kept(s: Store, a: Store, t: TournamentId)
    requires t in s.commits && t in s.tournaments
  {
    && t in a.commits && a.commits[t] == s.commits[t]
    && t in a.tournaments && a.tournaments[t].status == s.tournaments[t].status && a.tournaments[t].games == s.tournaments[t].games
    && RowsOf(a.book.history, t) == RowsOf(s.book.history, t)
  }

  ghost predicate IsApplied(s: Store, t: TournamentId)
  {
    t in s.commits && s.commits[t].status == CommitApplied && t in s.tournaments && Over(s.tournaments[t])
  }

  lemma {:induction false} ApplyKeepsOthers(s: Store, expected: Expected, id: CommandId, t: TournamentId)
    requires StoreInv(s) && id in s.commands && ApplyCommit(s, expected, id).Some? && IsApplied(s, t)
    ensures Kept(s, ApplyCommit(s, expected, id).value, t)
  {
    hide BookOk, AddGames, RowsOf, Counted, StoreInv, HasHistory;
    var u, c := s.commands[id].payload.tournament, s.commands[id].payload.category;
    NoRowsNoHistory(s.book.history, u);
    RowsAfterGames(expected, s.book, u, c, Rated(Counted(s.tournaments[u])), t);
  }

  lemma {:induction false} ProcessOneKeepsApplied(s: Store, expected: Expected, id: CommandId, announcementFails: bool, t: TournamentId)
    requires StoreInv(s) && id in s.commands && IsApplied(s, t)
    ensures Kept(s, ProcessOne(s, expected, id, announcementFails), t)
  {
    hide StoreInv, ApplyCommit, RowsOf;
    var claimed := WithStatus(s, id, Claimed);
    StatusKeepsInv(s, id, Claimed);
    var applied := ApplyCommit(claimed, expected, id);
    if applied.Some? && !announcementFails {
      ApplyKeepsOthers(claimed, expected, id, t);
      ApplyKeepsCommands(claimed, expected, id);
    }
  }

  lemma {:induction false} ProcessKeepsApplied(s: Store, expected: Expected, failing: set<CommandId>, n: nat, t: TournamentId)
    requires StoreInv(s) && IsApplied(s, t)
    ensures Kept(s, ProcessBelow(s, expected, failing, n), t)
  {
    hide StoreInv, ProcessOne, RowsOf;
    if n > 0 {
      ProcessKeepsApplied(s, expected, failing, n - 1, t);
      ProcessKeepsInv(s, expected, failing, n - 1);
      var before := ProcessBelow(s, expected, failing, n - 1);
      if n - 1 in before.commands && before.commands[n - 1].status == Pending {
        ProcessOneKeepsApplied(before, expected, n - 1, n - 1 in failing, t);
      }
    }
  }

  lemma {:induction false} StepKeepsApplied(s: Store, expected: Expected, step: Step, t: TournamentId)
    requires StoreInv(s) && IsApplied(s, t)
    ensures Kept(s, Apply(s, expected, step), t)
  {
    hide StoreInv, ProcessBelow, RowsOf, GoodGames, HasHistory;
    if step.DoProcess? {
      ProcessKeepsApplied(s, expected, step.failing, s.nextCommand, t);
    }
  }

  /** A tournament is committed at most once: applied is absorbing, and its rows are never added to or changed. */
  lemma {:induction false} AppliedForever(s: Store, expected: Expected, steps: seq<Step>, t: TournamentId)
    requires StoreInv(s) && IsApplied(s, t)
    ensures Kept(s, Run(s, expected, steps), t) && IsApplied(Run(s, expected, steps), t) && StoreInv(Run(s, expected, steps))
  {
    hide StoreInv, Apply, RowsOf;
    if steps != [] {
      var before := steps[..|steps| - 1];
      AppliedForever(s, expected, before, t);
      var middle := Run(s, expected, before);
      StepKeepsInv(middle, expected, steps[|steps| - 1]);
      StepKeepsApplied(middle, expected, steps[|steps| - 1], t);
    }
  }

  /**
   Ratings equal the replay of the log, exactly once per tournament: after any run each rating is
   1500 plus the sum of its history changes and counts its rows, every row continues where the
   rows before it ended, and a tournament has either no rows or, once its commit is applied,
   exactly two for each game that counts.
   */
  lemma {:induction false} RatingsEqualReplay(expected: Expected, steps: seq<Step>, e: Engine, c: Category, t: TournamentId)
    ensures var s := Run(Empty(), expected, steps);
            && EloOf(s.book.table, e, c) == 1_500_000_000 + Changes(s.book.history, e, c)
            && GamesOf(s.book.table, e, c) == RowCount(s.book.history, e, c)
            && Chained(s.book.history)
            && (if t in s.commits && s.commits[t].status == CommitApplied then
                  t in s.tournaments && RowsMatchGames(RowsOf(s.book.history, t), Counted(s.tournaments[t]), t, s.commits[t].category)
                else RowsOf(s.book.history, t) == [])
  {
    hide Run, Chained, Changes, RowCount, RowsMatchGames, RowsOf, Counted, GoodGames;
    RunKeepsInv(expected, steps);
    var s := Run(Empty(), expected, steps);
    assert CommitOk(s, t);
    assert BookOk(s.book);
  }
}
