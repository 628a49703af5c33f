/**
 The live map of the event hub (cope/web/app.py): what is known about the games in progress, kept
 up to date event by event, and what it shows after any sequence of events.
 */
module LiveGames {
  import opened Common

  type Id = nat

  /** The contents of a field that the hub passes on without looking at it. */
  type Payload = string

  datatype Side = White | Black

  datatype ClockState = ClockState(game: Id, clocks: Payload, activeSide: Payload, running: bool, sentAt: Payload)

  /** What is kept about one game; a part that is missing counts as empty. */
  datatype View = View(game: Option<Id>, engineData: map<Side, Payload>, clocks: Option<Payload>,
                       clockState: Option<ClockState>, rest: Payload)

  /** The live part of a tournament.live event. */
  datatype LiveReport = LiveReport(game: Option<Id>, clear: bool, view: View)

  datatype Body =
    | GameMove
    | TournamentLive(live: Option<LiveReport>)
    | EngineInfo(side: Option<Side>, engineData: Option<Payload>)
    | ClockSync(clocks: Option<Payload>, activeSide: Payload, running: bool)
    | Other

  /** An event with the tournament and the game that it names, if they are positive numbers. */
  datatype Event = Event(tournament: Option<Id>, game: Option<Id>, sentAt: Payload, body: Body)

  /** Everything that changes the map. */
  datatype Step =
    | Recorded(event: Event)
    | Cleared(tournament: Id)
    | Pruned(tournament: Id, active: set<Id>)

  // ---------------------------------------------------------------- one game

  /** What a step means for one game. */
  datatype Change = Keep | Remove | Replace(view: View) | Engine(side: Side, data: Payload) | Clock(state: ClockState)

  function NewView(game: Id): View { View(Some(game), map[], None, None, "") }

  function Next(cell: Option<View>, change: Change, game: Id): Option<View>
  {
    var view := if cell.Some? then cell.value else NewView(game);
    match change
    case Keep => cell
    case Remove => None
    case Replace(new_) => Some(new_)
    case Engine(side, data) => Some(view.(game := Some(game), engineData := view.engineData[side := data]))
    case Clock(state) => Some(view.(game := Some(game), clocks := Some(state.clocks), clockState := Some(state)))
  }

  /** The game a live report is about: its own number first, then that of the event. */
  function ReportedGame(event: Event, live: LiveReport): Option<Id>
  {
    if live.game.Some? then live.game else event.game
  }

  function EventChange(event: Event, game: Id): Change
  {
    match event.body
    case GameMove => if event.game == Some(game) then Remove else Keep
    case TournamentLive(None) => Keep
    case TournamentLive(Some(live)) =>
      if live.clear then (if ReportedGame(event, live) in {None, Some(game)} then Remove else Keep)
      else if ReportedGame(event, live) == Some(game) then Replace(live.view)
      else Keep
    case EngineInfo(Some(side), Some(data)) => if event.game == Some(game) then Engine(side, data) else Keep
    case EngineInfo(_, _) => Keep
    case ClockSync(Some(clocks), activeSide, running) =>
      if event.game == Some(game) then Clock(ClockState(game, clocks, activeSide, running, event.sentAt)) else Keep
    case ClockSync(None, _, _) => Keep
    case Other => Keep
  }

  function ChangeOf(step: Step, tournament: Id, game: Id): Change
  {
    match step
    case Recorded(event) => if event.tournament == Some(tournament) then EventChange(event, game) else Keep
    case Cleared(t) => if t == tournament then Remove else Keep
    case Pruned(t, active) => if t == tournament && game !in active then Remove else Keep
  }

  /** The game that a live report names: by its own number, or by the event's. */
  ghost predicate Names(event: Event, live: LiveReport, game: Option<Id>)
  {
    if live.game == None then event.game == game else live.game == game
  }

  /** The event is about a game of the tournament. */
  ghost predicate About(event: Event, tournament: Id, game: Id)
  {
    event.tournament == Some(tournament) && event.game == Some(game)
  }

  /**
   What each event means for a game: a move removes it; a live report that clears removes the game it
   names or, naming none, the whole tournament, and any other report replaces it; engine data and clocks
   add to it. Nothing else changes it.
   */
  lemma {:induction false} EventsMean(event: Event, tournament: Id, game: Id)
    ensures var change := ChangeOf(Recorded(event), tournament, game);
            && (change == Remove <==>
                  || (About(event, tournament, game) && event.body == GameMove)
                  || (event.tournament == Some(tournament) && event.body.TournamentLive? && event.body.live.Some?
                      && event.body.live.value.clear
                      && (Names(event, event.body.live.value, Some(game)) || Names(event, event.body.live.value, None))))
            && (forall view :: change == Replace(view) <==>
                  event.tournament == Some(tournament) && event.body.TournamentLive? && event.body.live.Some?
                  && !event.body.live.value.clear && Names(event, event.body.live.value, Some(game))
                  && event.body.live.value.view == view)
            && (forall side, data :: change == Engine(side, data) <==>
                  About(event, tournament, game) && event.body == EngineInfo(Some(side), Some(data)))
            && (forall state :: change == Clock(state) <==>
                  About(event, tournament, game) && event.body.ClockSync? && event.body.clocks.Some?
                  && state == ClockState(game, event.body.clocks.value, event.body.activeSide, event.body.running, event.sentAt))
  {
  }

  /** Clearing removes the games of the tournament, pruning those that are not active. */
  lemma {:induction false} ClearingMeans(t: Id, active: set<Id>, tournament: Id, game: Id)
    ensures ChangeOf(Cleared(t), tournament, game) == if tournament == t then Remove else Keep
    ensures ChangeOf(Pruned(t, active), tournament, game) == if tournament == t && game !in active then Remove else Keep
  {
  }

  /** What becomes of a game: gone, the reported view, or what there was with one part renewed. */
  lemma {:induction false} ChangesMean(cell: Option<View>, change: Change, game: Id)
    ensures var after := Next(cell, change, game);
            && (change == Keep ==> after == cell)
            && (change == Remove ==> after == None)
            && (change.Replace? ==> after == Some(change.view))
            && (change.Engine? || change.Clock? ==>
                  && after.Some? && after.value.game == Some(game)
                  && (cell.Some? ==> after.value.rest == cell.value.rest))
            && (change.Engine? ==>
                  && after.value.engineData.Keys == (if cell.Some? then cell.value.engineData.Keys else {}) + {change.side}
                  && after.value.engineData[change.side] == change.data
                  && (forall side :: side in after.value.engineData && side != change.side ==>
                        cell.Some? && side in cell.value.engineData && after.value.engineData[side] == cell.value.engineData[side])
                  && after.value.clockState == (if cell.Some? then cell.value.clockState else None))
            && (change.Clock? ==>
                  && after.value.clockState == Some(change.state) && after.value.clocks == Some(change.state.clocks)
                  && after.value.engineData == (if cell.Some? then cell.value.engineData else map[]))
  {
  }

  /** What is known about a game after some steps. */
  function CellAfter(steps: seq<Step>, tournament: Id, game: Id): Option<View>
  {
    if steps == [] then None
    else
      var k := |steps| - 1;
      Next(CellAfter(steps[..k], tournament, game), ChangeOf(steps[k], tournament, game), game)
  }

  // ---------------------------------------------------------------- the latest word

  /** What a step says about one item: nothing, that it is gone, or its value. */
  datatype Word<T> = Silent | Gone | Says(value: T)

  function Latest<T>(words: seq<Word<T>>): Option<T>
  {
    if words == [] then None
    else
      match words[|words| - 1]
      case Silent => Latest(words[..|words| - 1])
      case Gone => None
      case Says(value) => Some(value)
  }

  /** The latest word is the one that nothing after it takes back. */
  lemma {:induction false} LatestExactly<T(!new)>(words: seq<Word<T>>, value: T)
    ensures Latest(words) == Some(value)
       <==> exists i :: 0 <= i < |words| && words[i] == Says(value) && forall j :: i < j < |words| ==> words[j] == Silent
    decreases |words|
  {
    if words != [] {
      var k := |words| - 1;
      var front := words[..k];
      LatestExactly(front, value);
      if words[k] == Silent && Latest(words) == Some(value) {
        var i :| 0 <= i < k && front[i] == Says(value) && forall j :: i < j < k ==> front[j] == Silent;
        assert words[i] == Says(value) && forall j :: i < j < |words| ==> words[j] == Silent;
      }
      if i :| 0 <= i < |words| && words[i] == Says(value) && forall j :: i < j < |words| ==> words[j] == Silent {
        if i < k {
          assert front[i] == Says(value) && forall j :: i < j < k ==> front[j] == Silent;
        }
      }
    }
  }

  const ShownWord: Change -> Word<()> :=
    (change: Change) =>
      match change
      case Keep => Silent
      case Remove => Gone
      case _ => Says(())

  function EngineWord(side: Side): Change -> Word<Payload>
  {
    (change: Change) =>
      match change
      case Keep => Silent
      case Remove => Gone
      case Replace(view) => if side in view.engineData then Says(view.engineData[side]) else Gone
      case Engine(s, data) => if s == side then Says(data) else Silent
      case Clock(_) => Silent
  }

  const ClockWord: Change -> Word<ClockState> :=
    (change: Change) =>
      match change
      case Keep => Silent
      case Remove => Gone
      case Replace(view) => if view.clockState.Some? then Says(view.clockState.value) else Gone
      case Engine(_, _) => Silent
      case Clock(state) => Says(state)

  function Words<T>(steps: seq<Step>, tournament: Id, game: Id, word: Change -> Word<T>): (words: seq<Word<T>>)
    ensures |words| == |steps|
  {
    seq(|steps|, i requires 0 <= i < |steps| => word(ChangeOf(steps[i], tournament, game)))
  }

  function EngineOf(cell: Option<View>, side: Side): Option<Payload>
  {
    if cell.Some? && side in cell.value.engineData then Some(cell.value.engineData[side]) else None
  }

  function ClockOf(cell: Option<View>): Option<ClockState>
  {
    if cell.Some? then cell.value.clockState else None
  }

  lemma {:induction false} WordsOfFront<T>(steps: seq<Step>, tournament: Id, game: Id, word: Change -> Word<T>)
    requires steps != []
    ensures Words(steps, tournament, game, word)[..|steps| - 1] == Words(steps[..|steps| - 1], tournament, game, word)
  {
  }

  lemma {:induction false} LatestOfOneMore<T>(steps: seq<Step>, tournament: Id, game: Id, word: Change -> Word<T>)
    requires steps != []
    ensures var k := |steps| - 1;
            Latest(Words(steps, tournament, game, word))
            == match word(ChangeOf(steps[k], tournament, game))
               case Silent => Latest(Words(steps[..k], tournament, game, word))
               case Gone => None
               case Says(value) => Some(value)
  {
    WordsOfFront(steps, tournament, game, word);
  }

  /** Each part of what is kept about a game is the latest word on it. */
  lemma {:induction false} ShownIsLatest(steps: seq<Step>, tournament: Id, game: Id)
    ensures CellAfter(steps, tournament, game).Some? <==> Latest(Words(steps, tournament, game, ShownWord)) == Some(())
    decreases |steps|
  {
    hide ChangeOf;
    if steps != [] {
      ShownIsLatest(steps[..|steps| - 1], tournament, game);
      LatestOfOneMore(steps, tournament, game, ShownWord);
    }
  }

  lemma {:induction false} EngineIsLatest(steps: seq<Step>, tournament: Id, game: Id, side: Side)
    ensures EngineOf(CellAfter(steps, tournament, game), side) == Latest(Words(steps, tournament, game, EngineWord(side)))
    decreases |steps|
  {
    hide ChangeOf;
    if steps != [] {
      EngineIsLatest(steps[..|steps| - 1], tournament, game, side);
      LatestOfOneMore(steps, tournament, game, EngineWord(side));
    }
  }

  lemma {:induction false} ClockIsLatest(steps: seq<Step>, tournament: Id, game: Id)
    ensures ClockOf(CellAfter(steps, tournament, game)) == Latest(Words(steps, tournament, game, ClockWord))
    decreases |steps|
  {
    hide ChangeOf;
    if steps != [] {
      ClockIsLatest(steps[..|steps| - 1], tournament, game);
      LatestOfOneMore(steps, tournament, game, ClockWord);
    }
  }

  /** Some step said so about the game, and no later step says anything else about it. */
  ghost predicate Stands<T(!new)>(steps: seq<Step>, tournament: Id, game: Id, word: Change -> Word<T>, value: T)
  {
    exists i :: 0 <= i < |steps| && word(ChangeOf(steps[i], tournament, game)) == Says(value)
      && forall j :: i < j < |steps| ==> word(ChangeOf(steps[j], tournament, game)) == Silent
  }

  lemma {:induction false} LatestStands<T(!new)>(
    steps: seq<Step>, tournament: Id, game: Id, word: Change -> Word<T>, value: T)
    ensures Latest(Words(steps, tournament, game, word)) == Some(value) <==> Stands(steps, tournament, game, word, value)
  {
    hide ChangeOf, Latest;
    var words := Words(steps, tournament, game, word);
    LatestExactly(words, value);
    if i :| 0 <= i < |words| && words[i] == Says(value) && forall j :: i < j < |words| ==> words[j] == Silent {
      assert forall j :: i < j < |steps| ==> word(ChangeOf(steps[j], tournament, game)) == words[j];
      assert word(ChangeOf(steps[i], tournament, game)) == Says(value);
    }
    if Stands(steps, tournament, game, word, value) {
      var i :| 0 <= i < |steps| && word(ChangeOf(steps[i], tournament, game)) == Says(value)
        && forall j :: i < j < |steps| ==> word(ChangeOf(steps[j], tournament, game)) == Silent;
      assert words[i] == Says(value) && forall j :: i < j < |words| ==> words[j] == Silent;
    }
  }

  /**
   What the map shows about a game is the latest word on each part: it is shown at all exactly when
   something reported it and nothing removed it since, and its engine data and clock are those of the
   last report of that kind that nothing replaced.
   */
  lemma {:induction false} LiveViewIsLatest(
    steps: seq<Step>, tournament: Id, game: Id, side: Side, data: Payload, state: ClockState)
    ensures var cell := CellAfter(steps, tournament, game);
            && (cell.Some? <==> Stands(steps, tournament, game, ShownWord, ()))
            && (EngineOf(cell, side) == Some(data) <==> Stands(steps, tournament, game, EngineWord(side), data))
            && (ClockOf(cell) == Some(state) <==> Stands(steps, tournament, game, ClockWord, state))
  {
    hide ChangeOf, Latest, Words, Stands, CellAfter;
    ShownIsLatest(steps, tournament, game);
    LatestStands(steps, tournament, game, ShownWord, ());
    EngineIsLatest(steps, tournament, game, side);
    LatestStands(steps, tournament, game, EngineWord(side), data);
    ClockIsLatest(steps, tournament, game);
    LatestStands(steps, tournament, game, ClockWord, state);
  }

  // ---------------------------------------------------------------- the map

  type LiveMap = map<Id, map<Id, View>>

  function Lookup(live: LiveMap, tournament: Id, game: Id): Option<View>
  {
    if tournament in live && game in live[tournament] then Some(live[tournament][game]) else None
  }

  /** A tournament without games has no entry. */
  ghost predicate NoEmptyEntry(live: LiveMap)
  {
    forall t :: t in live ==> live[t] != map[]
  }

  /** Two maps that answer every lookup alike are the same map. */
  lemma {:induction false} LookupsTellTheMap(a: LiveMap, b: LiveMap)
    requires NoEmptyEntry(a) && NoEmptyEntry(b) && forall t, g :: Lookup(a, t, g) == Lookup(b, t, g)
    ensures a == b
  {
    forall t ensures t in a ==> t in b && a[t] == b[t] {
      SameEntry(a, b, t);
    }
    forall t ensures t in b ==> t in a {
      SameEntry(b, a, t);
    }
  }

  lemma {:induction false} SameEntry(a: LiveMap, b: LiveMap, t: Id)
    requires NoEmptyEntry(a) && NoEmptyEntry(b) && forall t, g :: Lookup(a, t, g) == Lookup(b, t, g)
    ensures t in a ==> t in b && a[t] == b[t]
  {
    if t in a {
      assert a[t].Keys != {};
      var g :| g in a[t].Keys;
      assert Lookup(a, t, g).Some? && Lookup(b, t, g).Some?;
      forall h ensures (h in a[t] <==> h in b[t]) && (h in a[t] ==> a[t][h] == b[t][h]) {
        assert Lookup(a, t, h) == Lookup(b, t, h);
      }
    }
  }

  /** The part of the hub that keeps the games in progress. */
  class LiveHub {
    var live: LiveMap
    /** Everything that happened to the map. */
    ghost var steps: seq<Step>

    ghost predicate Valid()
      reads this
    {
      && NoEmptyEntry(live)
      && forall t, g :: Lookup(live, t, g) == CellAfter(steps, t, g)
    }

    constructor ()
      ensures Valid() && steps == []
    {
      live, steps := map[], [];
    }

    /** A step whose change of every game has been made is done. */
    ghost method Done(step: Step, was: LiveMap)
      requires forall t, g :: Lookup(was, t, g) == CellAfter(steps, t, g)
      requires NoEmptyEntry(live)
      requires forall t, g :: Lookup(live, t, g) == Next(Lookup(was, t, g), ChangeOf(step, t, g), g)
      modifies this`steps
      ensures Valid() && steps == old(steps) + [step]
    {
      hide Lookup, ChangeOf, NoEmptyEntry, Next;
      ghost var before := steps;
      steps := steps + [step];
      assert steps[..|before|] == before;
    }

    /** Forget one game, and its tournament with the last one. */
    method Pop(tournament: Id, game: Id)
      requires NoEmptyEntry(live)
      modifies this`live
      ensures NoEmptyEntry(live)
      ensures forall t, g :: Lookup(live, t, g) == if t == tournament && g == game then None else Lookup(old(live), t, g)
    {
      if tournament in live {
        var games := live[tournament] - {game};
        if games == map[] {
          assert forall g :: g in live[tournament] ==> g == game by {
            assert forall g :: g in live[tournament] && g != game ==> g in games;
          }
          live := live - {tournament};
        } else {
          live := live[tournament := games];
        }
      }
    }

    /** Put a game into its tournament, which may have no entry yet. */
    method Store(tournament: Id, game: Id, view: View)
      requires NoEmptyEntry(live)
      modifies this`live
      ensures NoEmptyEntry(live)
      ensures forall t, g :: Lookup(live, t, g) == if t == tournament && g == game then Some(view) else Lookup(old(live), t, g)
    {
      var games := if tournament in live then live[tournament] else map[];
      live := live[tournament := games[game := view]];
      assert game in live[tournament];
    }

    /** What is known about a game, or a new entry for it. */
    method Fetch(tournament: Id, game: Id) returns (view: View)
      ensures var cell := Lookup(live, tournament, game);
              view == if cell.Some? then cell.value else NewView(game)
    {
      view := NewView(game);
      if tournament in live && game in live[tournament] {
        view := live[tournament][game];
      }
    }

    /** _record_live_event */
    method RecordLiveEvent(event: Event)
      requires Valid()
      modifies this
      ensures Valid() && steps == old(steps) + [Recorded(event)]
    {
      hide CellAfter, NoEmptyEntry;
      ghost var was := live;
      if event.tournament.Some? {
        var tournament := event.tournament.value;
        match event.body {
          case GameMove =>
            if event.game.Some? {
              Pop(tournament, event.game.value);
            }
          case TournamentLive(report) =>
            if report.Some? {
              RecordReport(tournament, event, report.value);
            }
          case EngineInfo(side, data) =>
            if event.game.Some? && side.Some? && data.Some? {
              var view := Fetch(tournament, event.game.value);
              view := view.(game := event.game, engineData := view.engineData[side.value := data.value]);
              Store(tournament, event.game.value, view);
            }
          case ClockSync(clocks, activeSide, running) =>
            if event.game.Some? && clocks.Some? {
              var game := event.game.value;
              var view := Fetch(tournament, game);
              var state := ClockState(game, clocks.value, activeSide, running, event.sentAt);
              view := view.(game := Some(game), clocks := clocks, clockState := Some(state));
              Store(tournament, game, view);
            }
          case Other =>
        }
      }
      Done(Recorded(event), was);
    }

    /** The tournament.live branch: clear everything, clear one game, or replace what is known about it. */
    method RecordReport(tournament: Id, event: Event, report: LiveReport)
      requires NoEmptyEntry(live) && event.tournament == Some(tournament) && event.body == Body.TournamentLive(Some(report))
      modifies this`live
      ensures NoEmptyEntry(live)
      ensures forall t, g :: Lookup(live, t, g) == Next(Lookup(old(live), t, g), ChangeOf(Recorded(event), t, g), g)
    {
      var game := if report.game.Some? then report.game else event.game;
      if report.clear {
        if game.None? {
          live := live - {tournament};
        } else {
          Pop(tournament, game.value);
        }
      } else if game.Some? {
        Store(tournament, game.value, report.view);
      }
    }

    /** clear_tournament_live */
    method ClearTournamentLive(tournament: Id)
      requires Valid()
      modifies this
      ensures Valid() && steps == old(steps) + [Cleared(tournament)]
    {
      hide CellAfter;
      ghost var was := live;
      live := live - {tournament};
      Done(Cleared(tournament), was);
    }

    /** prune_tournament_live: the loop over the games that are kept. */
    method PruneTournamentLive(tournament: Id, active: set<Id>)
      requires Valid()
      modifies this
      ensures Valid() && steps == old(steps) + [Pruned(tournament, active)]
    {
      hide CellAfter;
      ghost var was := live;
      if tournament in live {
        var games := live[tournament];
        var rest := games.Keys;
        while rest != {}
          invariant live == was && steps == old(steps) && rest <= live[tournament].Keys
          invariant games.Keys <= live[tournament].Keys
          invariant forall g :: g in live[tournament] ==>
            (g in games <==> g in rest || g in active) && (g in games ==> games[g] == live[tournament][g])
          decreases |rest|
        {
          var game :| game in rest;
          if game !in active {
            games := games - {game};
          }
          rest := rest - {game};
        }
        if games == map[] {
          live := live - {tournament};
        } else {
          live := live[tournament := games];
        }
      }
      Done(Pruned(tournament, active), was);
    }

    /** tournament_live for one game */
    method TournamentLive(tournament: Id, game: Id) returns (view: Option<View>)
      requires Valid()
      ensures view == CellAfter(steps, tournament, game)
    {
      hide CellAfter;
      assert Lookup(live, tournament, game) == CellAfter(steps, tournament, game);
      view := None;
      if tournament in live && game in live[tournament] {
        view := Some(live[tournament][game]);
      }
    }
  }
}
