/**
 The conversation between the runner's serving loop (cope/runner/worker_server.py) and the worker
 client (cope/worker/client.py): two machines over two first-in-first-out channels.

 An assignment is named by a number, fresh for every claim; an engine by its id.
 */
module Conversation {
  import opened Common

  type Ticket = nat
  type EngineId = int

  datatype ServerMessage =
    | Assignment(ticket: Ticket, engines: set<EngineId>)
    | Command(ticket: Ticket, engine: EngineId, search: bool)
    | Complete(ticket: Ticket)

  /** Preparation and runtime failures are the same message. */
  datatype WorkerMessage =
    | Ready(ticket: Ticket, prepared: set<EngineId>)
    | Info(ticket: Ticket, engine: EngineId)
    | Reply(ticket: Ticket, engine: EngineId)
    | Failure(ticket: Ticket, engine: EngineId)

  datatype ServerState =
    | ServerIdle
    | AwaitReady(ticket: Ticket, engines: set<EngineId>)
    | Playing(ticket: Ticket, engines: set<EngineId>)
    | AwaitReply(ticket: Ticket, engines: set<EngineId>, engine: EngineId, search: bool)
    | ServerError

  datatype WorkerState =
    | WorkerIdle
    | Preparing(ticket: Ticket, engines: set<EngineId>)
    | Waiting(ticket: Ticket, engines: set<EngineId>)
    | Executing(ticket: Ticket, engines: set<EngineId>, engine: EngineId, search: bool)
    | FailedOn(ticket: Ticket, engines: set<EngineId>, failed: EngineId)
    | WorkerError

  datatype System = System(
    server: ServerState, worker: WorkerState,
    toWorker: seq<ServerMessage>, toServer: seq<WorkerMessage>,
    nextTicket: Ticket,
    /** Engine commands sent, and those answered by a result or a failure. */
    sent: nat, answered: nat)

  // ---------------------------------------------------------------- the server's half

  /** _receive_assignment_ready */
  function OnReadyOrFailure(server: ServerState, m: WorkerMessage): ServerState
    requires server.AwaitReady?
  {
    match m
    case Ready(ticket, prepared) =>
      if ticket == server.ticket && prepared == server.engines then Playing(ticket, server.engines) else ServerError
    case Failure(ticket, engine) => if ticket == server.ticket && engine in server.engines then ServerIdle else ServerError
    case _ => ServerError
  }

  /**
   _execute_engine_command_locked. A failure that names another engine than the one asked is
   raised as a mismatch; like any failed command it ends the command, not the conversation.
   */
  function OnReply(server: ServerState, m: WorkerMessage): ServerState
    requires server.AwaitReply?
  {
    match m
    case Info(ticket, engine) => if ticket == server.ticket && engine == server.engine then server else ServerError
    case Reply(ticket, engine) =>
      if ticket == server.ticket && engine == server.engine then Playing(server.ticket, server.engines) else ServerError
    case Failure(ticket, engine) => if ticket == server.ticket then Playing(server.ticket, server.engines) else ServerError
    case Ready(_, _) => ServerError
  }

  predicate Terminal(m: WorkerMessage) { m.Reply? || m.Failure? }

  /** The mismatch error of the command in flight. */
  predicate EngineMismatch(server: ServerState, m: WorkerMessage)
  {
    server.AwaitReply? && m.Failure? && m.engine != server.engine
  }

  // ---------------------------------------------------------------- the worker's half

  /** What the client does with a message, and what it sends back at once. */
  function OnServerMessage(worker: WorkerState, m: ServerMessage): (WorkerState, seq<WorkerMessage>)
  {
    match worker
    case WorkerIdle => if m.Assignment? then (Preparing(m.ticket, m.engines), []) else (WorkerError, [])
    case Waiting(ticket, engines) =>
      if m.Complete? && m.ticket == ticket then (WorkerIdle, [])
      else if m.Command? && m.ticket == ticket && m.engine in engines then (Executing(ticket, engines, m.engine, m.search), [])
      else (WorkerError, [])
    case FailedOn(ticket, engines, failed) =>
      if m.Complete? && m.ticket == ticket then (WorkerIdle, [])
      else if m.Command? && m.ticket == ticket then (worker, [Failure(ticket, failed)])
      else (WorkerError, [])
    case _ => (WorkerError, [])
  }

  /** The client is in its receive call, not preparing or executing. */
  predicate Receiving(worker: WorkerState) { worker.WorkerIdle? || worker.Waiting? || worker.FailedOn? }

  // ---------------------------------------------------------------- steps

  datatype Step =
    | SendAssignment(engines: set<EngineId>)
    | SendCommand(engine: EngineId, search: bool)
    | SendComplete
    | ServerReceives
    | WorkerReceives
    | Prepared
    | PreparationFails(engine: EngineId)
    | SendInfo
    | CommandDone
    | CommandFails

  predicate Enabled(v: System, step: Step)
  {
    match step
    case SendAssignment(engines) => v.server.ServerIdle?
    case SendCommand(engine, _) => v.server.Playing? && engine in v.server.engines
    case SendComplete => v.server.Playing?
    case ServerReceives => (v.server.AwaitReady? || v.server.AwaitReply?) && v.toServer != []
    case WorkerReceives => Receiving(v.worker) && v.toWorker != []
    case Prepared => v.worker.Preparing?
    case PreparationFails(engine) => v.worker.Preparing? && engine in v.worker.engines
    case SendInfo => v.worker.Executing? && v.worker.search
    case CommandDone => v.worker.Executing?
    case CommandFails => v.worker.Executing?
  }

  function Next(v: System, step: Step): System
    requires Enabled(v, step)
  {
    match step
    case SendAssignment(engines) =>
      v.(server := AwaitReady(v.nextTicket, engines), toWorker := v.toWorker + [Assignment(v.nextTicket, engines)],
         nextTicket := v.nextTicket + 1)
    case SendCommand(engine, search) =>
      v.(server := AwaitReply(v.server.ticket, v.server.engines, engine, search),
         toWorker := v.toWorker + [Command(v.server.ticket, engine, search)], sent := v.sent + 1)
    case SendComplete => v.(server := ServerIdle, toWorker := v.toWorker + [Complete(v.server.ticket)])
    case ServerReceives =>
      var m := v.toServer[0];
      if v.server.AwaitReady? then v.(server := OnReadyOrFailure(v.server, m), toServer := v.toServer[1..])
      else v.(server := OnReply(v.server, m), toServer := v.toServer[1..],
              answered := if Terminal(m) then v.answered + 1 else v.answered)
    case WorkerReceives =>
      var (worker, replies) := OnServerMessage(v.worker, v.toWorker[0]);
      v.(worker := worker, toWorker := v.toWorker[1..], toServer := v.toServer + replies)
    case Prepared =>
      v.(worker := Waiting(v.worker.ticket, v.worker.engines), toServer := v.toServer + [Ready(v.worker.ticket, v.worker.engines)])
    case PreparationFails(engine) => v.(worker := WorkerIdle, toServer := v.toServer + [Failure(v.worker.ticket, engine)])
    case SendInfo => v.(toServer := v.toServer + [Info(v.worker.ticket, v.worker.engine)])
    case CommandDone =>
      v.(worker := Waiting(v.worker.ticket, v.worker.engines), toServer := v.toServer + [Reply(v.worker.ticket, v.worker.engine)])
    case CommandFails =>
      v.(worker := FailedOn(v.worker.ticket, v.worker.engines, v.worker.engine),
         toServer := v.toServer + [Failure(v.worker.ticket, v.worker.engine)])
  }

  function Start(): System { System(ServerIdle, WorkerIdle, [], [], 0, 0, 0) }

  // ---------------------------------------------------------------- the shape of every reachable state

  /** The worker is between assignments, or will be once it has read the completion that waits for it. */
  ghost predicate Settling(worker: WorkerState, toWorker: seq<ServerMessage>, nextTicket: Ticket)
  {
    || (worker.WorkerIdle? && toWorker == [])
    || ((worker.Waiting? || worker.FailedOn?) && toWorker == [Complete(worker.ticket)] && worker.ticket < nextTicket)
  }

  ghost predicate Infos(ms: seq<WorkerMessage>, ticket: Ticket, engine: EngineId)
  {
    forall i :: 0 <= i < |ms| ==> ms[i] == Info(ticket, engine)
  }

  ghost predicate IdleShape(v: System)
  {
    v.server.ServerIdle? && v.toServer == [] && Settling(v.worker, v.toWorker, v.nextTicket)
  }

  ghost predicate AwaitReadyShape(v: System)
  {
    && v.server.AwaitReady? && v.server.ticket < v.nextTicket
    && var ticket, engines := v.server.ticket, v.server.engines;
    || (&& v.toServer == [] && v.toWorker != [] && v.toWorker[|v.toWorker| - 1] == Assignment(ticket, engines)
        && Settling(v.worker, v.toWorker[..|v.toWorker| - 1], ticket))
    || (v.toServer == [] && v.toWorker == [] && v.worker == Preparing(ticket, engines))
    || (v.toWorker == [] && v.worker == Waiting(ticket, engines) && v.toServer == [Ready(ticket, engines)])
    || (v.toWorker == [] && v.worker == WorkerIdle && |v.toServer| == 1 && v.toServer[0].Failure?
        && v.toServer[0].ticket == ticket && v.toServer[0].engine in engines)
  }

  ghost predicate PlayingShape(v: System)
  {
    && v.server.Playing? && v.server.ticket < v.nextTicket && v.toWorker == [] && v.toServer == []
    && (|| v.worker == Waiting(v.server.ticket, v.server.engines)
        || (v.worker.FailedOn? && v.worker.ticket == v.server.ticket && v.worker.engines == v.server.engines))
  }

  ghost predicate AwaitReplyShape(v: System)
  {
    && v.server.AwaitReply? && v.server.ticket < v.nextTicket && v.server.engine in v.server.engines
    && var ticket, engines, engine, search := v.server.ticket, v.server.engines, v.server.engine, v.server.search;
    || (&& v.toWorker == [Command(ticket, engine, search)] && v.toServer == []
        && (|| v.worker == Waiting(ticket, engines)
            || (v.worker.FailedOn? && v.worker.ticket == ticket && v.worker.engines == engines)))
    || (v.toWorker == [] && v.worker == Executing(ticket, engines, engine, search) && Infos(v.toServer, ticket, engine))
    || (&& v.toWorker == [] && v.worker == Waiting(ticket, engines) && v.toServer != []
        && Infos(v.toServer[..|v.toServer| - 1], ticket, engine) && v.toServer[|v.toServer| - 1] == Reply(ticket, engine))
    || (&& v.toWorker == [] && v.worker.FailedOn? && v.worker.ticket == ticket && v.worker.engines == engines && v.toServer != []
        && Infos(v.toServer[..|v.toServer| - 1], ticket, engine)
        && v.toServer[|v.toServer| - 1] == Failure(ticket, v.worker.failed))
  }

  ghost predicate Inv(v: System)
  {
    && (IdleShape(v) || AwaitReadyShape(v) || PlayingShape(v) || AwaitReplyShape(v))
    && v.sent == v.answered + if v.server.AwaitReply? then 1 else 0
  }

  lemma {:induction false} IdleSteps(v: System, step: Step)
    requires Inv(v) && v.server.ServerIdle? && Enabled(v, step)
    ensures Inv(Next(v, step))
  {
    hide Infos;
    if step.SendAssignment? {
      var after := Next(v, step);
      assert after.toWorker[..|after.toWorker| - 1] == v.toWorker;
    }
  }

  lemma {:induction false} AwaitReadySteps(v: System, step: Step)
    requires Inv(v) && v.server.AwaitReady? && Enabled(v, step)
    ensures Inv(Next(v, step))
  {
    hide Infos;
    if step.WorkerReceives? && |v.toWorker| > 1 {
      assert v.toWorker[1..] == [v.toWorker[1]];
    }
  }

  lemma {:induction false} PlayingSteps(v: System, step: Step)
    requires Inv(v) && v.server.Playing? && Enabled(v, step)
    ensures Inv(Next(v, step))
  {
    hide Infos;
  }

  lemma {:induction false} ServerGetsReply(v: System)
    requires Inv(v) && v.server.AwaitReply? && v.toServer != []
    ensures Inv(Next(v, ServerReceives))
  {
    var after := Next(v, ServerReceives);
    if after.toServer != [] {
      assert after.toServer[..|after.toServer| - 1] == v.toServer[..|v.toServer| - 1][1..];
    }
  }

  lemma {:induction false} WorkerGetsCommand(v: System)
    requires Inv(v) && v.server.AwaitReply? && Receiving(v.worker) && v.toWorker != []
    ensures Inv(Next(v, WorkerReceives))
  {
    var after := Next(v, WorkerReceives);
    assert after.toWorker == [];
    if after.toServer != [] {
      assert after.toServer[..|after.toServer| - 1] == [];
    }
  }

  lemma {:induction false} WorkerExecutes(v: System, step: Step)
    requires Inv(v) && v.server.AwaitReply? && v.worker.Executing?
    requires step.CommandDone? || step.CommandFails? || (step.SendInfo? && v.worker.search)
    ensures Inv(Next(v, step))
  {
    var after := Next(v, step);
    assert after.toServer[..|after.toServer| - 1] == v.toServer;
  }

  lemma {:induction false} AwaitReplySteps(v: System, step: Step)
    requires Inv(v) && v.server.AwaitReply? && Enabled(v, step)
    ensures Inv(Next(v, step))
  {
    if step.ServerReceives? {
      ServerGetsReply(v);
    } else if step.WorkerReceives? {
      WorkerGetsCommand(v);
    } else if v.worker.Executing? {
      WorkerExecutes(v, step);
    }
    hide Next, Infos;
  }

  lemma {:induction false} NextKeepsInv(v: System, step: Step)
    requires Inv(v) && Enabled(v, step)
    ensures Inv(Next(v, step))
  {
    hide Enabled, Next;
    if v.server.ServerIdle? {
      IdleSteps(v, step);
    } else if v.server.AwaitReady? {
      AwaitReadySteps(v, step);
    } else if v.server.Playing? {
      PlayingSteps(v, step);
    } else {
      AwaitReplySteps(v, step);
    }
  }

  // ---------------------------------------------------------------- runs

  /** A step that is not enabled does not happen. */
  function Go(v: System, step: Step): System
  {
    if Enabled(v, step) then Next(v, step) else v
  }

  function Run(v: System, steps: seq<Step>): System
  {
    if steps == [] then v else Go(Run(v, steps[..|steps| - 1]), steps[|steps| - 1])
  }

  lemma {:induction false} RunKeepsInv(v: System, steps: seq<Step>)
    requires Inv(v)
    ensures Inv(Run(v, steps))
  {
    hide Inv, Next, Enabled;
    if steps != [] {
      RunKeepsInv(v, steps[..|steps| - 1]);
      var before := Run(v, steps[..|steps| - 1]);
      if Enabled(before, steps[|steps| - 1]) {
        NextKeepsInv(before, steps[|steps| - 1]);
      }
    }
  }

  /**
   In every reachable state neither side has seen a message it does not accept, every engine
   command but the one in flight has had exactly one terminal reply, and between commands both
   channels are empty.
   */
  lemma {:induction false} EveryMessageIsAccepted(steps: seq<Step>)
    ensures var v := Run(Start(), steps);
            && !v.server.ServerError? && !v.worker.WorkerError?
            && v.sent == v.answered + (if v.server.AwaitReply? then 1 else 0)
            && (v.server.Playing? ==> v.toWorker == [] && v.toServer == [] && Receiving(v.worker))
  {
    hide Run, Infos;
    RunKeepsInv(Start(), steps);
  }

  /**
   The runner sees a failure of another engine than the one it asked just when the worker had
   already failed on that other engine and was told to go on; and it sees nothing else then.
   */
  lemma {:induction false} MismatchMeansEarlierFailure(v: System)
    requires Inv(v) && v.server.AwaitReply?
    ensures v.toServer != [] && EngineMismatch(v.server, v.toServer[0]) ==>
              v.worker.FailedOn? && v.worker.failed == v.toServer[0].engine != v.server.engine && |v.toServer| == 1
    ensures v.toWorker != [] && v.worker.FailedOn? && v.worker.failed != v.server.engine ==>
              && Enabled(v, WorkerReceives)
              && var after := Next(v, WorkerReceives);
                 |after.toServer| == 1 && EngineMismatch(after.server, after.toServer[0])
  {
    assert |v.toServer| > 1 ==> v.toServer[..|v.toServer| - 1][0] == v.toServer[0];
  }

  // ---------------------------------------------------------------- nothing gets stuck

  predicate AllIdle(v: System)
  {
    v.server.ServerIdle? && v.worker.WorkerIdle? && v.toWorker == [] && v.toServer == []
  }

  /** The step that brings the assignment at hand closer to its end, without starting anything new. */
  function Drain(v: System): Step
  {
    match v.server
    case Playing(_, _) => SendComplete
    case AwaitReady(_, _) =>
      if v.toServer != [] then ServerReceives else if v.worker.Preparing? then Prepared else WorkerReceives
    case AwaitReply(_, _, _, _) =>
      if v.toServer != [] then ServerReceives else if v.worker.Executing? then CommandDone else WorkerReceives
    case _ => WorkerReceives
  }

  function Remaining(v: System): nat
  {
    match v.server
    case Playing(_, _) => 2
    case AwaitReady(_, _) => 3 + |v.toServer| + (if v.worker.Preparing? then 2 else 0) + 4 * |v.toWorker|
    case AwaitReply(_, _, _, _) => 3 + |v.toServer| + (if v.worker.Executing? then 2 else 0) + 4 * |v.toWorker|
    case _ => |v.toWorker|
  }

  /** No reachable state is stuck: unless everything is idle, a step is enabled, and it makes progress. */
  lemma {:induction false} DrainMakesProgress(v: System)
    requires Inv(v) && !AllIdle(v)
    ensures Enabled(v, Drain(v)) && Remaining(Next(v, Drain(v))) < Remaining(v)
  {
    hide Infos;
    if v.server.AwaitReply? && v.toServer != [] {
      RepliesAreAccepted(v);
    }
  }

  lemma {:induction false} RepliesAreAccepted(v: System)
    requires Inv(v) && v.server.AwaitReply? && v.toServer != []
    ensures var server := OnReply(v.server, v.toServer[0]);
            server == v.server || server == Playing(v.server.ticket, v.server.engines)
  {
    if |v.toServer| > 1 {
      assert v.toServer[..|v.toServer| - 1][0] == v.toServer[0];
    }
  }

  function Settled(v: System): (end: System)
    requires Inv(v)
    ensures AllIdle(end) && Inv(end) && end.sent == end.answered && end.sent == v.sent
    decreases Remaining(v)
  {
    if AllIdle(v) then v
    else
      DrainMakesProgress(v);
      NextKeepsInv(v, Drain(v));
      Settled(Next(v, Drain(v)))
  }

  /** From every reachable state both sides can return to idle together, with every command answered. */
  lemma {:induction false} BothReturnToIdle(v: System)
    returns (steps: seq<Step>)
    requires Inv(v)
    ensures AllIdle(Run(v, steps)) && Run(v, steps) == Settled(v)
    ensures forall i :: 0 <= i < |steps| ==> !steps[i].SendAssignment? && !steps[i].SendCommand?
    decreases Remaining(v)
  {
    hide Inv, Next, Enabled;
    if AllIdle(v) {
      steps := [];
    } else {
      DrainMakesProgress(v);
      NextKeepsInv(v, Drain(v));
      var rest := BothReturnToIdle(Next(v, Drain(v)));
      steps := [Drain(v)] + rest;
      RunFrom(v, Drain(v), rest);
    }
  }

  lemma {:induction false} RunFrom(v: System, first: Step, rest: seq<Step>)
    ensures Run(v, [first] + rest) == Run(Go(v, first), rest)
  {
    hide Go;
    if rest == [] {
      assert [first] + rest == [first];
      assert [first][..0] == [];
      assert Run(v, [first]) == Go(Run(v, []), first);
    } else {
      var k := |rest| - 1;
      assert ([first] + rest)[..|rest|] == [first] + rest[..k];
      RunFrom(v, first, rest[..k]);
    }
  }

  // ---------------------------------------------------------------- the client's loops

  datatype Outcome = Done(infos: nat) | Fails(infos: nat)

  datatype Ending = Completed | OutOfMessages | ProtocolError

  /** The results and failures among the messages. */
  function Terminals(ms: seq<WorkerMessage>): seq<WorkerMessage>
  {
    if ms == [] then [] else Terminals(ms[..|ms| - 1]) + if Terminal(ms[|ms| - 1]) then [ms[|ms| - 1]] else []
  }

  lemma {:induction false} TerminalAppend(ms: seq<WorkerMessage>, m: WorkerMessage)
    ensures Terminals(ms + [m]) == Terminals(ms) + if Terminal(m) then [m] else []
  {
    assert (ms + [m])[..|ms|] == ms;
  }

  /** The first of n commands on which an engine fails. */
  function FirstFailure(incoming: seq<ServerMessage>, outcome: (EngineId, nat) -> Outcome, n: nat): (r: Option<nat>)
    requires n <= |incoming| && forall i :: 0 <= i < n ==> incoming[i].Command?
    ensures r.Some? ==> r.value < n && outcome(incoming[r.value].engine, r.value).Fails?
    ensures r.None? ==> forall i :: 0 <= i < n ==> outcome(incoming[i].engine, i).Done?
  {
    if n == 0 then None
    else
      var r := FirstFailure(incoming, outcome, n - 1);
      if r.Some? then r else if outcome(incoming[n - 1].engine, n - 1).Fails? then Some(n - 1) else None
  }

  /** A command is answered for its own engine until one fails; from then on with that failure. */
  function Answer(ticket: Ticket, incoming: seq<ServerMessage>, outcome: (EngineId, nat) -> Outcome, i: nat): WorkerMessage
    requires i < |incoming| && forall k :: 0 <= k <= i ==> incoming[k].Command?
  {
    var failure := FirstFailure(incoming, outcome, i + 1);
    if failure.Some? then Failure(ticket, incoming[failure.value].engine) else Reply(ticket, incoming[i].engine)
  }

  ghost predicate Answered(
    ms: seq<WorkerMessage>, ticket: Ticket, incoming: seq<ServerMessage>, outcome: (EngineId, nat) -> Outcome, handled: nat)
  {
    && handled <= |incoming|
    && (forall i :: 0 <= i < handled ==> incoming[i].Command? && incoming[i].ticket == ticket)
    && |Terminals(ms)| == handled
    && forall i :: 0 <= i < handled ==> Terminals(ms)[i] == Answer(ticket, incoming, outcome, i)
  }

  /** The engine that failed among the commands handled so far. */
  ghost predicate FailedSoFar(
    incoming: seq<ServerMessage>, outcome: (EngineId, nat) -> Outcome, handled: nat, failed: Option<EngineId>)
  {
    && handled <= |incoming| && (forall i :: 0 <= i < handled ==> incoming[i].Command?)
    && var failure := FirstFailure(incoming, outcome, handled);
    (failure.Some? <==> failed.Some?) && (failed.Some? ==> incoming[failure.value].engine == failed.value)
  }

  /** All messages of the reading loops are about the assignment. */
  ghost predicate AllAbout(ms: seq<WorkerMessage>, ticket: Ticket)
  {
    forall i :: 0 <= i < |ms| ==> ms[i].ticket == ticket
  }

  method SendInfos(sent: seq<WorkerMessage>, ticket: Ticket, engine: EngineId, count: nat) returns (after: seq<WorkerMessage>)
    requires AllAbout(sent, ticket)
    ensures sent <= after && AllAbout(after, ticket) && Terminals(after) == Terminals(sent)
  {
    after := sent;
    for k := 0 to count
      invariant sent <= after && AllAbout(after, ticket) && Terminals(after) == Terminals(sent)
    {
      TerminalAppend(after, Info(ticket, engine));
      after := after + [Info(ticket, engine)];
    }
  }

  lemma {:induction false} OneMoreAnswer(
    ms: seq<WorkerMessage>, more: seq<WorkerMessage>, ticket: Ticket, incoming: seq<ServerMessage>,
    outcome: (EngineId, nat) -> Outcome, handled: nat)
    requires Answered(ms, ticket, incoming, outcome, handled)
    requires handled < |incoming| && incoming[handled].Command? && incoming[handled].ticket == ticket
    requires Terminals(more) == Terminals(ms) + [Answer(ticket, incoming, outcome, handled)]
    ensures Answered(more, ticket, incoming, outcome, handled + 1)
  {
    hide Terminals, FirstFailure;
  }

  /** _wait_for_failed_assignment_complete: every further command is answered with the same failure. */
  method WaitForFailedComplete(
    ticket: Ticket, failed: EngineId, incoming: seq<ServerMessage>, ghost outcome: (EngineId, nat) -> Outcome,
    before: seq<WorkerMessage>, start: nat)
    returns (sent: seq<WorkerMessage>, handled: nat, ending: Ending)
    requires AllAbout(before, ticket) && Answered(before, ticket, incoming, outcome, start)
    requires FailedSoFar(incoming, outcome, start, Some(failed))
    ensures AllAbout(sent, ticket) && Answered(sent, ticket, incoming, outcome, handled)
    ensures ending == Completed <==> handled < |incoming| && incoming[handled] == Complete(ticket)
    ensures ending == OutOfMessages <==> handled == |incoming|
  {
    sent, handled := before, start;
    while true
      invariant AllAbout(sent, ticket) && Answered(sent, ticket, incoming, outcome, handled)
      invariant FailedSoFar(incoming, outcome, handled, Some(failed))
      decreases |incoming| - handled
    {
      if handled == |incoming| {
        return sent, handled, OutOfMessages;
      }
      var message := incoming[handled];
      if message == Complete(ticket) {
        return sent, handled, Completed;
      }
      if !message.Command? || message.ticket != ticket {
        return sent, handled, ProtocolError;
      }
      TerminalAppend(sent, Failure(ticket, failed));
      OneMoreAnswer(sent, sent + [Failure(ticket, failed)], ticket, incoming, outcome, handled);
      hide Answered, Terminals;
      sent := sent + [Failure(ticket, failed)];
      handled := handled + 1;
    }
  }

  /** One command: the information of a search, then its result or its failure. */
  method ExecuteCommand(
    before: seq<WorkerMessage>, ticket: Ticket, incoming: seq<ServerMessage>, outcome: (EngineId, nat) -> Outcome, handled: nat)
    returns (sent: seq<WorkerMessage>, failed: Option<EngineId>)
    requires AllAbout(before, ticket) && Answered(before, ticket, incoming, outcome, handled)
    requires handled < |incoming| && incoming[handled].Command? && incoming[handled].ticket == ticket
    requires FailedSoFar(incoming, outcome, handled, None)
    ensures AllAbout(sent, ticket) && Answered(sent, ticket, incoming, outcome, handled + 1)
    ensures FailedSoFar(incoming, outcome, handled + 1, failed)
  {
    hide Terminals;
    sent, failed := before, None;
    var message := incoming[handled];
    var result := outcome(message.engine, handled);
    if message.search {
      sent := SendInfos(sent, ticket, message.engine, result.infos);
    }
    if result.Done? {
      TerminalAppend(sent, Reply(ticket, message.engine));
      OneMoreAnswer(before, sent + [Reply(ticket, message.engine)], ticket, incoming, outcome, handled);
      sent := sent + [Reply(ticket, message.engine)];
    } else {
      TerminalAppend(sent, Failure(ticket, message.engine));
      OneMoreAnswer(before, sent + [Failure(ticket, message.engine)], ticket, incoming, outcome, handled);
      sent := sent + [Failure(ticket, message.engine)];
      failed := Some(message.engine);
    }
  }

  /**
   The loop of _serve_assignment over the messages that arrive: every command that is read gets
   exactly one terminal reply, before and after a failure, until the completion arrives.
   */
  method ServeAssignment(
    ticket: Ticket, engines: set<EngineId>, incoming: seq<ServerMessage>, outcome: (EngineId, nat) -> Outcome)
    returns (sent: seq<WorkerMessage>, handled: nat, ending: Ending)
    ensures AllAbout(sent, ticket) && Answered(sent, ticket, incoming, outcome, handled)
    ensures ending == Completed <==> handled < |incoming| && incoming[handled] == Complete(ticket)
    ensures ending == OutOfMessages <==> handled == |incoming|
  {
    sent, handled := [], 0;
    while true
      invariant handled <= |incoming|
      invariant AllAbout(sent, ticket) && Answered(sent, ticket, incoming, outcome, handled)
      invariant FailedSoFar(incoming, outcome, handled, None)
      decreases |incoming| - handled
    {
      hide Answered, FailedSoFar, AllAbout;
      if handled == |incoming| {
        return sent, handled, OutOfMessages;
      }
      var message := incoming[handled];
      if message == Complete(ticket) {
        return sent, handled, Completed;
      }
      if !message.Command? || message.ticket != ticket || message.engine !in engines {
        return sent, handled, ProtocolError;
      }
      var failed;
      sent, failed := ExecuteCommand(sent, ticket, incoming, outcome, handled);
      handled := handled + 1;
      if failed.Some? {
        sent, handled, ending := WaitForFailedComplete(ticket, failed.value, incoming, outcome, sent, handled);
        return;
      }
    }
  }
}
