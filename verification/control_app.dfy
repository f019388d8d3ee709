/** The control program (control/Dispatcher.cpp, control/Connection.cpp) against the collector: when
    it quits, and what it has shown by then. */
module ControlApp {
  import opened Protocol
  import opened Like
  import opened Tables
  import opened Backend
  import opened MonitorRules
  import opened Routing
  import opened Collector
  import opened Queues
  import opened Conservation
  import opened Positions

  /** Why a Quit was queued; recorded for audit, the handler does not look at it. */
  datatype Cause = NotConnected | DescriptorNotSent | CollectorAskedToQuit | StatusShown | HungUp

  datatype Action =
    | ConnectSocket | Greet | AskForSession | Answered(message: Message) | Perform(command: Command) | QuitApp(cause: Cause)

  /** `unread` is what the collector will still deliver, `triggers` the times the command event was set
      off and not yet served; `handled` and `requested` record the run. */
  datatype App = App(
    queue: seq<Action>, unread: seq<Message>, triggers: nat, handled: seq<Action>, exited: bool, requested: seq<Command>)

  datatype Step = ReadMessage | TurnApp(works: bool) | Trigger(commands: seq<Command>) | HangUp

  /** The request id the control program gives its session request. */
  const SESSION_ID := "RequestSession"

  predicate Can(app: App, step: Step) {
    && !app.exited
    && match step
       case ReadMessage => app.unread != []
       case TurnApp(_) => app.queue != []
       case Trigger(_) => app.triggers > 0
       case HangUp => true
  }

  /** A status about anything but the session request. */
  predicate CommandStatus(m: Message) {
    m.StatusMessage? && m.requestId != Text(SESSION_ID)
  }

  function Queued(action: Action, works: bool): seq<Action> {
    match action
    case ConnectSocket => [if works then Greet else QuitApp(NotConnected)]
    case Greet => [if works then AskForSession else QuitApp(DescriptorNotSent)]
    case Answered(m) => if CommandStatus(m) then [QuitApp(StatusShown)] else []
    case Perform(command) => if command.AskQuit? then [QuitApp(CollectorAskedToQuit)] else []
    case _ => []
  }

  /** The request an action writes to the collector, if any. */
  function Requests(action: Action): seq<Command> {
    match action
    case AskForSession => [AskSession]
    case Perform(command) => [command]
    case _ => []
  }

  /** The session message sets off the command event. */
  function Triggers(action: Action): nat {
    if action == Answered(SetSessionMessage) then 1 else 0
  }

  function Performs(commands: seq<Command>): seq<Action> {
    seq(|commands|, i requires 0 <= i < |commands| => Perform(commands[i]))
  }

  function Do(app: App, step: Step): App
    requires Can(app, step)
  {
    match step
    case ReadMessage => app.(queue := app.queue + [Answered(app.unread[0])], unread := app.unread[1..])
    case TurnApp(works) =>
      var action := app.queue[0];
      app.(queue := app.queue[1..] + Queued(action, works), handled := app.handled + [action],
           exited := action.QuitApp?, triggers := app.triggers + Triggers(action),
           requested := app.requested + Requests(action))
    case Trigger(commands) => app.(queue := app.queue + Performs(commands), triggers := app.triggers - 1)
    case HangUp => app.(queue := app.queue + [QuitApp(HungUp)])
  }

  predicate CanAll(app: App, steps: seq<Step>)
    decreases |steps|
  {
    steps == [] || (Can(app, steps[0]) && CanAll(Do(app, steps[0]), steps[1..]))
  }

  function DoAll(app: App, steps: seq<Step>): App
    requires CanAll(app, steps)
    decreases |steps|
  {
    if steps == [] then app else DoAll(Do(app, steps[0]), steps[1..])
  }

  function Begin(delivered: seq<Message>): App {
    App([ConnectSocket], delivered, 0, [], false, [])
  }

  // ---- messages are handled in socket order ----

  function Heard(actions: seq<Action>): seq<Message> {
    if actions == [] then []
    else (if actions[0].Answered? then [actions[0].message] else []) + Heard(actions[1..])
  }

  lemma {:induction false} HeardAdd(a: seq<Action>, b: seq<Action>)
    ensures Heard(a + b) == Heard(a) + Heard(b)
  {
    if a == [] {
      assert a + b == b;
    } else {
      assert (a + b)[0] == a[0] && (a + b)[1..] == a[1..] + b;
      HeardAdd(a[1..], b);
    }
  }

  lemma {:induction false} NothingHeard(actions: seq<Action>)
    requires forall a | a in actions :: !a.Answered?
    ensures Heard(actions) == []
  {
    if actions != [] {
      NothingHeard(actions[1..]);
    }
  }

  /** Everything delivered was handled, waits in the queue or is unread, in this order. */
  predicate InSequence(app: App, delivered: seq<Message>) {
    Heard(app.handled) + Heard(app.queue) + app.unread == delivered
  }

  predicate Quits(app: App) {
    QuitApp(StatusShown) in app.queue || QuitApp(StatusShown) in app.handled
  }

  /** A Quit on account of a status means that a command's status was handled. */
  ghost predicate Caused(app: App) {
    Quits(app) ==> exists m :: m in Heard(app.handled) && CommandStatus(m)
  }

  ghost predicate InOrder(app: App, delivered: seq<Message>) {
    InSequence(app, delivered) && Caused(app)
  }

  lemma Regroup(h: seq<Message>, a: seq<Message>, r: seq<Message>, u: seq<Message>)
    ensures h + (a + r) + u == (h + a) + r + u
    ensures h + r + (a + u) == h + (r + a) + u
    ensures r + [] == r
  {
  }

  lemma StepStaysInSequence(app: App, step: Step, delivered: seq<Message>)
    requires InSequence(app, delivered) && Can(app, step)
    ensures InSequence(Do(app, step), delivered)
  {
    var h, q, u := Heard(app.handled), Heard(app.queue), app.unread;
    match step
    case ReadMessage =>
      HeardAdd(app.queue, [Answered(u[0])]);
      assert Heard([Answered(u[0])]) == [u[0]] && [u[0]] + u[1..] == u;
      Regroup(h, [u[0]], q, u[1..]);
    case TurnApp(works) => TurnStaysInSequence(app, works);
    case Trigger(commands) =>
      HeardAdd(app.queue, Performs(commands));
      NothingHeard(Performs(commands));
      Regroup(h, [], q, u);
    case HangUp =>
      HeardAdd(app.queue, [QuitApp(HungUp)]);
      Regroup(h, [], q, u);
  }

  lemma TurnStaysInSequence(app: App, works: bool)
    requires Can(app, TurnApp(works))
    ensures var next := Do(app, TurnApp(works));
            Heard(next.handled) + Heard(next.queue) + next.unread == Heard(app.handled) + Heard(app.queue) + app.unread
  {
    var action := app.queue[0];
    HeardAdd(app.queue[1..], Queued(action, works));
    HeardAdd(app.handled, [action]);
    HeardAdd([action], app.queue[1..]);
    assert [action] + app.queue[1..] == app.queue;
    NothingHeard(Queued(action, works));
    Regroup(Heard(app.handled), Heard([action]), Heard(app.queue[1..]), app.unread);
  }

  lemma StepStaysCaused(app: App, step: Step)
    requires Caused(app) && Can(app, step)
    ensures Caused(Do(app, step))
  {
    if step.TurnApp? {
      var action := app.queue[0];
      HeardAdd(app.handled, [action]);
      if action.Answered? {
        assert Heard([action]) == [action.message];
      }
    }
  }

  lemma StepStaysInOrder(app: App, step: Step, delivered: seq<Message>)
    requires InOrder(app, delivered) && Can(app, step)
    ensures InOrder(Do(app, step), delivered)
  {
    hide Do, InSequence, Caused;
    StepStaysInSequence(app, step, delivered);
    StepStaysCaused(app, step);
  }

  lemma {:induction false} StepsStayInOrder(app: App, steps: seq<Step>, delivered: seq<Message>)
    requires InOrder(app, delivered) && CanAll(app, steps)
    ensures InOrder(DoAll(app, steps), delivered)
    decreases |steps|
  {
    hide InOrder;
    if steps != [] {
      StepStaysInOrder(app, steps[0], delivered);
      StepsStayInOrder(Do(app, steps[0]), steps[1..], delivered);
    }
  }

  lemma BeginsInOrder(delivered: seq<Message>)
    ensures InOrder(Begin(delivered), delivered)
  {
    assert Begin(delivered).queue[1..] == [];
  }

  /** If the program queued a Quit on account of a status, it had handled a command's status, with
      everything delivered ahead of it; the session's own status never makes it quit. */
  lemma {:induction false} QuitsAfterCommandStatus(delivered: seq<Message>, steps: seq<Step>) returns (k: nat)
    requires CanAll(Begin(delivered), steps)
    requires Quits(DoAll(Begin(delivered), steps))
    ensures k < |delivered| && CommandStatus(delivered[k])
    ensures delivered[..k + 1] <= Heard(DoAll(Begin(delivered), steps).handled)
  {
    hide Begin, DoAll, CanAll, Heard, CommandStatus, Quits;
    BeginsInOrder(delivered);
    StepsStayInOrder(Begin(delivered), steps, delivered);
    var app := DoAll(Begin(delivered), steps);
    var heard := Heard(app.handled);
    var m :| m in heard && CommandStatus(m);
    k :| 0 <= k < |heard| && heard[k] == m;
    assert delivered[..|heard|] == heard;
    assert delivered[k] == heard[k] && delivered[..k + 1] == heard[..k + 1];
  }

  // ---- the handshake ----

  /** What handling the first queued action does, action by action. */
  lemma TurnLaw(app: App, works: bool)
    requires Can(app, TurnApp(works))
    ensures var app', action, rest := Do(app, TurnApp(works)), app.queue[0], app.queue[1..];
            && app'.handled == app.handled + [action] && app'.unread == app.unread
            && match action
               case ConnectSocket =>
                 app' == app.(queue := rest + [if works then Greet else QuitApp(NotConnected)], handled := app'.handled)
               case Greet =>
                 app' == app.(queue := rest + [if works then AskForSession else QuitApp(DescriptorNotSent)], handled := app'.handled)
               case AskForSession =>
                 app' == app.(queue := rest, handled := app'.handled, requested := app.requested + [AskSession])
               case Perform(command) =>
                 app' == app.(queue := if command == AskQuit then rest + [QuitApp(CollectorAskedToQuit)] else rest,
                              handled := app'.handled, requested := app.requested + [command])
               case Answered(m) =>
                 if m.StatusMessage? && m.requestId != Text("RequestSession") then
                   app' == app.(queue := rest + [QuitApp(StatusShown)], handled := app'.handled)
                 else if m.SetSessionMessage? then
                   app' == app.(queue := rest, handled := app'.handled, triggers := app.triggers + 1)
                 else app' == app.(queue := rest, handled := app'.handled)
               case QuitApp(_) => app' == app.(queue := rest, handled := app'.handled, exited := true)
  {
    var rest, requested := app.queue[1..], app.requested;
    assert rest + [] == rest && requested + [] == requested;
  }

  /** ... and what the other steps do. */
  lemma InputLaw(app: App, commands: seq<Command>)
    requires !app.exited
    ensures app.unread != [] ==>
              Do(app, ReadMessage) == app.(queue := app.queue + [Action.Answered(app.unread[0])], unread := app.unread[1..])
    ensures Do(app, HangUp) == app.(queue := app.queue + [QuitApp(HungUp)])
    ensures app.triggers > 0 ==>
              var app' := Do(app, Trigger(commands));
              && app' == app.(queue := app'.queue, triggers := app.triggers - 1)
              && |app'.queue| == |app.queue| + |commands| && app.queue <= app'.queue
              && forall k | 0 <= k < |commands| :: app'.queue[|app.queue| + k] == Perform(commands[k])
  {
  }

  predicate Greeted(app: App) {
    SetSessionMessage in Heard(app.handled)
  }

  /** Every queued or handled step of the handshake has the one before it behind it, and commands wait for
      the session message. */
  ghost predicate Shaken(app: App) {
    && (Greet in app.queue || Greet in app.handled ==> ConnectSocket in app.handled)
    && (AskForSession in app.queue || AskForSession in app.handled ==> Greet in app.handled)
    && (app.triggers > 0 ==> Greeted(app))
    && (forall command | Perform(command) in app.queue || Perform(command) in app.handled :: Greeted(app))
    && (forall command | command in app.requested ::
          (command == AskSession && AskForSession in app.handled) || Perform(command) in app.handled)
  }

  lemma HeardMore(app: App, works: bool)
    requires Can(app, TurnApp(works))
    ensures Greeted(app) ==> Greeted(Do(app, TurnApp(works)))
    ensures app.queue[0] == Action.Answered(SetSessionMessage) ==> Greeted(Do(app, TurnApp(works)))
  {
    HeardAdd(app.handled, [app.queue[0]]);
    assert [app.queue[0]][1..] == [];
  }

  lemma StepStaysShaken(app: App, step: Step)
    requires Shaken(app) && Can(app, step)
    ensures Shaken(Do(app, step))
  {
    if step.TurnApp? {
      HeardMore(app, step.works);
      TurnLaw(app, step.works);
      hide Do, Heard, Greeted;
    } else {
      hide Heard, Queued, Requests;
    }
  }

  lemma {:induction false} StepsStayShaken(app: App, steps: seq<Step>)
    requires Shaken(app) && CanAll(app, steps)
    ensures Shaken(DoAll(app, steps))
    decreases |steps|
  {
    hide Shaken, Do, Can;
    if steps != [] {
      StepStaysShaken(app, steps[0]);
      StepsStayShaken(Do(app, steps[0]), steps[1..]);
    }
  }

  /** In every run of the control program, whatever it is sent: a session is asked for only after connecting
      and greeting, and any other request goes out only after the collector's session message was handled. */
  lemma {:induction false} HandshakeFirst(delivered: seq<Message>, steps: seq<Step>, command: Command)
    requires CanAll(Begin(delivered), steps) && command in DoAll(Begin(delivered), steps).requested
    ensures var app := DoAll(Begin(delivered), steps);
            (command == AskSession && ConnectSocket in app.handled && Greet in app.handled)
            || SetSessionMessage in Heard(app.handled)
  {
    assert Shaken(Begin(delivered));
    hide Begin, DoAll, CanAll, Heard;
    StepsStayShaken(Begin(delivered), steps);
  }

  // ---- the objects ----

  /** What one read of the collector's socket yields. */
  datatype SocketRead = NothingYet | Broken | Closed | FromElsewhere | Delivered(message: Message) | UnknownReply

  /** The messages taken from a series of reads, up to the read that ends the loop. */
  function TakenFrom(input: seq<SocketRead>): seq<Action> {
    if input == [] then []
    else match input[0]
      case Delivered(m) => [Answered(m)] + TakenFrom(input[1..])
      case FromElsewhere => TakenFrom(input[1..])
      case _ => []
  }

  /** The connection stays registered unless reading fails, ends, or yields an unknown reply. */
  predicate StaysOpen(input: seq<SocketRead>) {
    input == [] || input[0].NothingYet?
    || (!input[0].Broken? && !input[0].Closed? && !input[0].UnknownReply? && StaysOpen(input[1..]))
  }

  predicate StopsReading(read: SocketRead) {
    read.NothingYet? || read.Broken? || read.Closed? || read.UnknownReply?
  }

  predicate IsReply(read: SocketRead) {
    read.Delivered?
  }

  /** Each message the reply loop gets to is taken as it is, in order ... */
  lemma {:induction false} ReplyIsTaken(input: seq<SocketRead>, n: nat)
    requires n < |input| && IsReply(input[n]) && forall k | 0 <= k < n :: !StopsReading(input[k])
    ensures var place := Rank(input, IsReply, n);
            place < |TakenFrom(input)| && TakenFrom(input)[place] == Action.Answered(input[n].message)
  {
    if n > 0 {
      assert !StopsReading(input[0]);
      assert forall k | 0 <= k < n - 1 :: input[1..][k] == input[k + 1];
      ReplyIsTaken(input[1..], n - 1);
    }
  }

  /** ... and nothing else is, up to the read that ends the loop. */
  lemma {:induction false} OnlyRepliesAreTaken(input: seq<SocketRead>, n: nat)
    requires n <= |input| && (forall k | 0 <= k < n :: !StopsReading(input[k])) && (n < |input| ==> StopsReading(input[n]))
    ensures |TakenFrom(input)| == Rank(input, IsReply, n)
    ensures StaysOpen(input) <==> n == |input| || input[n].NothingYet?
  {
    if n > 0 {
      assert !StopsReading(input[0]);
      assert forall k | 0 <= k < n - 1 :: input[1..][k] == input[k + 1];
      OnlyRepliesAreTaken(input[1..], n - 1);
    }
  }

  class ControlProgram {
    var queue: seq<Action>
    var triggers: nat
    var requested: seq<Command>
    var exited: bool

    constructor ()
      ensures queue == [ConnectSocket] && triggers == 0 && requested == [] && !exited
    {
      queue, triggers, requested, exited := [ConnectSocket], 0, [], false;
    }

    /** The reply loop pushes the collector's messages in socket order. */
    method ReadLoop(input: seq<SocketRead>) returns (status: bool)
      modifies this`queue
      ensures queue == old(queue) + TakenFrom(input) && status == StaysOpen(input)
    {
      var i := 0;
      status := true;
      while status
        invariant i <= |input|
        invariant status ==> queue + TakenFrom(input[i..]) == old(queue) + TakenFrom(input)
        invariant status ==> StaysOpen(input[i..]) == StaysOpen(input)
        invariant !status ==> queue == old(queue) + TakenFrom(input) && !StaysOpen(input)
        decreases |input| - i, status
      {
        if i == |input| {
          return;
        }
        var read := input[i];
        assert input[i..][1..] == input[i + 1..];
        i := i + 1;
        match read
        case NothingYet => return true;
        case Broken => return false;
        case Closed => return false;
        case FromElsewhere =>
        case Delivered(m) => queue := queue + [Answered(m)];
        case UnknownReply => status := false;
      }
    }

    /** The handler of the popped action; `works` tells whether connecting or greeting succeeds. */
    method RequestHandler(action: Action, works: bool)
      modifies this
      ensures queue == old(queue) + Queued(action, works) && exited == (old(exited) || action.QuitApp?)
      ensures requested == old(requested) + Requests(action) && triggers == old(triggers) + Triggers(action)
    {
      match action
      case ConnectSocket =>
        if !works {
          queue := queue + [QuitApp(NotConnected)];
        } else {
          queue := queue + [Greet];
        }
      case Greet =>
        if !works {
          queue := queue + [QuitApp(DescriptorNotSent)];
          return;
        }
        queue := queue + [AskForSession];
      case AskForSession => requested := requested + [AskSession];
      case Perform(command) =>
        requested := requested + [command];
        if command.AskQuit? {
          queue := queue + [QuitApp(CollectorAskedToQuit)];
        }
      case Answered(m) =>
        if m.StatusMessage? {
          if m.requestId == Text(SESSION_ID) {
            return;
          }
          queue := queue + [QuitApp(StatusShown)];
        } else if m.SetSessionMessage? {
          triggers := triggers + 1;
        }
      case QuitApp(_) => exited := true;
    }
  }
}
