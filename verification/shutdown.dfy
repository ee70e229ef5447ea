/** The per-connection shutdown latch of the websocket handler
    (backend/main.py): a single-assignment reason slot that the first trigger
    fills, the cancellation of the sibling loops that trigger causes, and the
    reason reported when the connection is finally closed. */
module Shutdown {
  import opened Wrappers

  /** The value of the reason slot before any trigger has fired. */
  const Unknown := "unknown"
  /** The reported reason when the upstream session never opened. */
  const NotEstablished := "not established"
  /** The reported reason when both loops ended without triggering shutdown. */
  const InternalCompletion := "internal task completion"

  /** The reasons the two loops pass when they trigger shutdown. */
  const ClientClose := "client websocket close"
  const ClientFatal := "client receive fatal error"
  const GeminiClose := "Gemini stream close"
  const GeminiFatal := "Gemini API fatal error"

  /** The reasons that occur at a call site of the latch. */
  predicate IsLoopReason(reason: string) {
    reason in {ClientClose, ClientFatal, GeminiClose, GeminiFatal}
  }

  /** The two loops the handler runs concurrently. */
  datatype TaskName = ReceiveFromClient | SendToClient

  /** A scheduled loop and whether it has already finished. */
  datatype Task = Task(name: TaskName, done: bool)

  /** `receive_task` and `send_task`: each is `None` until it has been created. */
  datatype Tasks = Tasks(receiveTask: Option<Task>, sendTask: Option<Task>)

  /** `shutdown_reason` (local to the open session) and
      `session_shutdown_reason` (reported when the connection closes). */
  datatype Latch = Latch(shutdownReason: string, sessionReason: string)

  /** The state right after the upstream session has opened. */
  const Opened := Latch(Unknown, NotEstablished)

  /** What one call of the latch leaves behind: the new latch and the loops it
      cancelled, in the order it cancelled them. */
  datatype Outcome = Outcome(latch: Latch, cancelled: seq<TaskName>)

  /** The created tasks, receive task first. */
  function Siblings(tasks: Tasks): (r: seq<Task>)
    ensures |r| == (if tasks.receiveTask.Some? then 1 else 0) + (if tasks.sendTask.Some? then 1 else 0)
    ensures tasks.receiveTask.Some? ==> r[0] == tasks.receiveTask.value
    ensures tasks.sendTask.Some? ==> r[|r| - 1] == tasks.sendTask.value
    ensures forall t :: t in r <==> Some(t) == tasks.receiveTask || Some(t) == tasks.sendTask
  {
    (if tasks.receiveTask.Some? then [tasks.receiveTask.value] else [])
    + (if tasks.sendTask.Some? then [tasks.sendTask.value] else [])
  }

  /** The tasks among `tasks` that are neither the caller nor already done. */
  function CancelTargets(tasks: seq<Task>, current: Option<TaskName>): (r: seq<TaskName>)
    ensures |r| <= |tasks|
    ensures forall n :: n in r ==> Task(n, false) in tasks && current != Some(n)
    ensures forall t :: t in tasks && !t.done && current != Some(t.name) ==> t.name in r
  {
    if |tasks| == 0 then []
    else
      var t := tasks[0];
      (if current != Some(t.name) && !t.done then [t.name] else [])
      + CancelTargets(tasks[1..], current)
  }

  /** `initiate_shutdown(reason)` called from the task `current`. */
  function InitiateShutdown(latch: Latch, reason: string, tasks: Tasks, current: Option<TaskName>): (o: Outcome)
    ensures latch.shutdownReason != Unknown ==> o == Outcome(latch, [])
    ensures latch.shutdownReason == Unknown ==> o.latch == Latch(reason, reason)
    ensures forall n :: n in o.cancelled ==>
              latch.shutdownReason == Unknown && current != Some(n) && Task(n, false) in Siblings(tasks)
    ensures forall t :: latch.shutdownReason == Unknown && t in Siblings(tasks) && !t.done && current != Some(t.name)
              ==> t.name in o.cancelled
  {
    if latch.shutdownReason != Unknown then Outcome(latch, [])
    else Outcome(Latch(reason, reason), CancelTargets(Siblings(tasks), current))
  }

  /** The latch never cancels the task that calls it. */
  lemma NeverCancelsCaller(latch: Latch, reason: string, tasks: Tasks, current: TaskName)
    ensures current !in InitiateShutdown(latch, reason, tasks, Some(current)).cancelled
  {
  }

  /** One call of the latch, with the tasks as that caller sees them. */
  datatype Trigger = Trigger(reason: string, tasks: Tasks, current: Option<TaskName>)

  /** The latch after a sequence of calls, with every cancellation they caused. */
  function RunTriggers(latch: Latch, triggers: seq<Trigger>): Outcome
    decreases |triggers|
  {
    if |triggers| == 0 then Outcome(latch, [])
    else
      var t := triggers[0];
      var first := InitiateShutdown(latch, t.reason, t.tasks, t.current);
      var rest := RunTriggers(first.latch, triggers[1..]);
      Outcome(rest.latch, first.cancelled + rest.cancelled)
  }

  /** Once a reason is recorded, any further calls change nothing and cancel nothing. */
  lemma {:induction false} LatchedIsFinal(latch: Latch, triggers: seq<Trigger>)
    requires latch.shutdownReason != Unknown
    ensures RunTriggers(latch, triggers) == Outcome(latch, [])
    decreases |triggers|
  {
    if |triggers| > 0 {
      LatchedIsFinal(latch, triggers[1..]);
    }
  }

  /** The first call with a real reason wins: the latch records its reason and
      the whole run cancels exactly what that call cancelled. */
  lemma {:induction false} FirstTriggerWins(triggers: seq<Trigger>)
    requires |triggers| > 0 && triggers[0].reason != Unknown
    ensures var t := triggers[0];
            RunTriggers(Opened, triggers) == InitiateShutdown(Opened, t.reason, t.tasks, t.current)
  {
    var t := triggers[0];
    var first := InitiateShutdown(Opened, t.reason, t.tasks, t.current);
    LatchedIsFinal(first.latch, triggers[1..]);
    assert first.cancelled + [] == first.cancelled;
  }

  /** The fallback applied after both loops settled. */
  function Settle(latch: Latch): (r: Latch)
    ensures latch.shutdownReason == Unknown ==> r == Latch(InternalCompletion, InternalCompletion)
    ensures latch.shutdownReason != Unknown ==> r == latch
  {
    if latch.shutdownReason == Unknown then Latch(InternalCompletion, InternalCompletion) else latch
  }

  /** The first reason among the triggers that fills the slot, if any. */
  function FirstRealReason(triggers: seq<Trigger>): Option<string>
    decreases |triggers|
  {
    if |triggers| == 0 then None
    else if triggers[0].reason != Unknown then Some(triggers[0].reason)
    else FirstRealReason(triggers[1..])
  }

  /** The reason printed when the connection closes, given whether the
      upstream session opened and the latch calls made while it was open. */
  function CloseReason(connected: bool, triggers: seq<Trigger>): string
  {
    if !connected then NotEstablished
    else Settle(RunTriggers(Opened, triggers).latch).sessionReason
  }

  lemma {:induction false} RunFromOpenedRecordsFirst(latch: Latch, triggers: seq<Trigger>)
    requires latch.shutdownReason == Unknown
    ensures FirstRealReason(triggers).Some? ==>
              RunTriggers(latch, triggers).latch == Latch(FirstRealReason(triggers).value, FirstRealReason(triggers).value)
    ensures FirstRealReason(triggers).None? ==> RunTriggers(latch, triggers).latch.shutdownReason == Unknown
    decreases |triggers|
  {
    if |triggers| > 0 {
      var t := triggers[0];
      var first := InitiateShutdown(latch, t.reason, t.tasks, t.current);
      if t.reason != Unknown {
        LatchedIsFinal(first.latch, triggers[1..]);
      } else {
        RunFromOpenedRecordsFirst(first.latch, triggers[1..]);
      }
    }
  }

  /** The reported close reason is the first real trigger's reason, the
      fallback when none fired, and "not established" when the session never
      opened; it is never left at "unknown". */
  lemma CloseReasonIsFirstTrigger(connected: bool, triggers: seq<Trigger>)
    ensures !connected ==> CloseReason(connected, triggers) == NotEstablished
    ensures connected && FirstRealReason(triggers).Some? ==>
              CloseReason(connected, triggers) == FirstRealReason(triggers).value
    ensures connected && FirstRealReason(triggers).None? ==>
              CloseReason(connected, triggers) == InternalCompletion
    ensures CloseReason(connected, triggers) != Unknown
  {
    RunFromOpenedRecordsFirst(Opened, triggers);
  }

  /** With the reasons the loops actually pass, the connection closes with
      the reason of whichever loop triggered shutdown first. */
  lemma FirstLoopReasonReported(triggers: seq<Trigger>)
    requires |triggers| > 0
    requires forall i :: 0 <= i < |triggers| ==> IsLoopReason(triggers[i].reason)
    ensures CloseReason(true, triggers) == triggers[0].reason
  {
    CloseReasonIsFirstTrigger(true, triggers);
  }
}
