/**
  The root context. main.go builds two cells: the process context, which failures cancel with
  their error as cause (`stopRoot`), and its child made by `signal.NotifyContext`, which signals
  cancel and which every command receives. The first cancellation of a cell fixes its cause.
 */
module Contexts {
  import opened GoErrors

  /** Who performed a cancellation. The program does not store this; the proofs do. */
  datatype Who = Operator | Child(id: nat) | Caller

  datatype Stop = Stop(cause: Error, who: Who)

  /** A cancellable context: live, or cancelled with its first cause. */
  type Cell = Option<Stop>

  function Cancel(c: Cell, stop: Stop): Cell {
    if c.Some? then c else Some(stop)
  }

  /** `ctx.Err() != nil && errors.Is(context.Cause(ctx), context.Canceled)`. */
  predicate StoppedByOperator(ctx: Cell) {
    ctx.Some? && Is(ctx.value.cause, Canceled)
  }

  /** `ctx.Err()`: a cancelled root context always reports context.Canceled itself. */
  function CtxErr(ctx: Cell): Option<Error> {
    if ctx.Some? then Some(Canceled) else None
  }

  datatype Root = Root(process: Cell, visible: Cell)

  datatype RootEvent =
    | Notified(signal: int)
    | Failed(cause: Option<Error>, who: Who)

  function StopOf(e: RootEvent): Stop {
    match e
    case Notified(signal) => Stop(SignalReceived(signal), Operator)
    case Failed(None, who) => Stop(Canceled, who)
    case Failed(Some(cause), who) => Stop(cause, who)
  }

  /** A signal cancels only the child; `stopRoot` cancels the parent, and the child with it. */
  function Absorb(r: Root, e: RootEvent): Root {
    match e
    case Notified(_) => r.(visible := Cancel(r.visible, StopOf(e)))
    case Failed(_, _) =>
      if r.process.Some? then r
      else Root(Some(StopOf(e)), Cancel(r.visible, StopOf(e)))
  }

  function RunEvents(events: seq<RootEvent>): Root {
    if events == [] then Root(None, None)
    else Absorb(RunEvents(events[..|events| - 1]), events[|events| - 1])
  }

  /** Through both cells, commands see the first event and only the first. */
  lemma {:induction false} FirstCauseWins(events: seq<RootEvent>)
    ensures RunEvents(events).visible == if events == [] then None else Some(StopOf(events[0]))
    ensures RunEvents(events).process.Some? ==> RunEvents(events).visible.Some?
  {
    if events == [] {
    } else {
      FirstCauseWins(events[..|events| - 1]);
    }
  }

  /** The operator test reads one thing: whether the first event was a signal, or a failure whose
      error happens to wrap context.Canceled. Later events never change the answer. */
  lemma OperatorTestReadsFirstEvent(events: seq<RootEvent>)
    ensures StoppedByOperator(RunEvents(events).visible) <==>
      events != [] && (events[0].Notified? || events[0].cause.None? || Is(events[0].cause.value, Canceled))
  {
    FirstCauseWins(events);
  }
}
