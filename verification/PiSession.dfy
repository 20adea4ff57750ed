/** The per-session turn register of `PiSdkSession`.

    `sendTurn` and `abort` are async, so each is split at its `await`: what runs
    before the await and what runs after it are two atomic steps, and any number of
    other steps may come between them.
  */
module PiSession {
  import opened Options

  // Identifiers are only ever compared for equality.
  type AdapterId = int
  type SubagentId = int
  type TaskId = int
  type ModelId = int

  /** The JSON-RPC error classes a turn can end with, other than TURN_CANCELLED. */
  datatype ErrorClass = Auth | RateLimit | Network | TaskTimeout | Internal | SessionNotFound

  /** How the race between `sdk.prompt` and the turn timer ended. */
  datatype SdkResult = Resolved | Threw(error: ErrorClass) | TimedOut

  datatype TurnResult = Completed | TurnCancelled | Failed(error: ErrorClass)

  datatype Session = Session(
    subagent: SubagentId,
    model: ModelId,
    closed: bool,
    generation: nat,
    cancelledGeneration: nat,
    activeTask: Option<TaskId>,
    inFlight: bool,
    cancellationPending: bool)

  function NewSession(subagent: SubagentId, model: ModelId): Session {
    Session(subagent, model, false, 0, 0, None, false, false)
  }

  /** `sendTurn` up to its await, for a session that is not closed. */
  function BeginTurn(s: Session, task: Option<TaskId>): Session {
    s.(generation := s.generation + 1, activeTask := task, inFlight := true, cancellationPending := false)
  }

  /** The result `sendTurn` reports for generation `g` once the SDK has settled. */
  function ResultOf(s: Session, g: nat, sdk: SdkResult): TurnResult {
    if s.cancelledGeneration == g then TurnCancelled
    else match sdk
      case Resolved => Completed
      case Threw(e) => Failed(e)
      case TimedOut => Failed(TaskTimeout)
  }

  /** The `finally` block of `sendTurn`: only the newest generation clears the flags. */
  function SettleTurn(s: Session, g: nat): Session {
    if s.generation == g then s.(activeTask := None, inFlight := false, cancellationPending := false) else s
  }

  predicate AbortAccepted(s: Session, expected: Option<TaskId>) {
    (expected.None? || s.activeTask == expected) && s.inFlight
  }

  /** `abort` up to its await. */
  function Abort(s: Session, expected: Option<TaskId>): Session {
    if AbortAccepted(s, expected) then s.(cancelledGeneration := s.generation, cancellationPending := true) else s
  }

  /** The flags agree: a pending cancellation is one of the newest turn, which is in flight. */
  predicate Coherent(s: Session) {
    && s.cancelledGeneration <= s.generation
    && (s.cancellationPending ==> s.inFlight && s.cancelledGeneration == s.generation)
    && (s.inFlight && s.cancelledGeneration == s.generation ==> s.cancellationPending)
    && (s.inFlight ==> 0 < s.generation)
    && (!s.inFlight ==> s.activeTask == None)
  }

  class PiSdkSession {
    const adapterId: AdapterId
    const subagent: SubagentId
    const model: ModelId
    var closed: bool
    var turnGeneration: nat
    var cancelledTurnGeneration: nat
    var activeTaskId: Option<TaskId>
    var turnInFlight: bool
    var cancellationPending: bool

    function State(): Session
      reads this
    {
      Session(subagent, model, closed, turnGeneration, cancelledTurnGeneration, activeTaskId, turnInFlight,
              cancellationPending)
    }

    constructor (adapterId: AdapterId, subagent: SubagentId, model: ModelId)
      ensures this.adapterId == adapterId && State() == NewSession(subagent, model)
    {
      this.adapterId, this.subagent, this.model := adapterId, subagent, model;
      closed, turnGeneration, cancelledTurnGeneration := false, 0, 0;
      activeTaskId, turnInFlight, cancellationPending := None, false, false;
    }

    /** The first half of `sendTurn`; `None` stands for the SESSION_NOT_FOUND throw. */
    method SendTurnBegin(task: Option<TaskId>) returns (generation: Option<nat>)
      modifies this
      ensures old(closed) ==> generation == None && State() == old(State())
      ensures !old(closed) ==> State() == BeginTurn(old(State()), task) && generation == Some(State().generation)
    {
      if closed {
        return None;
      }
      turnGeneration := turnGeneration + 1;
      activeTaskId := task;
      turnInFlight := true;
      cancellationPending := false;
      return Some(turnGeneration);
    }

    /** The second half of `sendTurn`, for the generation its first half captured. */
    method SendTurnSettle(generation: nat, sdk: SdkResult) returns (result: TurnResult)
      modifies this
      ensures result == ResultOf(old(State()), generation, sdk)
      ensures result == TurnCancelled <==> old(cancelledTurnGeneration) == generation
      ensures result == Completed <==> sdk == Resolved && old(cancelledTurnGeneration) != generation
      ensures forall e :: result == Failed(e) <==>
                old(cancelledTurnGeneration) != generation && (sdk == Threw(e) || (sdk == TimedOut && e == TaskTimeout))
      ensures State() == SettleTurn(old(State()), generation)
    {
      if cancelledTurnGeneration == generation {
        result := TurnCancelled;
      } else {
        match sdk {
          case Resolved => result := Completed;
          case Threw(e) => result := Failed(e);
          case TimedOut => result := Failed(TaskTimeout);
        }
      }
      if turnGeneration == generation {
        activeTaskId := None;
        turnInFlight := false;
        cancellationPending := false;
      }
    }

    /** The part of `abort` that decides its result; only the SDK call follows it. */
    method AbortBegin(expected: Option<TaskId>) returns (aborted: bool)
      modifies this
      ensures aborted <==> AbortAccepted(old(State()), expected)
      ensures State() == Abort(old(State()), expected)
    {
      if expected.Some? && activeTaskId != expected {
        return false;
      }
      if !turnInFlight {
        return false;
      }
      cancelledTurnGeneration := turnGeneration;
      cancellationPending := true;
      return true;
    }

    method IsCancellationPending() returns (pending: bool)
      ensures pending == State().cancellationPending
    {
      return cancellationPending;
    }

    method Close()
      modifies this
      ensures State() == old(State()).(closed := true)
    {
      if closed {
        return;
      }
      closed := true;
    }
  }
}
