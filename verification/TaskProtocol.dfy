/** The scheduling protocol of one task: the atomics of `BasicTask`, the threads that wake
  * it and the executors that run it, as a step machine with one atomic access per step.
  *
  * Steps interleave in any order (sequential consistency is assumed throughout). Any number
  * of wakers and executors take part; the ready queue is abstracted to the number of entries
  * it holds for this task.
  */
module TaskProtocol {

  datatype TaskState = Created | Queued | Starting | Running | Pending | Done

  // What a wake asks for: the thread to run on and the schedule mode.
  datatype Tag = Tag(thread: nat, mode: nat)

  // The request word, decoded. `WordCodec` shows that equal words are equal requests.
  datatype Request = NoRequest | Want(epoch: nat, tag: Tag)

  // Program counter of a thread inside `post`; each constructor is the next atomic access.
  datatype WakerPc =
    | Out                                        // not waking
    | ReadState                                  // request_schedule loads the state
    | ClaimQueued(seen: TaskState)               // weak CAS seen -> Queued
    | ReadEpoch                                  // request_wake_while_running loads the run epoch
    | Install(e: nat)                            // CAS no request -> Want(e, tag)
    | ClearStale(stale: Request)                 // CAS stale -> no request
    | ResolveState(e: nat)                       // resolve loads the state
    | ResolveEpoch(e: nat)                       // resolve saw Running, loads the run epoch
    | ResolveClear(e: nat, seen: TaskState)      // CAS Want(e, tag) -> no request
    | ResolveQueue(e: nat)                       // CAS Pending -> Queued
    | Push(previous: TaskState)                  // moved the task to Queued, must insert it

  // `begin` and `told` are history: how many run bodies had begun when this wake began, and
  // whether the caller of the last wake was told that it was accepted.
  datatype Waker = Waker(pc: WakerPc, tag: Tag, begin: nat, told: bool)

  datatype ExecPc =
    | Idle
    | Popped                                     // took an entry from the ready queue
    | LoadEpoch
    | StoreEpoch(next: nat)
    | StoreRunning
    | Body                                       // inside run()
    | StoreDone | TakeDone
    | StorePending | TakePending | CheckPending(taken: Request) | ClaimPending
    | StoreAgain | TakeAgain
    | PushSelf                                   // moved the task to Queued, must insert it

  datatype State = State(
    st: TaskState,
    req: Request,
    epoch: nat,
    entries: nat,                                // ready-queue entries of this task
    wakers: map<nat, Waker>,
    execs: map<nat, ExecPc>,
    runs: nat,                                   // history: run bodies begun so far
    accepted: set<nat>)                          // history: `begin` of every accepted wake

  ghost predicate Init(s: State) {
    && s.st == Created && s.req == NoRequest && s.epoch == 0 && s.entries == 0
    && s.runs == 0 && s.accepted == {}
    && (forall t | t in s.wakers :: s.wakers[t].pc == Out && s.wakers[t].begin == 0)
    && (forall x | x in s.execs :: s.execs[x] == Idle)
  }

  function At(s: State, t: nat, pc: WakerPc): State
    requires t in s.wakers
  {
    s.(wakers := s.wakers[t := s.wakers[t].(pc := pc)])
  }

  // The wake returns; `ok` tells whether the caller is told that it was accepted.
  function Return(s: State, t: nat, ok: bool): State
    requires t in s.wakers
  {
    var s' := s.(wakers := s.wakers[t := s.wakers[t].(pc := Out, told := ok)]);
    if ok then s'.(accepted := s.accepted + {s.wakers[t].begin}) else s'
  }

  function XAt(s: State, x: nat, pc: ExecPc): State {
    s.(execs := s.execs[x := pc])
  }

  // One atomic step of waker `t`.
  ghost predicate WakeStep(s: State, s': State, t: nat) {
    && t in s.wakers
    && var w := s.wakers[t];
       match w.pc
       case Out =>
         t in s'.wakers && s' == s.(wakers := s.wakers[t := Waker(ReadState, s'.wakers[t].tag, s.runs, w.told)])
       case ReadState =>
         (match s.st
          case Created => s' == At(s, t, ClaimQueued(Created))
          case Pending => s' == At(s, t, ClaimQueued(Pending))
          case Starting => s' == s
          case Running => s' == At(s, t, ReadEpoch)
          case Queued => s' == Return(s, t, false)
          case Done => s' == Return(s, t, false))
       case ClaimQueued(seen) =>
         || s' == At(s, t, ReadState)              // failed, possibly spuriously
         || (s.st == seen && s' == At(s, t, Push(seen)).(st := Queued))
       case ReadEpoch =>
         s' == At(s, t, Install(s.epoch))
       case Install(e) =>
         if s.req == NoRequest then s' == At(s, t, ResolveState(e)).(req := Want(e, w.tag))
         else if s.req == Want(e, w.tag) then s' == At(s, t, ResolveState(e))
         else if s.req.epoch != e then s' == At(s, t, ClearStale(s.req))
         else s' == Return(s, t, false)
       case ClearStale(stale) =>
         s' == At(s, t, ReadEpoch).(req := if s.req == stale then NoRequest else s.req)
       case ResolveState(e) =>
         s' == At(s, t, if s.st == Running then ResolveEpoch(e) else ResolveClear(e, s.st))
       case ResolveEpoch(e) =>
         s' == (if s.epoch == e then Return(s, t, true) else At(s, t, ResolveClear(e, Running)))
       case ResolveClear(e, seen) =>
         if s.req != Want(e, w.tag) then s' == Return(s, t, true)
         else if seen == Pending then s' == At(s, t, ResolveQueue(e)).(req := NoRequest)
         else s' == Return(s, t, seen != Created).(req := NoRequest)
       case ResolveQueue(e) =>
         if s.st == Pending then s' == At(s, t, Push(Pending)).(st := Queued)
         else s' == At(s, t, ResolveState(e))
       case Push(_) =>
         s' == Return(s, t, true).(entries := s.entries + 1)
  }

  // A full queue under the rejecting policy: the waker undoes its move to Queued.
  ghost predicate CancelStep(s: State, s': State, t: nat) {
    && t in s.wakers && s.wakers[t].pc.Push?
    && s' == Return(s, t, false).(st := if s.st == Queued then s.wakers[t].pc.previous else s.st)
  }

  // One atomic step of executor `x`.
  ghost predicate ExecStep(s: State, s': State, x: nat) {
    && x in s.execs
    && match s.execs[x]
       case Idle => s.entries > 0 && s' == XAt(s, x, Popped).(entries := s.entries - 1)
       case Popped =>
         s' == (if s.st == Queued then XAt(s, x, LoadEpoch).(st := Starting) else XAt(s, x, Idle))
       case LoadEpoch => s' == XAt(s, x, StoreEpoch(s.epoch + 1))
       case StoreEpoch(next) => s' == XAt(s, x, StoreRunning).(epoch := next)
       case StoreRunning => s' == XAt(s, x, Body).(st := Running, runs := s.runs + 1)
       case Body =>
         || s' == XAt(s, x, StoreDone) || s' == XAt(s, x, StorePending) || s' == XAt(s, x, StoreAgain)
       case StoreDone => s' == XAt(s, x, TakeDone).(st := Done)
       case TakeDone => s' == XAt(s, x, Idle).(req := NoRequest)
       case StorePending => s' == XAt(s, x, TakePending).(st := Pending)
       case TakePending => s' == XAt(s, x, CheckPending(s.req)).(req := NoRequest)
       case CheckPending(v) =>
         s' == XAt(s, x, if v.Want? && v.epoch == s.epoch then ClaimPending else Idle)
       case ClaimPending =>
         s' == (if s.st == Pending then XAt(s, x, PushSelf).(st := Queued) else XAt(s, x, Idle))
       case StoreAgain => s' == XAt(s, x, TakeAgain).(st := Queued)
       case TakeAgain => s' == XAt(s, x, PushSelf).(req := NoRequest)
       case PushSelf => s' == XAt(s, x, Idle).(entries := s.entries + 1)
  }

  // Any number of executors, and inserts that may be rejected.
  ghost predicate Next(s: State, s': State) {
    exists t: nat :: WakeStep(s, s', t) || CancelStep(s, s', t) || ExecStep(s, s', t)
  }

  ghost predicate NextAt(run: seq<State>, i: nat)
    requires i + 1 < |run|
  {
    Next(run[i], run[i + 1])
  }

  ghost predicate IsRun(run: seq<State>) {
    && |run| > 0 && Init(run[0])
    && forall i: nat | i + 1 < |run| :: NextAt(run, i)
  }
}
