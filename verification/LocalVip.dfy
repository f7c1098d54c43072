/**
 Kernel effects with writers that can be killed.

 Every bind and unbind is a sequence of commands run by children. The caller may be cancelled while
 it waits, and a child that is not proven reaped may still change the kernel at any later moment.
 Three tracking sets and the child count decide what still has to be cleaned up and whether a
 release may be acknowledged. Operations on one address are sequential; everything else interleaves.

 The sets `bound`, `pending_first_bind` and `needs_recleanup` and the two kernel tables are kept by
 address: each slot says whether its address is a member.
 */
module LocalVip {
  import opened Prelude
  import C = Children

  type Ip = nat

  datatype Kind = AddMarker | AddAddress | DeleteAddress | DeleteMarker

  /** A command of a child and whether it has taken effect. */
  datatype Job = Job(kind: Kind, ip: Ip, acted: bool)

  /**
   How a waited-for command ends. `Unverified` is a failed delete whose presence probe could not
   prove absence; `TimedOut` is every I/O error after the child was started.
   */
  datatype Exit = Success | Failure | Unverified | TimedOut(reaped: bool)

  /** How far a bind has come; the last three clean up after a first bind whose address command failed. */
  datatype BindPoint =
    | Owned(wasPending: bool)
    | Prepared(wasPending: bool)
    | Marking(wasPending: bool, child: nat)
    | Marked
    | Adding(child: nat)
    | Added
    | Confirmed
    | Probing
    | Unmarking(child: nat)
    | Forgetting

  /** How far an unbind has come. */
  datatype UnbindPoint =
    | Started
    | Deleting(child: nat)
    | Deleted
    | Clearing(child: nat)
    | Cleared
    | Noted
    | Disowned
    | Forgotten

  /** The operation on one address; `settled` was read when the unbind started. */
  datatype Pc = Idle | Bind(first: bool, bind: BindPoint) | Unbind(settled: bool, unbind: UnbindPoint)

  /** The reconcile worker of one address: a pending cleanup, and a completed binding it may keep. */
  datatype Worker = Worker(cleanupNeeded: bool, completed: bool)

  /** One address: kernel state, membership in the tracking sets, operation in progress, worker. */
  datatype Slot = Slot(
    address: bool, marker: bool,
    bound: bool, pending: bool, recleanup: bool,
    pc: Pc, worker: Worker)

  datatype State = State(slots: map<Ip, Slot>, ledger: C.Ledger, jobs: seq<Job>, stopped: bool)

  datatype Event =
    /** A child that is not proven reaped makes its change. */
    | Act(child: nat)
    /** The background waiter is done with an abandoned child. */
    | Reap(child: nat, reaped: bool)
    | BeginBind(ip: Ip)
    | BeginUnbind(ip: Ip)
    /** The operation takes its next step. */
    | Proceed(ip: Ip)
    /** The command the operation waits for ends. */
    | CommandEnds(ip: Ip, exit: Exit)
    /** A command could not be started, or a probe could not run. */
    | CannotRun(ip: Ip)
    /** The bind lost its authorization between two commands or on completion. */
    | GiveUp(ip: Ip, keep: bool)
    /** The operation is dropped at whatever it waits for. */
    | Cancel(ip: Ip, keep: bool)
    /** The worker decides to withdraw. */
    | Withdraw(ip: Ip)
    /** No worker starts another bind. */
    | Stop

  const CLEAN := Slot(false, false, false, false, false, Idle, Worker(false, false))

  const INITIAL := State(map[], C.EMPTY, [], false)

  function SlotOf(s: State, ip: Ip): Slot {
    if ip in s.slots then s.slots[ip] else CLEAN
  }

  predicate Settled(s: State) {
    s.ledger.tracker.unsettled == 0
  }

  predicate Tracked(x: Slot) {
    x.bound || x.recleanup
  }

  function BindChild(at: BindPoint): Option<nat> {
    if at.Marking? || at.Adding? || at.Unmarking? then Some(at.child) else None
  }

  function UnbindChild(at: UnbindPoint): Option<nat> {
    if at.Deleting? || at.Clearing? then Some(at.child) else None
  }

  /** The child the operation waits for. */
  function Current(pc: Pc): Option<nat> {
    match pc
    case Idle => None
    case Bind(_, at) => BindChild(at)
    case Unbind(_, at) => UnbindChild(at)
  }

  /** The bind has not turned to cleaning up. */
  predicate Placing(pc: Pc) {
    pc.Bind? && !pc.bind.Probing? && !pc.bind.Unmarking? && !pc.bind.Forgetting?
  }

  predicate Alive(s: State, c: nat)
    requires c < |s.ledger.runs|
  {
    !(s.ledger.runs[c].phase == C.Finished && s.ledger.runs[c].reaped)
  }

  predicate CanEnd(s: State, c: nat) {
    c < |s.jobs| == |s.ledger.runs| && s.ledger.runs[c].phase != C.Finished
  }

  // ---- One address ----

  function Changed(x: Slot, kind: Kind): Slot {
    match kind
    case AddMarker => x.(marker := true)
    case AddAddress => x.(address := true)
    case DeleteAddress => x.(address := false)
    case DeleteMarker => x.(marker := false)
  }

  /** The operation returns; `cleanup` and `completed` are what its worker then knows. */
  function Returned(x: Slot, cleanup: bool, completed: bool): Slot {
    x.(pc := Idle, worker := Worker(cleanup, completed))
  }

  function Failed(x: Slot): Slot {
    Returned(x, true, x.worker.completed)
  }

  /** A failed first bind that left nothing behind gives up ownership. */
  function Disclaimed(x: Slot): Slot {
    x.(bound := false, pc := Bind(true, Forgetting))
  }

  /** Ownership is recorded before the first command. */
  function BindBegun(x: Slot): Slot {
    x.(pc := Bind(x.pending || !x.bound, Owned(x.pending)), bound := true)
  }

  function UnbindBegun(x: Slot, settled: bool): Slot {
    x.(pc := Unbind(settled, Started), worker := Worker(true, false))
  }

  /** The next step of a bind and the command it starts, if any; `next` is that child. */
  function BindProceeding(x: Slot, first: bool, at: BindPoint, next: nat): (Slot, Option<Kind>) {
    match at
    case Owned(wasPending) => (x.(pending := x.pending || first, pc := Bind(first, Prepared(wasPending))), None)
    case Prepared(wasPending) => (x.(pc := Bind(first, Marking(wasPending, next))), Some(AddMarker))
    case Marked => (x.(pc := Bind(first, Adding(next))), Some(AddAddress))
    case Added => (x.(pending := x.pending && !first, pc := Bind(first, Confirmed)), None)
    case Confirmed => (Returned(x, false, true), None)
    case Probing =>
      if x.address then (Failed(x), None) else (x.(pc := Bind(first, Unmarking(next))), Some(DeleteMarker))
    case Forgetting => (Failed(x.(pending := false)), None)
    case _ => (x, None)
  }

  function UnbindProceeding(x: Slot, settled: bool, at: UnbindPoint, next: nat): (Slot, Option<Kind>) {
    match at
    case Started =>
      if !Tracked(x) then (Returned(x, false, false), None)
      else (x.(pc := Unbind(settled, Deleting(next))), Some(DeleteAddress))
    case Deleted => (x.(pc := Unbind(settled, Clearing(next))), Some(DeleteMarker))
    case Cleared => (x.(recleanup := x.recleanup || !settled, pc := Unbind(settled, Noted)), None)
    case Noted => (x.(bound := false, pc := Unbind(settled, Disowned)), None)
    case Disowned => (x.(pending := false, pc := Unbind(settled, Forgotten)), None)
    case Forgotten =>
      var y := x.(recleanup := x.recleanup && !settled);
      (Returned(y, y.recleanup, false), None)
    case _ => (x, None)
  }

  function Proceeding(x: Slot, next: nat): (Slot, Option<Kind>) {
    match x.pc
    case Idle => (x, None)
    case Bind(first, at) => BindProceeding(x, first, at, next)
    case Unbind(settled, at) => UnbindProceeding(x, settled, at, next)
  }

  /** The verified result of a delete command: it succeeded, or the probe shows nothing left. */
  predicate Verified(exit: Exit, present: bool) {
    exit.Success? || (exit.Failure? && !present)
  }

  function BindEnding(x: Slot, first: bool, at: BindPoint, exit: Exit): Slot {
    match at
    case Marking(wasPending, _) =>
      if exit.Success? then x.(pc := Bind(first, Marked))
      else if !first then Failed(x)
      else if wasPending || exit.TimedOut? then Failed(x.(pending := true))
      else Disclaimed(x)
    case Adding(_) =>
      if exit.Success? then x.(pc := Bind(first, Added))
      else if first then x.(pc := Bind(first, Probing))
      else Failed(x)
    case Unmarking(_) => if Verified(exit, x.marker) then Disclaimed(x) else Failed(x)
    case _ => x
  }

  function UnbindEnding(x: Slot, settled: bool, at: UnbindPoint, exit: Exit): Slot {
    match at
    case Deleting(_) => if Verified(exit, x.address) then x.(pc := Unbind(settled, Deleted)) else Failed(x)
    case Clearing(_) => if Verified(exit, x.marker) then x.(pc := Unbind(settled, Cleared)) else Failed(x)
    case _ => x
  }

  /** The command waited for ended. */
  function Ending(x: Slot, exit: Exit): Slot {
    match x.pc
    case Idle => x
    case Bind(first, at) => BindEnding(x, first, at, exit)
    case Unbind(settled, at) => UnbindEnding(x, settled, at, exit)
  }

  /** A command can be due, or the probe before it. */
  predicate Runnable(x: Slot) {
    match x.pc
    case Bind(_, at) => at.Prepared? || at.Marked? || at.Probing?
    case Unbind(_, at) => at.Deleted? || (at.Started? && Tracked(x))
    case Idle => false
  }

  /** A spawn failure is an I/O error of the command that was due. */
  function Unstarted(x: Slot): Slot {
    match x.pc
    case Bind(first, Prepared(_)) => Failed(x.(pending := x.pending || first))
    case Bind(true, Marked) => x.(pc := Bind(true, Probing))
    case _ => Failed(x)
  }

  /** The operation is gone; a completed binding may survive a cancelled reassertion. */
  function Interrupted(x: Slot, keep: bool): Slot {
    Returned(x, !(keep && x.worker.completed && Placing(x.pc)), x.worker.completed)
  }

  // ---- The tracking sets themselves ----

  /**
   The sets as the daemon keeps them. Each method is one stretch between two points where the caller
   can be dropped; its effect on the sets is the slot's step on the three flags.
   */
  class TrackingSets {
    var bound: set<Ip>
    var pending: set<Ip>
    var recleanup: set<Ip>

    constructor ()
      ensures forall ip :: Agrees(ip, CLEAN)
    {
      bound, pending, recleanup := {}, {}, {};
    }

    predicate Agrees(ip: Ip, x: Slot)
      reads this
    {
      x.bound == (ip in bound) && x.pending == (ip in pending) && x.recleanup == (ip in recleanup)
    }

    method OwnAddress(ip: Ip, ghost x: Slot) returns (first: bool, wasPending: bool)
      requires Agrees(ip, x)
      modifies this
      ensures bound == old(bound) + {ip} && pending == old(pending) && recleanup == old(recleanup)
      ensures Agrees(ip, BindBegun(x)) && BindBegun(x).pc == Bind(first, Owned(wasPending))
    {
      wasPending := ip in pending;
      first := wasPending || ip !in bound;
      bound := bound + {ip};
    }

    method AwaitFirstBind(ip: Ip, first: bool, ghost wasPending: bool, ghost x: Slot)
      requires Agrees(ip, x)
      modifies this
      ensures bound == old(bound) && recleanup == old(recleanup)
      ensures pending == if first then old(pending) + {ip} else old(pending)
      ensures Agrees(ip, BindProceeding(x, first, Owned(wasPending), 0).0)
    {
      if first {
        pending := pending + {ip};
      }
    }

    method MarkerFailed(ip: Ip, first: bool, wasPending: bool, exit: Exit, ghost x: Slot)
      requires Agrees(ip, x) && !exit.Success?
      modifies this
      ensures Agrees(ip, BindEnding(x, first, Marking(wasPending, 0), exit))
      ensures bound - {ip} == old(bound) - {ip} && pending - {ip} == old(pending) - {ip} && recleanup == old(recleanup)
    {
      if first {
        if wasPending || exit.TimedOut? {
          pending := pending + {ip};
        } else {
          bound := bound - {ip};
        }
      }
    }

    method FinishBind(ip: Ip, first: bool, ghost x: Slot)
      requires Agrees(ip, x)
      modifies this
      ensures bound == old(bound) && recleanup == old(recleanup)
      ensures pending == if first then old(pending) - {ip} else old(pending)
      ensures Agrees(ip, BindProceeding(x, first, Added, 0).0)
    {
      if first {
        pending := pending - {ip};
      }
    }

    method NoteRecleanup(ip: Ip, settled: bool, ghost x: Slot)
      requires Agrees(ip, x)
      modifies this
      ensures bound == old(bound) && pending == old(pending)
      ensures recleanup == if settled then old(recleanup) else old(recleanup) + {ip}
      ensures Agrees(ip, UnbindProceeding(x, settled, Cleared, 0).0)
    {
      if !settled {
        recleanup := recleanup + {ip};
      }
    }

    method Disown(ip: Ip, ghost settled: bool, ghost x: Slot)
      requires Agrees(ip, x)
      modifies this
      ensures bound == old(bound) - {ip} && pending == old(pending) && recleanup == old(recleanup)
      ensures Agrees(ip, UnbindProceeding(x, settled, Noted, 0).0)
    {
      bound := bound - {ip};
    }

    method ForgetPending(ip: Ip, ghost settled: bool, ghost x: Slot)
      requires Agrees(ip, x)
      modifies this
      ensures bound == old(bound) && pending == old(pending) - {ip} && recleanup == old(recleanup)
      ensures Agrees(ip, UnbindProceeding(x, settled, Disowned, 0).0)
    {
      pending := pending - {ip};
    }

    method ForgetRecleanup(ip: Ip, settled: bool, ghost x: Slot)
      requires Agrees(ip, x)
      modifies this
      ensures bound == old(bound) && pending == old(pending)
      ensures recleanup == if settled then old(recleanup) - {ip} else old(recleanup)
      ensures Agrees(ip, UnbindProceeding(x, settled, Forgotten, 0).0)
    {
      if settled {
        recleanup := recleanup - {ip};
      }
    }
  }

  // ---- The whole process ----

  predicate Enabled(s: State, e: Event) {
    && |s.jobs| == |s.ledger.runs|
    && match e
       case Act(c) => c < |s.jobs| && Alive(s, c) && !s.jobs[c].acted
       case Reap(c, _) => c < |s.jobs| && s.ledger.runs[c].phase == C.Abandoned
       case BeginBind(ip) => !s.stopped && SlotOf(s, ip).pc.Idle? && !SlotOf(s, ip).worker.cleanupNeeded
       case BeginUnbind(ip) => SlotOf(s, ip).pc.Idle?
       case Proceed(ip) => !SlotOf(s, ip).pc.Idle? && Current(SlotOf(s, ip).pc).None?
       case CommandEnds(ip, exit) =>
         var current := Current(SlotOf(s, ip).pc);
         && current.Some?
         && CanEnd(s, current.value)
         && (exit.Success? ==> s.jobs[current.value].acted)
         && (exit.Failure? || exit.Unverified? ==> !s.jobs[current.value].acted)
       case CannotRun(ip) => Runnable(SlotOf(s, ip))
       case GiveUp(ip, _) =>
         var pc := SlotOf(s, ip).pc;
         pc.Bind? && (pc.bind.Prepared? || pc.bind.Marked? || pc.bind.Added? || pc.bind.Confirmed?)
       case Cancel(ip, _) =>
         var pc := SlotOf(s, ip).pc;
         !pc.Idle? && (Current(pc).Some? ==> CanEnd(s, Current(pc).value))
       case Withdraw(ip) => SlotOf(s, ip).pc.Idle?
       case Stop => true
  }

  function Put(s: State, ip: Ip, x: Slot): State {
    s.(slots := s.slots[ip := x])
  }

  function Do(s: State, e: Event): State
    requires Enabled(s, e)
  {
    match e
    case Act(c) =>
      var job := s.jobs[c];
      Put(s, job.ip, Changed(SlotOf(s, job.ip), job.kind)).(jobs := s.jobs[c := job.(acted := true)])
    case Reap(c, reaped) => s.(ledger := C.Step(s.ledger, C.Ended(c, reaped)))
    case BeginBind(ip) => Put(s, ip, BindBegun(SlotOf(s, ip)))
    case BeginUnbind(ip) => Put(s, ip, UnbindBegun(SlotOf(s, ip), Settled(s)))
    case Proceed(ip) =>
      var (x, command) := Proceeding(SlotOf(s, ip), |s.jobs|);
      var t := Put(s, ip, x);
      if command.None? then t
      else t.(ledger := C.Step(s.ledger, C.Spawn), jobs := s.jobs + [Job(command.value, ip, false)])
    case CommandEnds(ip, exit) =>
      var x := SlotOf(s, ip);
      Put(s, ip, Ending(x, exit)).(ledger := C.Step(s.ledger, C.Ended(Current(x.pc).value, exit != TimedOut(false))))
    case CannotRun(ip) => Put(s, ip, Unstarted(SlotOf(s, ip)))
    case GiveUp(ip, keep) => Put(s, ip, Interrupted(SlotOf(s, ip), keep))
    case Cancel(ip, keep) =>
      var x := SlotOf(s, ip);
      var t := Put(s, ip, Interrupted(x, keep));
      if Current(x.pc).None? then t else t.(ledger := C.Step(s.ledger, C.Dropped(Current(x.pc).value)))
    case Withdraw(ip) => Put(s, ip, SlotOf(s, ip).(worker := SlotOf(s, ip).worker.(cleanupNeeded := true)))
    case Stop => s.(stopped := true)
  }

  /** The event on which an unbind of `ip` reports success. */
  predicate Unbinds(s: State, e: Event, ip: Ip) {
    && e == Proceed(ip)
    && SlotOf(s, ip).pc.Unbind?
    && (SlotOf(s, ip).pc.unbind.Forgotten? || (SlotOf(s, ip).pc.unbind.Started? && !Tracked(SlotOf(s, ip))))
  }

  /** Any interleaving: an event that cannot happen where it is listed is skipped. */
  function After(s: State, events: seq<Event>): State
    decreases |events|
  {
    if events == [] then s
    else if Enabled(s, events[0]) then After(Do(s, events[0]), events[1..])
    else After(s, events[1..])
  }

  /** Some unbind of `ip` in the run reports success. */
  predicate Reports(s: State, events: seq<Event>, ip: Ip)
    decreases |events|
  {
    events != [] &&
    if Enabled(s, events[0])
    then Unbinds(s, events[0], ip) || Reports(Do(s, events[0]), events[1..], ip)
    else Reports(s, events[1..], ip)
  }
}
