/**
 Release safety: what this process may have placed stays tracked, and an acknowledged release means
 the address is gone and nothing can bring it back.
 */
module Release {
  import opened Prelude
  import opened LocalVip
  import C = Children

  /** Child `c` may still add the address or the marker of `ip`. */
  predicate MayAdd(s: State, c: nat, ip: Ip) {
    && c < |s.jobs| == |s.ledger.runs|
    && s.jobs[c].ip == ip
    && (s.jobs[c].kind == AddMarker || s.jobs[c].kind == AddAddress)
    && !s.jobs[c].acted
    && Alive(s, c)
  }

  ghost predicate QuietBut(s: State, ip: Ip, own: Option<nat>) {
    forall c :: 0 <= c < |s.jobs| && Some(c) != own ==> !MayAdd(s, c, ip)
  }

  ghost predicate Quiet(s: State, ip: Ip) {
    forall c :: 0 <= c < |s.jobs| ==> !MayAdd(s, c, ip)
  }

  /** The address or its marker is there, or a writer may still put it there. */
  ghost predicate Exposed(s: State, ip: Ip) {
    SlotOf(s, ip).address || SlotOf(s, ip).marker || !Quiet(s, ip)
  }

  /** A child with a caller belongs to the operation in progress. */
  ghost predicate OneCaller(s: State, ip: Ip) {
    forall c :: 0 <= c < |s.jobs| == |s.ledger.runs| && s.jobs[c].ip == ip && s.ledger.runs[c].phase == C.WaitedFor ==>
                  Current(SlotOf(s, ip).pc) == Some(c)
  }

  predicate WaitsFor(s: State, ip: Ip, c: nat) {
    c < |s.jobs| == |s.ledger.runs| && s.jobs[c].ip == ip && s.ledger.runs[c].phase == C.WaitedFor
  }

  /**
   What matters for one address: its slot, whether no child may add to it (`alone`: none but the one
   waited for), the command waited for and its effect, and that no other child has a caller.
   */
  datatype Scene = Scene(slot: Slot, quiet: bool, alone: bool, command: Option<Kind>, acted: bool, oneCaller: bool)

  ghost function SceneOf(s: State, ip: Ip): Scene {
    var current := Current(SlotOf(s, ip).pc);
    var waits := current.Some? && WaitsFor(s, ip, current.value);
    Scene(SlotOf(s, ip), Quiet(s, ip), QuietBut(s, ip, current),
          if waits then Some(s.jobs[current.value].kind) else None,
          waits && s.jobs[current.value].acted, OneCaller(s, ip))
  }

  predicate Clear(v: Scene) {
    v.quiet && !v.slot.address && !v.slot.marker
  }

  /** What a bind relies on: a first one started from nothing. */
  predicate BindOk(v: Scene, first: bool, at: BindPoint) {
    var x := v.slot;
    match at
    case Owned(_) => x.bound && (first ==> Clear(v))
    case Prepared(_) => x.bound && (first ==> Clear(v))
    case Marking(_, _) =>
      x.bound && v.command == Some(AddMarker) && (first ==> !x.address && v.alone && (x.marker ==> v.acted))
    case Marked => x.bound && (first ==> v.quiet)
    case Adding(_) => x.bound && v.command == Some(AddAddress) && (first ==> v.alone)
    case Added => x.bound
    case Confirmed => x.bound && !x.pending
    case Probing => first && x.bound && v.quiet
    case Unmarking(_) =>
      first && x.bound && v.command == Some(DeleteMarker) && v.quiet && !x.address && (v.acted ==> !x.marker)
    case Forgetting => first && !x.bound && Clear(v)
  }

  /** What an unbind relies on: one that began settled ends with nothing left and nobody to add it. */
  predicate UnbindOk(v: Scene, settled: bool, at: UnbindPoint) {
    var x := v.slot;
    match at
    case Started => settled ==> v.quiet
    case Deleting(_) =>
      Tracked(x) && v.command == Some(DeleteAddress) && (settled ==> v.quiet && (v.acted ==> !x.address))
    case Deleted => Tracked(x) && (settled ==> v.quiet && !x.address)
    case Clearing(_) =>
      && Tracked(x) && v.command == Some(DeleteMarker)
      && (settled ==> v.quiet && !x.address && (v.acted ==> !x.marker))
    case Cleared => Tracked(x) && (settled ==> Clear(v))
    case Noted => if settled then Clear(v) else x.recleanup
    case Disowned => !x.bound && if settled then Clear(v) else x.recleanup
    case Forgotten => !x.bound && !x.pending && if settled then Clear(v) else x.recleanup
  }

  predicate PcOk(v: Scene) {
    match v.slot.pc
    case Idle => true
    case Bind(first, at) => BindOk(v, first, at)
    case Unbind(settled, at) => UnbindOk(v, settled, at)
  }

  /** What the worker's knowledge is worth: only a reassertion has a completed binding. */
  predicate WorkerOk(x: Slot) {
    && (x.worker.completed ==> x.bound && !x.pending)
    && match x.pc
       case Idle => x.worker == Worker(false, false) ==> !Tracked(x)
       case Bind(first, _) => first <==> !x.worker.completed
       case Unbind(_, _) => !x.worker.completed
  }

  predicate Good(v: Scene) {
    && (!Clear(v) ==> Tracked(v.slot))
    && WorkerOk(v.slot)
    && v.oneCaller
    && (v.quiet ==> v.alone)
    && PcOk(v)
  }

  /** Everything holds unless a killed child could not be reaped. */
  ghost predicate Inv(s: State) {
    && |s.jobs| == |s.ledger.runs|
    && C.Conserved(s.ledger)
    && (!s.ledger.tracker.lost ==> forall ip :: Good(SceneOf(s, ip)))
  }

  // ---- Events on other addresses ----

  ghost predicate SameFor(s: State, t: State, ip: Ip) {
    && |t.jobs| == |t.ledger.runs| >= |s.jobs| == |s.ledger.runs|
    && SlotOf(t, ip) == SlotOf(s, ip)
    && (forall c :: 0 <= c < |s.jobs| && s.jobs[c].ip == ip ==>
          t.jobs[c] == s.jobs[c] && t.ledger.runs[c] == s.ledger.runs[c])
    && (forall c :: 0 <= c < |t.jobs| && t.jobs[c].ip == ip ==> c < |s.jobs| && s.jobs[c].ip == ip)
  }

  lemma SceneFrames(s: State, t: State, ip: Ip)
    requires SameFor(s, t, ip)
    ensures SceneOf(t, ip) == SceneOf(s, ip)
  {
    assert forall c :: 0 <= c < |s.jobs| ==> (MayAdd(t, c, ip) <==> MayAdd(s, c, ip));
    var current := Current(SlotOf(s, ip).pc);
    assert current.Some? ==> (WaitsFor(t, ip, current.value) <==> WaitsFor(s, ip, current.value));
  }

  /** The address an event works on. */
  function Subject(s: State, e: Event): Option<Ip> {
    match e
    case Act(c) => if c < |s.jobs| then Some(s.jobs[c].ip) else None
    case Reap(c, _) => if c < |s.jobs| then Some(s.jobs[c].ip) else None
    case Stop => None
    case _ => Some(e.ip)
  }

  /** An operation waits for children of its own address only. */
  predicate OwnChild(s: State, ip: Ip) {
    var current := Current(SlotOf(s, ip).pc);
    current.Some? ==> current.value < |s.jobs| && s.jobs[current.value].ip == ip
  }

  lemma OthersSame(s: State, e: Event, ip: Ip)
    requires Enabled(s, e) && Subject(s, e) != Some(ip)
    requires Subject(s, e).Some? ==> OwnChild(s, Subject(s, e).value)
    ensures SameFor(s, Do(s, e), ip)
  {
    hide Proceeding, Ending, Changed, BindBegun, Unstarted;
  }

  // ---- How an event changes the scene of its own address ----

  predicate Adds(kind: Kind) {
    kind == AddMarker || kind == AddAddress
  }

  lemma ActScene(s: State, c: nat, ip: Ip)
    requires Enabled(s, Act(c)) && s.jobs[c].ip == ip
    ensures var v, w := SceneOf(s, ip), SceneOf(Do(s, Act(c)), ip);
            var own := Current(v.slot.pc) == Some(c);
            && w == v.(slot := Changed(v.slot, s.jobs[c].kind), quiet := w.quiet, alone := w.alone, acted := w.acted)
            && (v.quiet ==> w.quiet) && (v.alone ==> w.alone)
            && (own && v.command.Some? ==> v.command == Some(s.jobs[c].kind) && w.acted)
            && (!own ==> w.acted == v.acted)
            && (Adds(s.jobs[c].kind) ==> !v.quiet && (!own ==> !v.alone))
  {
    var t := Do(s, Act(c));
    assert forall d :: 0 <= d < |s.jobs| ==> (MayAdd(t, d, ip) ==> MayAdd(s, d, ip));
    assert Adds(s.jobs[c].kind) ==> MayAdd(s, c, ip);
    var current := Current(SlotOf(s, ip).pc);
    assert current.Some? ==> (WaitsFor(t, ip, current.value) <==> WaitsFor(s, ip, current.value));
    assert OneCaller(t, ip) <==> OneCaller(s, ip);
  }

  lemma ReapScene(s: State, c: nat, ip: Ip)
    requires Enabled(s, Reap(c, true)) && s.jobs[c].ip == ip
    ensures var v, w := SceneOf(s, ip), SceneOf(Do(s, Reap(c, true)), ip);
            w == v.(quiet := w.quiet, alone := w.alone) && (v.quiet ==> w.quiet) && (v.alone ==> w.alone)
  {
    var t := Do(s, Reap(c, true));
    assert forall d :: 0 <= d < |s.jobs| ==> (MayAdd(t, d, ip) ==> MayAdd(s, d, ip));
    var current := Current(SlotOf(s, ip).pc);
    assert current.Some? ==> (WaitsFor(t, ip, current.value) <==> WaitsFor(s, ip, current.value));
    assert OneCaller(t, ip) <==> OneCaller(s, ip);
  }

  lemma PutScene(s: State, ip: Ip, x: Slot)
    requires Current(SlotOf(s, ip).pc).None? && Current(x.pc).None?
    ensures SceneOf(Put(s, ip, x), ip) == SceneOf(s, ip).(slot := x)
  {
    var t := Put(s, ip, x);
    assert forall d :: 0 <= d < |s.jobs| ==> (MayAdd(t, d, ip) <==> MayAdd(s, d, ip));
  }

  /** A command starts: its child waits to act and has this caller. */
  lemma SpawnScene(s: State, ip: Ip, x: Slot, kind: Kind)
    requires |s.jobs| == |s.ledger.runs|
    requires Current(SlotOf(s, ip).pc).None? && Current(x.pc) == Some(|s.jobs|)
    ensures var t := Put(s, ip, x).(ledger := C.Step(s.ledger, C.Spawn), jobs := s.jobs + [Job(kind, ip, false)]);
            var v, w := SceneOf(s, ip), SceneOf(t, ip);
            && w == Scene(x, w.quiet, v.quiet, Some(kind), false, w.oneCaller)
            && (v.quiet && !Adds(kind) ==> w.quiet) && (w.quiet ==> v.quiet)
            && (v.oneCaller ==> w.oneCaller)
  {
    var t := Put(s, ip, x).(ledger := C.Step(s.ledger, C.Spawn), jobs := s.jobs + [Job(kind, ip, false)]);
    assert forall d :: 0 <= d < |s.jobs| ==> (MayAdd(t, d, ip) <==> MayAdd(s, d, ip));
    assert MayAdd(t, |s.jobs|, ip) <==> Adds(kind);
    assert WaitsFor(t, ip, |s.jobs|);
    assert Quiet(s, ip) <==> QuietBut(t, ip, Some(|s.jobs|));
  }

  /** The command ends and its child is reaped: only the others may still add. */
  lemma EndScene(s: State, ip: Ip, x: Slot, c: nat)
    requires c < |s.jobs| == |s.ledger.runs| && s.jobs[c].ip == ip && s.ledger.runs[c].phase != C.Finished
    requires Current(SlotOf(s, ip).pc) == Some(c) && Current(x.pc).None?
    ensures var t := Put(s, ip, x).(ledger := C.Step(s.ledger, C.Ended(c, true)));
            var v, w := SceneOf(s, ip), SceneOf(t, ip);
            && w == Scene(x, v.alone, v.alone, None, false, w.oneCaller)
            && (v.oneCaller ==> w.oneCaller)
  {
    var t := Put(s, ip, x).(ledger := C.Step(s.ledger, C.Ended(c, true)));
    assert forall d :: 0 <= d < |s.jobs| && d != c ==> (MayAdd(t, d, ip) <==> MayAdd(s, d, ip));
    assert !MayAdd(t, c, ip);
    assert Quiet(t, ip) <==> QuietBut(s, ip, Some(c));
  }

  /** The caller is gone; the child goes on without it. */
  lemma DropScene(s: State, ip: Ip, x: Slot, c: nat)
    requires c < |s.jobs| == |s.ledger.runs| && s.jobs[c].ip == ip && s.ledger.runs[c].phase != C.Finished
    requires Current(SlotOf(s, ip).pc) == Some(c) && Current(x.pc).None?
    ensures var t := Put(s, ip, x).(ledger := C.Step(s.ledger, C.Dropped(c)));
            var v, w := SceneOf(s, ip), SceneOf(t, ip);
            && w == Scene(x, v.quiet, v.quiet, None, false, w.oneCaller)
            && (v.oneCaller ==> w.oneCaller)
  {
    var t := Put(s, ip, x).(ledger := C.Step(s.ledger, C.Dropped(c)));
    assert forall d :: 0 <= d < |s.jobs| ==> (MayAdd(t, d, ip) <==> MayAdd(s, d, ip));
  }

  /** Without an unreaped child lacking a caller, and without a caller, nobody can add. */
  lemma SettledIsQuiet(s: State, ip: Ip)
    requires |s.jobs| == |s.ledger.runs| && C.Conserved(s.ledger) && Settled(s)
    requires OneCaller(s, ip) && Current(SlotOf(s, ip).pc).None?
    ensures Quiet(s, ip)
  {
    C.NoOrphans(s.ledger.runs);
    forall c | 0 <= c < |s.jobs| ensures !MayAdd(s, c, ip) {
      assert !C.IsOrphan(s.ledger.runs[c]);
    }
  }

  // ---- What each event does to a good scene ----

  lemma BindBegins(v: Scene)
    requires Good(v) && v.slot.pc.Idle? && !v.slot.worker.cleanupNeeded
    ensures Good(v.(slot := BindBegun(v.slot)))
  {}

  lemma UnbindBegins(v: Scene, settled: bool)
    requires Good(v) && v.slot.pc.Idle? && (settled ==> v.quiet)
    ensures Good(v.(slot := UnbindBegun(v.slot, settled)))
  {}

  /** `w` follows `v` after the operation took the step to `x` and started `command`, if any. */
  predicate Proceeded(v: Scene, w: Scene, step: (Slot, Option<Kind>)) {
    match step.1
    case None => w == v.(slot := step.0)
    case Some(kind) =>
      && w == Scene(step.0, w.quiet, v.quiet, Some(kind), false, v.oneCaller)
      && (v.quiet && !Adds(kind) ==> w.quiet) && (w.quiet ==> v.quiet)
  }

  lemma BindPrepares(v: Scene, first: bool, at: BindPoint, next: nat, w: Scene)
    requires Good(v) && v.slot.pc == Bind(first, at) && (at.Owned? || at.Prepared?)
    requires Proceeded(v, w, BindProceeding(v.slot, first, at, next))
    ensures Good(w)
  {}

  lemma BindPlaces(v: Scene, first: bool, at: BindPoint, next: nat, w: Scene)
    requires Good(v) && v.slot.pc == Bind(first, at) && (at.Marked? || at.Added? || at.Confirmed?)
    requires Proceeded(v, w, BindProceeding(v.slot, first, at, next))
    ensures Good(w)
  {}

  lemma BindCleansUp(v: Scene, first: bool, at: BindPoint, next: nat, w: Scene)
    requires Good(v) && v.slot.pc == Bind(first, at) && (at.Probing? || at.Forgetting?)
    requires Proceeded(v, w, BindProceeding(v.slot, first, at, next))
    ensures Good(w)
  {}

  lemma UnbindDeletes(v: Scene, settled: bool, at: UnbindPoint, next: nat, w: Scene)
    requires Good(v) && v.slot.pc == Unbind(settled, at) && (at.Started? || at.Deleted?)
    requires Proceeded(v, w, UnbindProceeding(v.slot, settled, at, next))
    ensures Good(w)
  {}

  lemma UnbindForgets(v: Scene, settled: bool, at: UnbindPoint, next: nat, w: Scene)
    requires Good(v) && v.slot.pc == Unbind(settled, at) && (at.Cleared? || at.Noted? || at.Disowned? || at.Forgotten?)
    requires Proceeded(v, w, UnbindProceeding(v.slot, settled, at, next))
    ensures Good(w)
  {}

  lemma Proceeds(v: Scene, next: nat, w: Scene)
    requires Good(v) && !v.slot.pc.Idle? && Current(v.slot.pc).None?
    requires Proceeded(v, w, Proceeding(v.slot, next))
    ensures Good(w)
  {
    hide Good, Proceeded, BindProceeding, UnbindProceeding;
    match v.slot.pc {
      case Bind(first, at) =>
        if at.Owned? || at.Prepared? {
          BindPrepares(v, first, at, next, w);
        } else if at.Marked? || at.Added? || at.Confirmed? {
          BindPlaces(v, first, at, next, w);
        } else {
          BindCleansUp(v, first, at, next, w);
        }
      case Unbind(settled, at) =>
        if at.Started? || at.Deleted? {
          UnbindDeletes(v, settled, at, next, w);
        } else {
          UnbindForgets(v, settled, at, next, w);
        }
    }
  }

  /** The command ended, its child reaped. */
  predicate Ended(v: Scene, exit: Exit) {
    && v.command.Some? && exit != TimedOut(false)
    && (exit.Success? ==> v.acted)
    && (exit.Failure? || exit.Unverified? ==> !v.acted)
  }

  function AfterEnd(v: Scene, x: Slot): Scene {
    Scene(x, v.alone, v.alone, None, false, true)
  }

  lemma MarkingEnds(v: Scene, exit: Exit, first: bool, at: BindPoint)
    requires Good(v) && v.slot.pc == Bind(first, at) && at.Marking? && Ended(v, exit)
    ensures var x := BindEnding(v.slot, first, at, exit); Good(AfterEnd(v, x)) && Current(x.pc).None?
  {}

  lemma AddingEnds(v: Scene, exit: Exit, first: bool, at: BindPoint)
    requires Good(v) && v.slot.pc == Bind(first, at) && at.Adding? && Ended(v, exit)
    ensures var x := BindEnding(v.slot, first, at, exit); Good(AfterEnd(v, x)) && Current(x.pc).None?
  {}

  lemma UnmarkingEnds(v: Scene, exit: Exit, first: bool, at: BindPoint)
    requires Good(v) && v.slot.pc == Bind(first, at) && at.Unmarking? && Ended(v, exit)
    ensures var x := BindEnding(v.slot, first, at, exit); Good(AfterEnd(v, x)) && Current(x.pc).None?
  {}

  lemma DeletingEnds(v: Scene, exit: Exit, settled: bool, at: UnbindPoint)
    requires Good(v) && v.slot.pc == Unbind(settled, at) && at.Deleting? && Ended(v, exit)
    ensures var x := UnbindEnding(v.slot, settled, at, exit); Good(AfterEnd(v, x)) && Current(x.pc).None?
  {}

  lemma ClearingEnds(v: Scene, exit: Exit, settled: bool, at: UnbindPoint)
    requires Good(v) && v.slot.pc == Unbind(settled, at) && at.Clearing? && Ended(v, exit)
    ensures var x := UnbindEnding(v.slot, settled, at, exit); Good(AfterEnd(v, x)) && Current(x.pc).None?
  {}

  lemma Ends(v: Scene, exit: Exit)
    requires Good(v) && Current(v.slot.pc).Some? && Ended(v, exit)
    ensures var x := Ending(v.slot, exit); Good(AfterEnd(v, x)) && Current(x.pc).None?
  {
    hide Good, Ended, AfterEnd, BindEnding, UnbindEnding;
    match v.slot.pc {
      case Bind(first, at) =>
        match at {
          case Marking(_, _) => MarkingEnds(v, exit, first, at);
          case Adding(_) => AddingEnds(v, exit, first, at);
          case Unmarking(_) => UnmarkingEnds(v, exit, first, at);
        }
      case Unbind(settled, at) =>
        if at.Deleting? { DeletingEnds(v, exit, settled, at); } else { ClearingEnds(v, exit, settled, at); }
    }
  }

  /** Giving up, cancelling and a command that cannot start leave cleanup to the worker. */
  lemma Fails(v: Scene)
    requires Good(v) && Runnable(v.slot)
    ensures Good(v.(slot := Unstarted(v.slot))) && Current(Unstarted(v.slot).pc).None?
  {}

  lemma IsInterrupted(v: Scene, keep: bool, w: Scene)
    requires Good(v) && !v.slot.pc.Idle?
    requires w == Scene(Interrupted(v.slot, keep), v.quiet, v.quiet, None, false, true)
    ensures Good(w)
  {}

  lemma Withdraws(v: Scene, x: Slot)
    requires Good(v) && v.slot.pc.Idle? && x == v.slot.(worker := v.slot.worker.(cleanupNeeded := true))
    ensures Good(v.(slot := x))
  {}

  lemma Acts(v: Scene, kind: Kind, own: bool, w: Scene)
    requires Good(v)
    requires w == v.(slot := Changed(v.slot, kind), quiet := w.quiet, alone := w.alone, acted := w.acted)
    requires (v.quiet ==> w.quiet) && (v.alone ==> w.alone) && (w.quiet ==> w.alone)
    requires own && v.command.Some? ==> v.command == Some(kind) && w.acted
    requires !own ==> w.acted == v.acted
    requires Adds(kind) ==> !v.quiet && (!own ==> !v.alone)
    ensures Good(w)
  {
  }

  // ---- Every run ----

  /** A good scene with a child to wait for has that child as its command. */
  lemma WaitedChild(s: State, ip: Ip)
    requires Good(SceneOf(s, ip)) && Current(SlotOf(s, ip).pc).Some?
    ensures SceneOf(s, ip).command.Some? && WaitsFor(s, ip, Current(SlotOf(s, ip).pc).value)
  {}

  /** What the slot waits for after a step: the child just started, if any. */
  predicate WaitsNext(step: (Slot, Option<Kind>), next: nat) {
    Current(step.0.pc) == if step.1.None? then None else Some(next)
  }

  lemma BindWaits(x: Slot, first: bool, at: BindPoint, next: nat)
    requires BindChild(at).None? && x.pc == Bind(first, at)
    ensures WaitsNext(BindProceeding(x, first, at, next), next)
  {
    match at case Owned(_) => case Prepared(_) => case Marked => case Added => case Confirmed => case Probing =>
    case Forgetting =>
  }

  lemma UnbindWaits(x: Slot, settled: bool, at: UnbindPoint, next: nat)
    requires UnbindChild(at).None? && x.pc == Unbind(settled, at)
    ensures WaitsNext(UnbindProceeding(x, settled, at, next), next)
  {
    match at case Started => case Deleted => case Cleared => case Noted => case Disowned => case Forgotten =>
  }

  lemma ProceedingWaits(x: Slot, next: nat)
    requires !x.pc.Idle? && Current(x.pc).None?
    ensures WaitsNext(Proceeding(x, next), next)
  {
    hide BindProceeding, UnbindProceeding, WaitsNext;
    match x.pc {
      case Bind(first, at) => BindWaits(x, first, at, next);
      case Unbind(settled, at) => UnbindWaits(x, settled, at, next);
    }
  }

  lemma ProceedScene(s: State, ip: Ip)
    requires Enabled(s, Proceed(ip)) && SceneOf(s, ip).oneCaller
    ensures Proceeded(SceneOf(s, ip), SceneOf(Do(s, Proceed(ip)), ip), Proceeding(SlotOf(s, ip), |s.jobs|))
  {
    hide Proceeding;
    var (x, command) := Proceeding(SlotOf(s, ip), |s.jobs|);
    ProceedingWaits(SlotOf(s, ip), |s.jobs|);
    if command.None? {
      PutScene(s, ip, x);
    } else {
      SpawnScene(s, ip, x, command.value);
    }
  }

  lemma OwnProceeds(s: State, ip: Ip)
    requires Enabled(s, Proceed(ip)) && Good(SceneOf(s, ip))
    ensures Good(SceneOf(Do(s, Proceed(ip)), ip))
  {
    var v := SceneOf(s, ip);
    assert v.slot == SlotOf(s, ip) && v.oneCaller;
    hide Good, SceneOf, Proceeded, Proceeding;
    ProceedScene(s, ip);
    Proceeds(v, |s.jobs|, SceneOf(Do(s, Proceed(ip)), ip));
  }

  lemma CommandScene(s: State, ip: Ip, exit: Exit)
    requires Enabled(s, CommandEnds(ip, exit)) && exit != TimedOut(false) && Good(SceneOf(s, ip))
    ensures var v := SceneOf(s, ip);
            && Ended(v, exit) && Good(AfterEnd(v, Ending(v.slot, exit)))
            && SceneOf(Do(s, CommandEnds(ip, exit)), ip) == AfterEnd(v, Ending(v.slot, exit))
  {
    WaitedChild(s, ip);
    var v := SceneOf(s, ip);
    assert v.oneCaller && Ended(v, exit);
    hide Good, Ended;
    Ends(v, exit);
    hide Ending;
    EndScene(s, ip, Ending(v.slot, exit), Current(v.slot.pc).value);
  }

  lemma OwnCancels(s: State, ip: Ip, keep: bool)
    requires Enabled(s, Cancel(ip, keep)) && Good(SceneOf(s, ip))
    ensures Good(SceneOf(Do(s, Cancel(ip, keep)), ip))
  {
    var v, w := SceneOf(s, ip), SceneOf(Do(s, Cancel(ip, keep)), ip);
    var x := Interrupted(v.slot, keep);
    if Current(v.slot.pc).None? {
      PutScene(s, ip, x);
    } else {
      WaitedChild(s, ip);
      DropScene(s, ip, x, Current(v.slot.pc).value);
    }
    assert v.oneCaller;
    hide Good;
    IsInterrupted(v, keep, w);
  }

  lemma OwnActs(s: State, c: nat, ip: Ip)
    requires Enabled(s, Act(c)) && s.jobs[c].ip == ip && Good(SceneOf(s, ip))
    ensures Good(SceneOf(Do(s, Act(c)), ip))
  {
    var v, w := SceneOf(s, ip), SceneOf(Do(s, Act(c)), ip);
    ActScene(s, c, ip);
    assert w.quiet ==> w.alone;
    hide Good;
    Acts(v, s.jobs[c].kind, Current(v.slot.pc) == Some(c), w);
  }

  lemma OwnReaps(s: State, c: nat, ip: Ip)
    requires Enabled(s, Reap(c, true)) && s.jobs[c].ip == ip && Good(SceneOf(s, ip))
    ensures Good(SceneOf(Do(s, Reap(c, true)), ip))
  {
    var v, w := SceneOf(s, ip), SceneOf(Do(s, Reap(c, true)), ip);
    ReapScene(s, c, ip);
    assert w.quiet ==> w.alone;
    IsReaped(v, w);
  }

  lemma IsReaped(v: Scene, w: Scene)
    requires Good(v) && w == v.(quiet := w.quiet, alone := w.alone)
    requires (v.quiet ==> w.quiet) && (v.alone ==> w.alone) && (w.quiet ==> w.alone)
    ensures Good(w)
  {}

  lemma OwnBegins(s: State, ip: Ip)
    requires |s.jobs| == |s.ledger.runs| && C.Conserved(s.ledger)
    requires Enabled(s, BeginUnbind(ip)) && Good(SceneOf(s, ip))
    ensures Good(SceneOf(Do(s, BeginUnbind(ip)), ip))
  {
    var v := SceneOf(s, ip);
    if Settled(s) { SettledIsQuiet(s, ip); }
    hide Good;
    PutScene(s, ip, UnbindBegun(v.slot, Settled(s)));
    UnbindBegins(v, Settled(s));
  }

  /** Events that only change the slot. */
  lemma OwnChanges(s: State, e: Event, ip: Ip)
    requires Enabled(s, e) && Subject(s, e) == Some(ip) && (e.BeginBind? || e.CannotRun? || e.GiveUp? || e.Withdraw?)
    requires Good(SceneOf(s, ip))
    ensures Good(SceneOf(Do(s, e), ip))
  {
    var v := SceneOf(s, ip);
    assert v.slot == SlotOf(s, ip) && v.oneCaller;
    hide Good;
    match e {
      case BeginBind(_) =>
        PutScene(s, ip, BindBegun(v.slot));
        BindBegins(v);
      case CannotRun(_) =>
        Fails(v);
        PutScene(s, ip, Unstarted(v.slot));
      case GiveUp(_, keep) =>
        PutScene(s, ip, Interrupted(v.slot, keep));
        IsInterrupted(v, keep, SceneOf(Do(s, e), ip));
      case Withdraw(_) =>
        var x := v.slot.(worker := v.slot.worker.(cleanupNeeded := true));
        PutScene(s, ip, x);
        Withdraws(v, x);
    }
  }

  lemma OwnKeeps(s: State, e: Event, ip: Ip)
    requires Enabled(s, e) && Subject(s, e) == Some(ip) && !Do(s, e).ledger.tracker.lost
    requires C.Conserved(s.ledger) && Good(SceneOf(s, ip))
    ensures Good(SceneOf(Do(s, e), ip))
  {
    hide Good, C.Conserved, SceneOf;
    match e {
      case Act(c) => OwnActs(s, c, ip);
      case Reap(c, _) => OwnReaps(s, c, ip);
      case BeginUnbind(_) => OwnBegins(s, ip);
      case Proceed(_) => OwnProceeds(s, ip);
      case CommandEnds(_, exit) => CommandScene(s, ip, exit);
      case Cancel(_, keep) => OwnCancels(s, ip, keep);
      case _ => OwnChanges(s, e, ip);
    }
  }

  lemma OthersKeep(s: State, e: Event, ip: Ip)
    requires Enabled(s, e) && Subject(s, e) != Some(ip)
    requires Subject(s, e).Some? ==> Good(SceneOf(s, Subject(s, e).value))
    ensures SceneOf(Do(s, e), ip) == SceneOf(s, ip)
  {
    if Subject(s, e).Some? && Current(SlotOf(s, Subject(s, e).value).pc).Some? {
      WaitedChild(s, Subject(s, e).value);
    }
    OthersSame(s, e, ip);
    SceneFrames(s, Do(s, e), ip);
  }

  /** The event the child ledger sees. */
  lemma LedgerStep(s: State, e: Event)
    requires Enabled(s, e) && |s.jobs| == |s.ledger.runs| && C.Conserved(s.ledger)
    ensures C.Conserved(Do(s, e).ledger) && (s.ledger.tracker.lost ==> Do(s, e).ledger.tracker.lost)
    ensures |Do(s, e).jobs| == |Do(s, e).ledger.runs|
  {
    match e {
      case Reap(c, reaped) => C.StepConserves(s.ledger, C.Ended(c, reaped));
      case Proceed(_) => C.StepConserves(s.ledger, C.Spawn);
      case CommandEnds(ip, exit) =>
        C.StepConserves(s.ledger, C.Ended(Current(SlotOf(s, ip).pc).value, exit != TimedOut(false)));
      case Cancel(ip, _) =>
        if Current(SlotOf(s, ip).pc).Some? {
          C.StepConserves(s.ledger, C.Dropped(Current(SlotOf(s, ip).pc).value));
        }
      case _ =>
    }
  }

  lemma StepKeeps(s: State, e: Event)
    requires Inv(s) && Enabled(s, e)
    ensures Inv(Do(s, e))
  {
    LedgerStep(s, e);
    var t := Do(s, e);
    if !t.ledger.tracker.lost {
      forall ip: Ip ensures Good(SceneOf(t, ip)) {
        assert Good(SceneOf(s, ip));
        if Subject(s, e) == Some(ip) { OwnKeeps(s, e, ip); } else { OthersKeep(s, e, ip); }
      }
    }
  }

  lemma {:induction false} RunKeeps(s: State, events: seq<Event>)
    requires Inv(s)
    ensures Inv(After(s, events))
    decreases |events|
  {
    if events == [] {
    } else if Enabled(s, events[0]) {
      StepKeeps(s, events[0]);
      RunKeeps(Do(s, events[0]), events[1..]);
    } else {
      RunKeeps(s, events[1..]);
    }
  }

  /** Some run of a fresh process ends in `s`. */
  ghost predicate Reachable(s: State) {
    exists past :: After(INITIAL, past) == s
  }

  lemma ReachableInv(s: State)
    requires Reachable(s)
    ensures Inv(s)
  {
    var past :| After(INITIAL, past) == s;
    RunKeeps(INITIAL, past);
  }

  /**
   After any run of operations, cancellations, kernel effects and reaps: unless a killed child could
   not be reaped, an address that is present, marked, or that a child may still add is tracked, so
   the next cleanup will not skip it.
   */
  lemma TrackingIsComplete(s: State, ip: Ip)
    requires Reachable(s) && !s.ledger.tracker.lost && Exposed(s, ip)
    ensures Tracked(SlotOf(s, ip))
  {
    ReachableInv(s);
    assert Good(SceneOf(s, ip));
  }
}
