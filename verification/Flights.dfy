/** Concurrent provisioning of volume groups on one node: any number of EnsureVolumeGroup
    callers, the singleflight table they share, and the commands of each flight one by one,
    interleaved with volumes coming and going. */
module Flights {
  import opened VolumeIds
  import opened Lvm

  /** Where a flight is: the check for an existing group, the same check inside the stale-node
      cleanup, vgmknodes, listing /dev/<vg>, removing what was listed, the directory, before
      and inside vgcreate, the final look, and the end. */
  datatype Phase =
    | Checking | Guarding | Reconciling | Listing | Removing(entries: set<VolumeId>)
    | Ready | Creating | Fetching | Done(result: Result<Vg>)

  /** `disturbed`: another process made the group while the flight was under way. */
  datatype Flight = Flight(name: string, phase: Phase, disturbed: bool)

  /** A caller of EnsureVolumeGroup, waiting for its flight or back with the answer. */
  datatype Caller = Waiting(name: string, flight: nat) | Returned(name: string, flight: nat, result: Result<Vg>)

  datatype State = State(
    vgs: map<string, Vg>,
    lvs: set<VolumeId>,
    files: set<VolumeId>,            // /dev/<vg>/<lv>
    dirs: set<string>,               // /dev/<vg>
    flights: map<nat, Flight>,
    table: map<string, nat>,         // the singleflight table: the call in flight for a name
    callers: map<nat, Caller>)

  datatype Step =
    | Call(caller: nat, name: string, flight: nat)
    | Look(flight: nat, fault: bool)
    | Guard(flight: nat, fault: bool)
    | Reconcile(flight: nat, fault: bool, files: set<VolumeId>)
    | List(flight: nat, fault: bool)
    | Remove(flight: nat, fault: bool, entry: VolumeId)
    | RemoveDir(flight: nat, removed: bool)
    | Begin(flight: nat)
    | End(flight: nat, fault: bool, vg: Vg)
    | Fetch(flight: nat, fault: bool)
    | Return(caller: nat)
    | CreateLv(id: VolumeId)
    | RemoveLv(id: VolumeId, file: bool)
    | RemoveVg(name: string)
    | CreateElsewhere(name: string, vg: Vg)

  // ---------------------------------------------------------------- steps

  function Move(s: State, f: nat, p: Phase): State
    requires f in s.flights
  {
    s.(flights := s.flights[f := s.flights[f].(phase := p)])
  }

  /** The function returns: the table forgets the call in the same critical section. */
  function Land(s: State, f: nat, r: Result<Vg>): State
    requires f in s.flights
  {
    s.(flights := s.flights[f := s.flights[f].(phase := Done(r))], table := s.table - {s.flights[f].name})
  }

  predicate InPhase(s: State, f: nat, p: Phase) {
    f in s.flights && s.flights[f].phase == p
  }

  /** singleflight.Do: join the call in flight for the name, or start one. */
  ghost predicate DoCall(s: State, a: Step, s': State)
    requires a.Call?
  {
    && a.caller !in s.callers && a.name != ""
    && (if a.name in s.table then a.flight == s.table[a.name] else a.flight !in s.flights)
    && s' == s.(callers := s.callers[a.caller := Waiting(a.name, a.flight)],
                flights := if a.name in s.table then s.flights
                           else s.flights[a.flight := Flight(a.name, Checking, false)],
                table := s.table[a.name := a.flight])
  }

  /** /dev/<name> would not be a child of /dev. */
  predicate Escapes(name: string) {
    '/' in name || name == "." || name == ".."
  }

  /** provisionVolumeGroup up to the cleanup, and the guard at the cleanup's start. */
  ghost predicate DoCheck(s: State, a: Step, s': State)
    requires a.Look? || a.Guard?
  {
    && InPhase(s, a.flight, if a.Look? then Checking else Guarding)
    && var name := s.flights[a.flight].name;
       s' == if a.fault then Land(s, a.flight, Err(Fault))
             else if a.Look? && name in s.vgs then Land(s, a.flight, Ok(s.vgs[name]))
             else if a.Look? then Move(s, a.flight, Guarding)
             else if Escapes(name) then Land(s, a.flight, Err(InvalidInput))
             else if name in s.vgs then Move(s, a.flight, Ready)
             else Move(s, a.flight, Reconciling)
  }

  /** vgmknodes keeps the files of volumes in metadata. */
  ghost predicate DoReconcile(s: State, a: Step, s': State)
    requires a.Reconcile?
  {
    && InPhase(s, a.flight, Reconciling)
    && (forall id :: id in s.files && id !in a.files ==> id !in s.lvs)
    && (forall id :: id in a.files && id !in s.files ==> id in s.lvs)
    && s' == if a.fault then Land(s, a.flight, Err(Fault)) else Move(s, a.flight, Listing).(files := a.files)
  }

  ghost predicate DoList(s: State, a: Step, s': State)
    requires a.List?
  {
    && InPhase(s, a.flight, Listing)
    && var name := s.flights[a.flight].name;
       s' == if name !in s.dirs then Move(s, a.flight, Ready)
             else if a.fault then Land(s, a.flight, Err(Fault))
             else Move(s, a.flight, Removing(set id | id in s.files && id.vg == name))
  }

  ghost predicate DoRemove(s: State, a: Step, s': State)
    requires a.Remove?
  {
    && a.flight in s.flights && s.flights[a.flight].phase.Removing? && a.entry in s.flights[a.flight].phase.entries
    && s' == if a.fault then Land(s, a.flight, Err(Fault))
             else Move(s, a.flight, Removing(s.flights[a.flight].phase.entries - {a.entry}))
                    .(files := s.files - {a.entry})
  }

  ghost predicate DoRemoveDir(s: State, a: Step, s': State)
    requires a.RemoveDir?
  {
    && InPhase(s, a.flight, Removing({}))
    && s' == Move(s, a.flight, Ready).(dirs := if a.removed then s.dirs - {s.flights[a.flight].name} else s.dirs)
  }

  /** vgcreate, from the moment it starts to the moment it ends. */
  ghost predicate DoCreate(s: State, a: Step, s': State)
    requires a.Begin? || a.End?
  {
    && InPhase(s, a.flight, if a.Begin? then Ready else Creating)
    && var name := s.flights[a.flight].name;
       s' == if a.Begin? then Move(s, a.flight, Creating)
             else if a.fault then Land(s, a.flight, Err(Fault))
             else if name in s.vgs then Move(s, a.flight, Fetching)
             else if name in s.dirs then Land(s, a.flight, Err(StaleDeviceNode))
             else Move(s, a.flight, Fetching).(vgs := s.vgs[name := a.vg])
  }

  ghost predicate DoFetch(s: State, a: Step, s': State)
    requires a.Fetch?
  {
    && InPhase(s, a.flight, Fetching)
    && var name := s.flights[a.flight].name;
       s' == Land(s, a.flight, if a.fault then Err(Fault) else if name in s.vgs then Ok(s.vgs[name]) else Err(NotFound))
  }

  ghost predicate DoReturn(s: State, a: Step, s': State)
    requires a.Return?
  {
    && a.caller in s.callers && s.callers[a.caller].Waiting?
    && var f := s.callers[a.caller].flight;
       && f in s.flights && s.flights[f].phase.Done?
       && s' == s.(callers := s.callers[a.caller := Returned(s.callers[a.caller].name, f, s.flights[f].phase.result)])
  }

  /** Everything else on the node: volumes come and go, empty groups are removed at shutdown,
      and another process may make a group. */
  ghost predicate DoOther(s: State, a: Step, s': State)
    requires a.CreateLv? || a.RemoveLv? || a.RemoveVg? || a.CreateElsewhere?
  {
    match a
    case CreateLv(id) =>
      id.vg in s.vgs && s' == s.(lvs := s.lvs + {id}, files := s.files + {id}, dirs := s.dirs + {id.vg})
    case RemoveLv(id, file) => s' == s.(lvs := s.lvs - {id}, files := if file then s.files - {id} else s.files)
    case RemoveVg(name) => (forall id :: id in s.lvs ==> id.vg != name) && s' == s.(vgs := s.vgs - {name})
    case CreateElsewhere(name, vg) =>
      && name !in s.vgs
      && s' == s.(vgs := s.vgs[name := vg],
                  flights := map f | f in s.flights ::
                               s.flights[f].(disturbed := s.flights[f].disturbed || s.flights[f].name == name))
  }

  ghost predicate Next(s: State, a: Step, s': State) {
    match a
    case Call(_, _, _) => DoCall(s, a, s')
    case Look(_, _) => DoCheck(s, a, s')
    case Guard(_, _) => DoCheck(s, a, s')
    case Reconcile(_, _, _) => DoReconcile(s, a, s')
    case List(_, _) => DoList(s, a, s')
    case Remove(_, _, _) => DoRemove(s, a, s')
    case RemoveDir(_, _) => DoRemoveDir(s, a, s')
    case Begin(_) => DoCreate(s, a, s')
    case End(_, _, _) => DoCreate(s, a, s')
    case Fetch(_, _) => DoFetch(s, a, s')
    case Return(_) => DoReturn(s, a, s')
    case _ => DoOther(s, a, s')
  }

  /** A fresh process on a node with any leftovers. */
  ghost predicate Init(s: State) {
    s.flights == map[] && s.table == map[] && s.callers == map[] && (forall id :: id in s.lvs ==> id.vg in s.vgs)
  }

  ghost predicate IsRun(ts: seq<State>, steps: seq<Step>) {
    |ts| == |steps| + 1 && Init(ts[0]) && forall i :: 0 <= i < |steps| ==> At(ts, steps, i)
  }

  ghost predicate At(ts: seq<State>, steps: seq<Step>, i: nat)
    requires i < |steps| && |ts| == |steps| + 1
  {
    Next(ts[i], steps[i], ts[i + 1])
  }

  // ---------------------------------------------------------------- invariant

  /** Between its first look and the end of its vgcreate. */
  predicate Provisioning(p: Phase) {
    p.Guarding? || p.Reconciling? || p.Listing? || p.Removing? || p.Ready? || p.Creating?
  }

  /** A flight that has not landed is the one in the table, and while it provisions the group
      exists only if another process made it. */
  ghost predicate GoodFlight(s: State, f: nat)
    requires f in s.flights
  {
    var fl := s.flights[f];
    && (!fl.phase.Done? ==> fl.name in s.table && s.table[fl.name] == f)
    && (Provisioning(fl.phase) && !fl.disturbed ==> fl.name !in s.vgs)
    && (fl.phase.Removing? ==> forall id :: id in fl.phase.entries ==> id.vg == fl.name)
  }

  /** A caller's flight is for the name it asked for, and its answer is the flight's. */
  ghost predicate GoodCaller(s: State, k: nat)
    requires k in s.callers
  {
    var c := s.callers[k];
    && c.flight in s.flights && s.flights[c.flight].name == c.name
    && (c.Returned? ==> s.flights[c.flight].phase == Done(c.result))
  }

  ghost predicate Inv(s: State) {
    && (forall f :: f in s.flights ==> GoodFlight(s, f)) && (forall k :: k in s.callers ==> GoodCaller(s, k))
    && (forall name :: name in s.table ==> s.table[name] in s.flights && s.flights[s.table[name]].name == name)
    && (forall id :: id in s.lvs ==> id.vg in s.vgs)
  }

  lemma MoveKeeps(s: State, f: nat, p: Phase)
    requires Inv(s) && f in s.flights && !s.flights[f].phase.Done? && !p.Done?
    requires Provisioning(p) && !s.flights[f].disturbed ==> s.flights[f].name !in s.vgs
    requires p.Removing? ==> forall id :: id in p.entries ==> id.vg == s.flights[f].name
    ensures Inv(Move(s, f, p))
  {
  }

  lemma LandKeeps(s: State, f: nat, r: Result<Vg>)
    requires Inv(s) && f in s.flights && !s.flights[f].phase.Done?
    ensures Inv(Land(s, f, r))
  {
  }

  lemma FilesKeep(s: State, files: set<VolumeId>, dirs: set<string>)
    requires Inv(s)
    ensures Inv(s.(files := files, dirs := dirs))
  {
  }

  /** The group that a flight's vgcreate makes is in no other flight's way: a flight for the
      same name that has not landed is this one. */
  lemma GroupKeeps(s: State, f: nat, vg: Vg)
    requires Inv(s) && f in s.flights && s.flights[f].phase.Fetching?
    ensures Inv(s.(vgs := s.vgs[s.flights[f].name := vg]))
  {
    var s' := s.(vgs := s.vgs[s.flights[f].name := vg]);
    assert GoodFlight(s, f);
    forall g | g in s.flights
      ensures GoodFlight(s', g)
    {
      assert GoodFlight(s, g);
    }
  }

  /** A caller joins the call in flight. */
  lemma JoinKeeps(s: State, caller: nat, name: string)
    requires Inv(s) && caller !in s.callers && name in s.table
    ensures Inv(s.(callers := s.callers[caller := Waiting(name, s.table[name])]))
  {
    var s' := s.(callers := s.callers[caller := Waiting(name, s.table[name])]);
    forall f | f in s'.flights
      ensures GoodFlight(s', f)
    {
      assert GoodFlight(s, f);
    }
    forall k | k in s'.callers
      ensures GoodCaller(s', k)
    {
      if k != caller { assert GoodCaller(s, k); }
    }
  }

  /** A call takes off. */
  lemma TakeOffKeeps(s: State, f: nat, name: string)
    requires Inv(s) && f !in s.flights && name !in s.table
    ensures Inv(s.(flights := s.flights[f := Flight(name, Checking, false)], table := s.table[name := f]))
  {
    var s' := s.(flights := s.flights[f := Flight(name, Checking, false)], table := s.table[name := f]);
    forall g | g in s'.flights
      ensures GoodFlight(s', g)
    {
      if g != f { assert GoodFlight(s, g); }
    }
    forall k | k in s'.callers
      ensures GoodCaller(s', k)
    {
      assert GoodCaller(s, k);
    }
  }

  lemma CallKeeps(s: State, a: Step, s': State)
    requires Inv(s) && a.Call? && DoCall(s, a, s')
    ensures Inv(s')
  {
    hide Inv;
    if a.name in s.table {
      JoinKeeps(s, a.caller, a.name);
      assert s.table[a.name := a.flight] == s.table;
    } else {
      TakeOffKeeps(s, a.flight, a.name);
      var mid := s.(flights := s.flights[a.flight := Flight(a.name, Checking, false)],
                    table := s.table[a.name := a.flight]);
      JoinKeeps(mid, a.caller, a.name);
    }
  }

  /** A flight that may move to `p` stays good whether it does or lands. */
  lemma OnwardKeeps(s: State, f: nat, p: Phase)
    requires Inv(s) && f in s.flights && !s.flights[f].phase.Done? && !p.Done?
    requires Provisioning(p) && !s.flights[f].disturbed ==> s.flights[f].name !in s.vgs
    requires p.Removing? ==> forall id :: id in p.entries ==> id.vg == s.flights[f].name
    ensures Inv(Move(s, f, p)) && forall r :: Inv(Land(s, f, r))
  {
    hide Inv, Move, Land;
    MoveKeeps(s, f, p);
    forall r
      ensures Inv(Land(s, f, r))
    {
      LandKeeps(s, f, r);
    }
  }

  /** While a flight provisions, only another process can have made its group. */
  lemma OnlyDisturbed(s: State, f: nat)
    requires Inv(s) && f in s.flights && Provisioning(s.flights[f].phase) && s.flights[f].name in s.vgs
    ensures s.flights[f].disturbed
  {
    assert GoodFlight(s, f);
  }

  lemma CheckKeeps(s: State, a: Step, s': State)
    requires Inv(s) && (a.Look? || a.Guard?) && DoCheck(s, a, s')
    ensures Inv(s')
  {
    hide Inv, Move, Land, Escapes;
    var f := a.flight;
    if a.Look? {
      OnwardKeeps(s, f, if s.flights[f].name in s.vgs then Fetching else Guarding);
    } else {
      if s.flights[f].name in s.vgs { OnlyDisturbed(s, f); }
      OnwardKeeps(s, f, if s.flights[f].name in s.vgs then Ready else Reconciling);
    }
  }

  lemma ReconcileKeeps(s: State, a: Step, s': State)
    requires Inv(s) && a.Reconcile? && DoReconcile(s, a, s')
    ensures Inv(s')
  {
    hide Inv, Land;
    if s.flights[a.flight].name in s.vgs { OnlyDisturbed(s, a.flight); }
    OnwardKeeps(s, a.flight, Listing);
    FilesKeep(Move(s, a.flight, Listing), a.files, s.dirs);
  }

  lemma ListKeeps(s: State, a: Step, s': State)
    requires Inv(s) && a.List? && DoList(s, a, s')
    ensures Inv(s')
  {
    hide Inv, Move, Land;
    var name := s.flights[a.flight].name;
    if name in s.vgs { OnlyDisturbed(s, a.flight); }
    OnwardKeeps(s, a.flight, if name !in s.dirs then Ready else Removing(set id | id in s.files && id.vg == name));
  }

  lemma RemoveKeeps(s: State, a: Step, s': State)
    requires Inv(s) && a.Remove? && DoRemove(s, a, s')
    ensures Inv(s')
  {
    hide Inv, Land;
    var p := s.flights[a.flight].phase;
    if s.flights[a.flight].name in s.vgs { OnlyDisturbed(s, a.flight); }
    EntriesNamed(s, a.flight);
    OnwardKeeps(s, a.flight, Removing(p.entries - {a.entry}));
    FilesKeep(Move(s, a.flight, Removing(p.entries - {a.entry})), s.files - {a.entry}, s.dirs);
  }

  lemma EntriesNamed(s: State, f: nat)
    requires Inv(s) && f in s.flights && s.flights[f].phase.Removing?
    ensures forall id :: id in s.flights[f].phase.entries ==> id.vg == s.flights[f].name
  {
    assert GoodFlight(s, f);
  }

  lemma RemoveDirKeeps(s: State, a: Step, s': State)
    requires Inv(s) && a.RemoveDir? && DoRemoveDir(s, a, s')
    ensures Inv(s')
  {
    hide Inv;
    if s.flights[a.flight].name in s.vgs { OnlyDisturbed(s, a.flight); }
    MoveKeeps(s, a.flight, Ready);
    FilesKeep(Move(s, a.flight, Ready), s.files, s'.dirs);
  }

  lemma CreateKeeps(s: State, a: Step, s': State)
    requires Inv(s) && (a.Begin? || a.End?) && DoCreate(s, a, s')
    ensures Inv(s')
  {
    hide Inv, Land;
    if s.flights[a.flight].name in s.vgs { OnlyDisturbed(s, a.flight); }
    OnwardKeeps(s, a.flight, if a.Begin? then Creating else Fetching);
    if a.End? {
      GroupKeeps(Move(s, a.flight, Fetching), a.flight, a.vg);
    }
  }

  lemma FetchKeeps(s: State, a: Step, s': State)
    requires Inv(s) && a.Fetch? && DoFetch(s, a, s')
    ensures Inv(s')
  {
    hide Inv, Move, Land;
    OnwardKeeps(s, a.flight, Fetching);
  }

  lemma ReturnKeeps(s: State, a: Step, s': State)
    requires Inv(s) && a.Return? && DoReturn(s, a, s')
    ensures Inv(s')
  {
    assert GoodCaller(s, a.caller);
  }

  lemma OtherKeeps(s: State, a: Step, s': State)
    requires Inv(s) && (a.CreateLv? || a.RemoveLv? || a.RemoveVg? || a.CreateElsewhere?) && DoOther(s, a, s')
    ensures Inv(s')
  {
    forall f | f in s'.flights
      ensures GoodFlight(s', f)
    {
      assert GoodFlight(s, f);
    }
  }

  lemma InvStep(s: State, a: Step, s': State)
    requires Inv(s) && Next(s, a, s')
    ensures Inv(s')
  {
    hide Inv, DoCall, DoCheck, DoReconcile, DoList, DoRemove, DoRemoveDir, DoCreate, DoFetch, DoReturn, DoOther;
    match a
    case Call(_, _, _) => CallKeeps(s, a, s');
    case Look(_, _) => CheckKeeps(s, a, s');
    case Guard(_, _) => CheckKeeps(s, a, s');
    case Reconcile(_, _, _) => ReconcileKeeps(s, a, s');
    case List(_, _) => ListKeeps(s, a, s');
    case Remove(_, _, _) => RemoveKeeps(s, a, s');
    case RemoveDir(_, _) => RemoveDirKeeps(s, a, s');
    case Begin(_) => CreateKeeps(s, a, s');
    case End(_, _, _) => CreateKeeps(s, a, s');
    case Fetch(_, _) => FetchKeeps(s, a, s');
    case Return(_) => ReturnKeeps(s, a, s');
    case _ => OtherKeeps(s, a, s');
  }

  lemma {:induction false} Holds(ts: seq<State>, steps: seq<Step>, i: nat)
    requires IsRun(ts, steps) && i < |ts|
    ensures Inv(ts[i])
  {
    hide Next;
    if i > 0 {
      Holds(ts, steps, i - 1);
      assert At(ts, steps, i - 1);
      InvStep(ts[i - 1], steps[i - 1], ts[i]);
    }
  }

  // ---------------------------------------------------------------- theorems

  /** Over every interleaving, the cleanup of stale device nodes never removes the file of a
      volume in metadata, unless another process made the group during that very flight. */
  lemma CleanupIsSafe(ts: seq<State>, steps: seq<Step>, i: nat, id: VolumeId)
    requires IsRun(ts, steps) && i < |steps| && id in ts[i].files && id !in ts[i + 1].files && id in ts[i].lvs
    ensures !steps[i].Reconcile?
    ensures steps[i].Remove? ==> steps[i].flight in ts[i].flights && ts[i].flights[steps[i].flight].disturbed
    ensures steps[i].Remove? || steps[i].RemoveLv?
  {
    hide DoCheck, DoList, DoRemoveDir, DoCreate, DoFetch, DoReturn, Inv;
    Holds(ts, steps, i);
    assert At(ts, steps, i);
    var s, a := ts[i], steps[i];
    if !a.Call? && !a.CreateElsewhere? { FlightSteps(s, a, ts[i + 1]); }
    if a.Remove? {
      EntriesNamed(s, a.flight);
      assert id == a.entry;
      InMetadata(s, id);
      OnlyDisturbed(s, a.flight);
    }
  }

  lemma InMetadata(s: State, id: VolumeId)
    requires Inv(s) && id in s.lvs
    ensures id.vg in s.vgs
  {
  }

  /** At most one flight for a name is under way, so no two vgcreate calls for it overlap. */
  lemma OneFlight(ts: seq<State>, steps: seq<Step>, i: nat, f: nat, g: nat)
    requires IsRun(ts, steps) && i < |ts| && f in ts[i].flights && g in ts[i].flights
    requires ts[i].flights[f].name == ts[i].flights[g].name
    requires !ts[i].flights[f].phase.Done? && !ts[i].flights[g].phase.Done?
    ensures f == g
  {
    hide Next;
    Holds(ts, steps, i);
    assert GoodFlight(ts[i], f) && GoodFlight(ts[i], g);
  }

  /** vgcreate answers that the group exists only when another process made it during the
      flight. */
  lemma ExistsMeansElsewhere(ts: seq<State>, steps: seq<Step>, i: nat)
    requires IsRun(ts, steps) && i < |steps| && steps[i].End? && !steps[i].fault
    requires steps[i].flight in ts[i].flights && ts[i].flights[steps[i].flight].name in ts[i].vgs
    ensures ts[i].flights[steps[i].flight].disturbed
  {
    Holds(ts, steps, i);
    assert At(ts, steps, i);
    OnlyDisturbed(ts[i], steps[i].flight);
  }

  /** Every caller of a flight gets the same group or the same error, and it is the flight for
      the name the caller asked for. */
  lemma SharedAnswer(ts: seq<State>, steps: seq<Step>, i: nat, j: nat, k: nat, l: nat)
    requires IsRun(ts, steps) && i <= j < |ts|
    requires k in ts[i].callers && ts[i].callers[k].Returned? && l in ts[j].callers && ts[j].callers[l].Returned?
    requires ts[i].callers[k].flight == ts[j].callers[l].flight
    ensures ts[i].callers[k].result == ts[j].callers[l].result && ts[i].callers[k].name == ts[j].callers[l].name
  {
    hide Next;
    Holds(ts, steps, j);
    AnswersStay(ts, steps, i, j, k);
    assert GoodCaller(ts[j], k) && GoodCaller(ts[j], l);
  }

  lemma {:induction false} AnswersStay(ts: seq<State>, steps: seq<Step>, i: nat, j: nat, k: nat)
    requires IsRun(ts, steps) && i <= j < |ts| && k in ts[i].callers && ts[i].callers[k].Returned?
    ensures k in ts[j].callers && ts[j].callers[k] == ts[i].callers[k]
  {
    hide DoCheck, DoReconcile, DoList, DoRemove, DoRemoveDir, DoCreate, DoFetch;
    if i < j {
      AnswersStay(ts, steps, i, j - 1, k);
      assert At(ts, steps, j - 1);
      if !steps[j - 1].Call? && !steps[j - 1].CreateElsewhere? {
        FlightSteps(ts[j - 1], steps[j - 1], ts[j]);
      }
    }
  }

  // ---------------------------------------------------------------- the exception

  /** A flight is disturbed exactly by another process making its group after it took off. */
  lemma {:induction false} DisturbedMeans(ts: seq<State>, steps: seq<Step>, i: nat, f: nat)
    requires IsRun(ts, steps) && i < |ts| && f in ts[i].flights && ts[i].flights[f].disturbed
    ensures exists k :: 0 <= k < i && steps[k].CreateElsewhere? && f in ts[k].flights &&
              steps[k].name == ts[k].flights[f].name == ts[i].flights[f].name
  {
    hide Next;
    if i > 0 {
      assert At(ts, steps, i - 1);
      NewlyDisturbed(ts[i - 1], steps[i - 1], ts[i], f);
      if ts[i - 1].flights[f].disturbed {
        DisturbedMeans(ts, steps, i - 1, f);
      }
    }
  }

  /** A step of a flight changes no name and disturbs nobody. */
  predicate SameFlights(s: State, s': State) {
    forall f :: f in s'.flights ==>
      f in s.flights && s.flights[f].name == s'.flights[f].name && s.flights[f].disturbed == s'.flights[f].disturbed
  }

  lemma CleanupSteps(s: State, a: Step, s': State)
    requires a.Reconcile? || a.List? || a.Remove? || a.RemoveDir?
    requires Next(s, a, s')
    ensures SameFlights(s, s') && s'.callers == s.callers && (a.List? || a.RemoveDir? ==> s'.files == s.files)
  {
    hide DoCall, DoCheck, DoCreate, DoFetch, DoReturn, DoOther;
  }

  lemma CheckSteps(s: State, a: Step, s': State)
    requires (a.Look? || a.Guard?) && DoCheck(s, a, s')
    ensures SameFlights(s, s') && s'.callers == s.callers && s'.files == s.files
  {
    hide Escapes;
  }

  lemma CreateSteps(s: State, a: Step, s': State)
    requires a.Begin? || a.End? || a.Fetch?
    requires Next(s, a, s')
    ensures SameFlights(s, s') && s'.callers == s.callers && s'.files == s.files
  {
    hide DoCall, DoCheck, DoReconcile, DoList, DoRemove, DoRemoveDir, DoReturn, DoOther;
  }

  /** Only a call, a return or another process does more than move a flight along. */
  lemma FlightSteps(s: State, a: Step, s': State)
    requires Next(s, a, s') && !a.Call? && !a.CreateElsewhere?
    ensures SameFlights(s, s') && (a.Return? || s'.callers == s.callers)
    ensures a.Reconcile? || a.Remove? || a.CreateLv? || a.RemoveLv? || s'.files == s.files
  {
    hide DoCall, DoCheck, DoReconcile, DoList, DoRemove, DoRemoveDir, DoCreate, DoFetch;
    match a
    case Look(_, _) => CheckSteps(s, a, s');
    case Guard(_, _) => CheckSteps(s, a, s');
    case Begin(_) => CreateSteps(s, a, s');
    case End(_, _, _) => CreateSteps(s, a, s');
    case Fetch(_, _) => CreateSteps(s, a, s');
    case Return(_) =>
    case CreateLv(_) =>
    case RemoveLv(_, _) =>
    case RemoveVg(_) =>
    case _ => CleanupSteps(s, a, s');
  }

  lemma NewlyDisturbed(s: State, a: Step, s': State, f: nat)
    requires Next(s, a, s') && f in s'.flights && s'.flights[f].disturbed
    ensures f in s.flights && s.flights[f].name == s'.flights[f].name
    ensures s.flights[f].disturbed || (a.CreateElsewhere? && a.name == s.flights[f].name)
  {
    hide DoCheck, DoReconcile, DoList, DoRemove, DoRemoveDir, DoCreate, DoFetch, DoReturn;
    if !a.Call? && !a.CreateElsewhere? {
      FlightSteps(s, a, s');
    }
  }

  /** That exception is real: while a flight has files left to remove, another process that
      makes the group and a volume under one of those names loses the volume's file. */
  lemma ElsewhereRace(s: State, f: nat, e: VolumeId, vg: Vg) returns (s1: State, s2: State, s3: State)
    requires f in s.flights && s.flights[f].phase.Removing? && e in s.flights[f].phase.entries
    requires e.vg == s.flights[f].name && e.vg !in s.vgs
    ensures Next(s, CreateElsewhere(e.vg, vg), s1) && Next(s1, CreateLv(e), s2) && Next(s2, Remove(f, false, e), s3)
    ensures e in s2.lvs && e in s2.files && e in s3.lvs && e !in s3.files
  {
    s1 := s.(vgs := s.vgs[e.vg := vg],
             flights := map g | g in s.flights ::
                          s.flights[g].(disturbed := s.flights[g].disturbed || s.flights[g].name == e.vg));
    s2 := s1.(lvs := s1.lvs + {e}, files := s1.files + {e}, dirs := s1.dirs + {e.vg});
    s3 := Move(s2, f, Removing(s2.flights[f].phase.entries - {e})).(files := s2.files - {e});
  }

  /** And it is within reach: a process that starts on a node with a leftover file of a group
      gets there in five steps. */
  lemma ElsewhereRun(start: State, e: VolumeId, vg: Vg) returns (ts: seq<State>, steps: seq<Step>)
    requires Init(start) && e in start.files && e.vg in start.dirs && e.vg !in start.vgs && e.vg != "" && !Escapes(e.vg)
    ensures IsRun(ts, steps) && ts[0] == start && e in ts[|steps|].lvs && e !in ts[|steps|].files
    ensures |steps| > 0 && steps[|steps| - 1].Remove? && e in ts[|steps| - 1].lvs
  {
    hide Escapes, Next;
    var s1, s2, s3, s4, s5 := Approach(start, e.vg);
    assert e in s5.flights[0].phase.entries;
    var s6, s7, s8 := ElsewhereRace(s5, 0, e, vg);
    ts := [start, s1, s2, s3, s4, s5, s6, s7, s8];
    steps := [Call(0, e.vg, 0), Look(0, false), Guard(0, false), Reconcile(0, false, start.files), List(0, false),
              CreateElsewhere(e.vg, vg), CreateLv(e), Remove(0, false, e)];
  }

  /** The first five steps of a flight for a missing group with a leftover directory. */
  lemma Approach(start: State, name: string) returns (s1: State, s2: State, s3: State, s4: State, s5: State)
    requires Init(start) && name in start.dirs && name !in start.vgs && name != "" && !Escapes(name)
    ensures Next(start, Call(0, name, 0), s1) && Next(s1, Look(0, false), s2) && Next(s2, Guard(0, false), s3)
    ensures Next(s3, Reconcile(0, false, start.files), s4) && Next(s4, List(0, false), s5)
    ensures s5.vgs == start.vgs && 0 in s5.flights && s5.flights[0].name == name
    ensures s5.flights[0].phase == Removing(set id | id in start.files && id.vg == name)
  {
    hide Next, Escapes;
    s1, s2, s3 := FindsNoGroup(start, name);
    s4, s5 := FindsLeftovers(s3, 0);
  }

  lemma FindsNoGroup(start: State, name: string) returns (s1: State, s2: State, s3: State)
    requires Init(start) && name !in start.vgs && name != "" && !Escapes(name)
    ensures Next(start, Call(0, name, 0), s1) && Next(s1, Look(0, false), s2) && Next(s2, Guard(0, false), s3)
    ensures s3.vgs == start.vgs && s3.files == start.files && s3.dirs == start.dirs
    ensures InPhase(s3, 0, Reconciling) && s3.flights[0].name == name
  {
    hide Escapes, DoReconcile, DoList, DoCreate, DoFetch, DoReturn, DoOther, DoRemove, DoRemoveDir;
    s1 := start.(callers := start.callers[0 := Waiting(name, 0)],
                 flights := start.flights[0 := Flight(name, Checking, false)], table := start.table[name := 0]);
    s2 := Move(s1, 0, Guarding);
    s3 := Move(s2, 0, Reconciling);
  }

  lemma FindsLeftovers(s: State, f: nat) returns (s1: State, s2: State)
    requires InPhase(s, f, Reconciling) && s.flights[f].name in s.dirs
    ensures Next(s, Reconcile(f, false, s.files), s1) && Next(s1, List(f, false), s2)
    ensures s2.vgs == s.vgs && f in s2.flights && s2.flights[f].name == s.flights[f].name
    ensures s2.flights[f].phase == Removing(set id | id in s.files && id.vg == s.flights[f].name)
  {
    hide DoCall, DoCheck, DoCreate, DoFetch, DoReturn, DoOther, DoRemove, DoRemoveDir;
    s1 := Move(s, f, Listing).(files := s.files);
    s2 := Move(s1, f, Removing(set id | id in s.files && id.vg == s.flights[f].name));
  }

  // ---------------------------------------------------------------- a flight on its own

  /** The step belongs to flight `f`. */
  predicate OfFlight(a: Step, f: nat) {
    && (a.Look? || a.Guard? || a.Reconcile? || a.List? || a.Remove? || a.RemoveDir? || a.Begin? || a.End? || a.Fetch?)
    && a.flight == f
  }

  /** What ProvisionVolumeGroup promises of a call that runs alone, as far as the flight has got:
      volumes stay, files of volumes in metadata stay, and the group is there from before, or is
      the one new group, or is still missing. */
  ghost predicate Promised(s0: State, f: nat, s: State)
    requires f in s0.flights
  {
    var name := s0.flights[f].name;
    && f in s.flights && s.flights[f].name == name && s.lvs == s0.lvs
    && (forall id :: id in s0.files && id !in s.files ==> id !in s0.lvs)
    && (name in s0.vgs ==> s.vgs == s0.vgs && s.files == s0.files && s.dirs == s0.dirs)
    && (name !in s0.vgs ==> s.vgs == s0.vgs || (name in s.vgs && s.vgs == s0.vgs[name := s.vgs[name]]))
    && (match s.flights[f].phase
        case Checking => s == s0
        case Removing(entries) => name !in s0.vgs && forall id :: id in entries ==> id.vg == name
        case Fetching => name !in s0.vgs && name in s.vgs
        case Done(r) => (r.Ok? ==> name in s.vgs && r.value == s.vgs[name]) && (r.Err? ==> r.error in FLIGHT_ERRORS)
        case _ => name !in s0.vgs && s.vgs == s0.vgs)
    && (s.flights[f].phase.Removing? ==> s.vgs == s0.vgs)
  }

  const FLIGHT_ERRORS := {Fault, StaleDeviceNode, InvalidInput}

  lemma CheckPromised(s0: State, s: State, a: Step, s': State)
    requires (a.Look? || a.Guard?) && DoCheck(s, a, s') && a.flight in s0.flights && Promised(s0, a.flight, s)
    ensures Promised(s0, a.flight, s')
  {
    hide Escapes;
  }

  lemma ReconcilePromised(s0: State, s: State, a: Step, s': State)
    requires a.Reconcile? && DoReconcile(s, a, s') && a.flight in s0.flights && Promised(s0, a.flight, s)
    ensures Promised(s0, a.flight, s')
  {
    hide Escapes;
  }

  lemma ListPromised(s0: State, s: State, a: Step, s': State)
    requires a.List? && DoList(s, a, s') && a.flight in s0.flights && Promised(s0, a.flight, s)
    ensures Promised(s0, a.flight, s')
  {
    hide Escapes;
  }

  lemma RemovePromised(s0: State, s: State, a: Step, s': State)
    requires a.Remove? && DoRemove(s, a, s') && a.flight in s0.flights && Promised(s0, a.flight, s)
    requires forall id :: id in s0.lvs ==> id.vg in s0.vgs
    ensures Promised(s0, a.flight, s')
  {
    hide Escapes;
  }

  lemma RemoveDirPromised(s0: State, s: State, a: Step, s': State)
    requires a.RemoveDir? && DoRemoveDir(s, a, s') && a.flight in s0.flights && Promised(s0, a.flight, s)
    ensures Promised(s0, a.flight, s')
  {
    hide Escapes;
  }

  lemma CreatePromised(s0: State, s: State, a: Step, s': State)
    requires (a.Begin? || a.End?) && DoCreate(s, a, s') && a.flight in s0.flights && Promised(s0, a.flight, s)
    ensures Promised(s0, a.flight, s')
  {
    hide Escapes;
  }

  lemma FetchPromised(s0: State, s: State, a: Step, s': State)
    requires a.Fetch? && DoFetch(s, a, s') && a.flight in s0.flights && Promised(s0, a.flight, s)
    ensures Promised(s0, a.flight, s')
  {
    hide Escapes;
  }

  lemma PromiseKept(s0: State, f: nat, s: State, a: Step, s': State)
    requires f in s0.flights && (forall id :: id in s0.lvs ==> id.vg in s0.vgs)
    requires Promised(s0, f, s) && OfFlight(a, f) && Next(s, a, s')
    ensures Promised(s0, f, s')
  {
    hide Promised, DoCall, DoCheck, DoReconcile, DoList, DoRemove, DoRemoveDir, DoCreate, DoFetch, DoReturn, DoOther;
    match a
    case Look(_, _) => CheckPromised(s0, s, a, s');
    case Guard(_, _) => CheckPromised(s0, s, a, s');
    case Reconcile(_, _, _) => ReconcilePromised(s0, s, a, s');
    case List(_, _) => ListPromised(s0, s, a, s');
    case Remove(_, _, _) => RemovePromised(s0, s, a, s');
    case RemoveDir(_, _) => RemoveDirPromised(s0, s, a, s');
    case Begin(_) => CreatePromised(s0, s, a, s');
    case End(_, _, _) => CreatePromised(s0, s, a, s');
    case Fetch(_, _) => FetchPromised(s0, s, a, s');
  }

  /** A flight whose steps nobody interleaves with keeps, from take-off to landing, what the
      sequential ProvisionVolumeGroup and RemoveStaleDeviceMapperNodes promise. */
  lemma {:induction false} LoneFlight(ts: seq<State>, steps: seq<Step>, i: nat, j: nat, f: nat)
    requires IsRun(ts, steps) && i <= j < |ts| && InPhase(ts[i], f, Checking)
    requires forall k :: i <= k < j ==> OfFlight(steps[k], f)
    ensures Promised(ts[i], f, ts[j])
  {
    hide Next, Promised, OfFlight;
    Holds(ts, steps, i);
    if i < j {
      LoneFlight(ts, steps, i, j - 1, f);
      assert At(ts, steps, j - 1);
      PromiseKept(ts[i], f, ts[j - 1], steps[j - 1], ts[j]);
    } else {
      PromiseStarts(ts[i], f);
    }
  }

  lemma PromiseStarts(s: State, f: nat)
    requires InPhase(s, f, Checking)
    ensures Promised(s, f, s)
  {
  }
}
