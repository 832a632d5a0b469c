/** What a caller of EnsureVolumeGroup can rely on over every interleaving: its answer is fresh, and
    when exactly the cleanup of a flight can hit a volume that is in use. */
module FlightRuns {
  import opened VolumeIds
  import opened Lvm
  import opened Flights

  // ---------------------------------------------------------------- fresh answers

  /** A flight in the table has not landed. */
  ghost predicate TableLive(s: State) {
    forall name :: name in s.table && s.table[name] in s.flights ==> !s.flights[s.table[name]].phase.Done?
  }

  /** Nothing lands but a step of the flight itself, and only with an error or with the group that
      is there; what has landed stays. */
  ghost predicate LandsWell(s: State, s': State, f: nat)
    requires f in s.flights
  {
    && f in s'.flights && s'.flights[f].name == s.flights[f].name
    && (s.flights[f].phase.Done? ==> s'.flights[f].phase == s.flights[f].phase)
    && (!s.flights[f].phase.Done? && s'.flights[f].phase.Done? ==>
          var name, r := s.flights[f].name, s'.flights[f].phase.result;
          r.Ok? ==> name in s.vgs && r.value == s.vgs[name])
  }

  lemma MoveLands(s: State, f: nat, p: Phase)
    requires f in s.flights && !s.flights[f].phase.Done? && !p.Done?
    ensures forall g :: g in s.flights ==> LandsWell(s, Move(s, f, p), g)
    ensures TableLive(s) ==> TableLive(Move(s, f, p))
  {
  }

  lemma LandLands(s: State, f: nat, r: Result<Vg>)
    requires Inv(s) && f in s.flights && !s.flights[f].phase.Done?
    requires r.Ok? ==> s.flights[f].name in s.vgs && r.value == s.vgs[s.flights[f].name]
    ensures forall g :: g in s.flights ==> LandsWell(s, Land(s, f, r), g)
    ensures TableLive(s) ==> TableLive(Land(s, f, r))
  {
    if TableLive(s) {
      var s' := Land(s, f, r);
      forall name | name in s'.table && s'.table[name] in s'.flights
        ensures !s'.flights[s'.table[name]].phase.Done?
      {
        assert s.flights[s.table[name]].name == name;
      }
    }
  }

  /** One step, seen from the flights that are under way before it. */
  lemma StepLands(s: State, a: Step, s': State)
    requires Inv(s) && Next(s, a, s')
    ensures forall f :: f in s.flights ==> LandsWell(s, s', f)
    ensures TableLive(s) ==> TableLive(s')
  {
    hide Inv, LandsWell, Escapes, Move, Land;
    if a.Look? || a.Guard? || a.Reconcile? || a.List? || a.Remove? {
      EarlyLands(s, a, s');
    } else if a.RemoveDir? || a.Begin? || a.End? || a.Fetch? {
      LateLands(s, a, s');
    } else {
      OthersLand(s, a, s');
    }
  }

  lemma SameLands(s: State, m: State, s': State)
    requires s'.flights == m.flights && s'.table == m.table
    ensures forall f :: f in s.flights ==> (LandsWell(s, s', f) <==> LandsWell(s, m, f))
    ensures TableLive(s') <==> TableLive(m)
  {
  }

  lemma EarlyLands(s: State, a: Step, s': State)
    requires Inv(s) && (a.Look? || a.Guard? || a.Reconcile? || a.List? || a.Remove?) && Next(s, a, s')
    ensures forall f :: f in s.flights ==> LandsWell(s, s', f)
    ensures TableLive(s) ==> TableLive(s')
  {
    hide Inv, LandsWell, TableLive, Escapes, DoCall, DoRemoveDir, DoCreate, DoFetch, DoReturn, DoOther;
    var f := a.flight;
    var name := s.flights[f].name;
    LandLands(s, f, Err(Fault));
    if a.Look? {
      if name in s.vgs { LandLands(s, f, Ok(s.vgs[name])); }
      MoveLands(s, f, Guarding);
    } else if a.Guard? {
      LandLands(s, f, Err(InvalidInput));
      MoveLands(s, f, if name in s.vgs then Ready else Reconciling);
    } else if a.Reconcile? {
      MoveLands(s, f, Listing);
      SameLands(s, Move(s, f, Listing), Move(s, f, Listing).(files := a.files));
    } else if a.List? {
      MoveLands(s, f, if name !in s.dirs then Ready else Removing(set id | id in s.files && id.vg == name));
    } else {
      var rest := Removing(s.flights[f].phase.entries - {a.entry});
      MoveLands(s, f, rest);
      SameLands(s, Move(s, f, rest), Move(s, f, rest).(files := s.files - {a.entry}));
    }
  }

  lemma LateLands(s: State, a: Step, s': State)
    requires Inv(s) && (a.RemoveDir? || a.Begin? || a.End? || a.Fetch?) && Next(s, a, s')
    ensures forall f :: f in s.flights ==> LandsWell(s, s', f)
    ensures TableLive(s) ==> TableLive(s')
  {
    hide Inv, LandsWell, TableLive, DoCall, DoCheck, DoReconcile, DoList, DoRemove, DoReturn, DoOther;
    var f := a.flight;
    var name := s.flights[f].name;
    LandLands(s, f, Err(Fault));
    if a.RemoveDir? {
      MoveLands(s, f, Ready);
      SameLands(s, Move(s, f, Ready), s');
    } else if a.Begin? {
      MoveLands(s, f, Creating);
    } else if a.End? {
      LandLands(s, f, Err(StaleDeviceNode));
      MoveLands(s, f, Fetching);
      SameLands(s, Move(s, f, Fetching), Move(s, f, Fetching).(vgs := s.vgs[name := a.vg]));
    } else {
      LandLands(s, f, Err(NotFound));
      if name in s.vgs { LandLands(s, f, Ok(s.vgs[name])); }
    }
  }

  lemma OthersLand(s: State, a: Step, s': State)
    requires Inv(s) && Next(s, a, s')
    requires a.Call? || a.Return? || a.CreateLv? || a.RemoveLv? || a.RemoveVg? || a.CreateElsewhere?
    ensures forall f :: f in s.flights ==> LandsWell(s, s', f)
    ensures TableLive(s) ==> TableLive(s')
  {
    hide DoCheck, DoReconcile, DoList, DoRemove, DoRemoveDir, DoCreate, DoFetch;
  }

  lemma {:induction false} TableHolds(ts: seq<State>, steps: seq<Step>, i: nat)
    requires IsRun(ts, steps) && i < |ts|
    ensures TableLive(ts[i])
  {
    hide Next, Inv;
    if i > 0 {
      TableHolds(ts, steps, i - 1);
      Holds(ts, steps, i - 1);
      assert At(ts, steps, i - 1);
      StepLands(ts[i - 1], steps[i - 1], ts[i]);
    }
  }

  /** Callers appear by calling, and then wait for a flight under way. */
  lemma NewCaller(s: State, a: Step, s': State, k: nat)
    requires Inv(s) && TableLive(s) && Next(s, a, s') && k in s'.callers
    ensures k in s.callers ==> s'.callers[k].flight == s.callers[k].flight
    ensures k !in s.callers ==>
              && a.Call? && a.caller == k && a.flight == s'.callers[k].flight
              && a.flight in s'.flights && !s'.flights[a.flight].phase.Done?
  {
    hide DoCheck, DoReconcile, DoList, DoRemove, DoRemoveDir, DoCreate, DoFetch, DoOther, GoodFlight, GoodCaller;
    if !a.Call? && !a.CreateElsewhere? {
      FlightSteps(s, a, s');
    } else if a.CreateElsewhere? {
      Elsewhere(s, a, s');
    }
  }

  lemma Elsewhere(s: State, a: Step, s': State)
    requires a.CreateElsewhere? && Next(s, a, s')
    ensures s'.callers == s.callers
  {
  }

  /** The call of a caller: when it came, its flight was under way. */
  lemma {:induction false} CallOf(ts: seq<State>, steps: seq<Step>, i: nat, k: nat) returns (c: nat)
    requires IsRun(ts, steps) && i < |ts| && k in ts[i].callers
    ensures c < i && steps[c].Call? && steps[c].caller == k && steps[c].flight == ts[i].callers[k].flight
    ensures steps[c].flight in ts[c + 1].flights && !ts[c + 1].flights[steps[c].flight].phase.Done?
  {
    hide Next, Inv, TableLive;
    if i == 0 {
      assert false;
    } else {
      Holds(ts, steps, i - 1);
      TableHolds(ts, steps, i - 1);
      assert At(ts, steps, i - 1);
      NewCaller(ts[i - 1], steps[i - 1], ts[i], k);
      if k in ts[i - 1].callers {
        c := CallOf(ts, steps, i - 1, k);
      } else {
        c := i - 1;
      }
    }
  }

  /** The step at which a flight lands. */
  lemma {:induction false} LandingOf(ts: seq<State>, steps: seq<Step>, i: nat, j: nat, f: nat) returns (l: nat)
    requires IsRun(ts, steps) && i <= j < |ts| && f in ts[i].flights && !ts[i].flights[f].phase.Done?
    requires f in ts[j].flights && ts[j].flights[f].phase.Done?
    ensures i <= l < j && f in ts[l].flights && !ts[l].flights[f].phase.Done?
    ensures ts[l].flights[f].name == ts[j].flights[f].name
    ensures var name, r := ts[l].flights[f].name, ts[j].flights[f].phase.result;
            r.Ok? ==> name in ts[l].vgs && r.value == ts[l].vgs[name]
  {
    hide Next, Inv;
    FlightStays(ts, steps, i, j - 1, f);
    Holds(ts, steps, j - 1);
    assert At(ts, steps, j - 1);
    StepLands(ts[j - 1], steps[j - 1], ts[j]);
    assert LandsWell(ts[j - 1], ts[j], f);
    if ts[j - 1].flights[f].phase.Done? {
      l := LandingOf(ts, steps, i, j - 1, f);
    } else {
      l := j - 1;
    }
  }

  lemma {:induction false} FlightStays(ts: seq<State>, steps: seq<Step>, i: nat, j: nat, f: nat)
    requires IsRun(ts, steps) && i <= j < |ts| && f in ts[i].flights
    ensures f in ts[j].flights
  {
    hide Next, Inv;
    if i < j {
      FlightStays(ts, steps, i, j - 1, f);
      Holds(ts, steps, j - 1);
      assert At(ts, steps, j - 1);
      StepLands(ts[j - 1], steps[j - 1], ts[j]);
      assert LandsWell(ts[j - 1], ts[j], f);
    }
  }

  /** No stale answer: the flight a caller shares lands between the caller's call and its return, and
      a group it is given is the group of the name it asked for, as it was at that moment. */
  lemma FreshAnswer(ts: seq<State>, steps: seq<Step>, j: nat) returns (c: nat, l: nat)
    requires IsRun(ts, steps) && j < |steps| && steps[j].Return?
    ensures steps[j].caller in ts[j + 1].callers && ts[j + 1].callers[steps[j].caller].Returned?
    ensures c < l < j && steps[c].Call? && steps[c].caller == steps[j].caller
    ensures var answer := ts[j + 1].callers[steps[j].caller];
            && steps[c].flight == answer.flight && answer.flight in ts[l].flights
            && ts[l].flights[answer.flight].name == answer.name && !ts[l].flights[answer.flight].phase.Done?
            && (answer.result.Ok? ==> answer.name in ts[l].vgs && answer.result.value == ts[l].vgs[answer.name])
  {
    hide Inv, TableLive, DoCall, DoCheck, DoReconcile, DoList, DoRemove, DoRemoveDir, DoCreate, DoFetch, DoOther;
    assert At(ts, steps, j);
    var k := steps[j].caller;
    Holds(ts, steps, j);
    Asked(ts[j], k);
    c := CallOf(ts, steps, j, k);
    l := LandingOf(ts, steps, c + 1, j, steps[c].flight);
  }

  lemma Asked(s: State, k: nat)
    requires Inv(s) && k in s.callers
    ensures s.callers[k].flight in s.flights && s.flights[s.callers[k].flight].name == s.callers[k].name
  {
    assert GoodCaller(s, k);
  }

  // ---------------------------------------------------------------- the cleanup window

  /** The flight is inside the cleanup of stale device nodes. */
  predicate Cleaning(p: Phase) {
    p.Reconciling? || p.Listing? || p.Removing?
  }

  /** What a step does to a flight that cleans up after it: it was cleaning up before, or its guard has
      just found no group; and if the group is new, another process made it. */
  ghost predicate KeepsCleaning(s: State, a: Step, s': State, f: nat) {
    && f in s.flights && f in s'.flights && s.flights[f].name == s'.flights[f].name
    && var name := s.flights[f].name;
       && (Cleaning(s.flights[f].phase) || (a.Guard? && a.flight == f && name !in s.vgs && s'.vgs == s.vgs))
       && (name in s'.vgs && name !in s.vgs ==> a.CreateElsewhere? && a.name == name)
  }

  lemma CleaningStep(s: State, a: Step, s': State, f: nat)
    requires Inv(s) && Next(s, a, s') && f in s'.flights && Cleaning(s'.flights[f].phase)
    ensures KeepsCleaning(s, a, s', f)
  {
    hide Inv, KeepsCleaning, DoCall, DoCheck, DoReconcile, DoList, DoRemove, DoRemoveDir, DoReturn, DoOther;
    if a.Look? || a.Guard? {
      CheckCleaning(s, a, s', f);
    } else if a.Reconcile? || a.List? || a.Remove? || a.RemoveDir? {
      CleanupCleaning(s, a, s', f);
    } else if a.Begin? || a.End? || a.Fetch? {
      CreatingElsewhere(s, a, s', f);
    } else {
      OtherCleaning(s, a, s', f);
    }
  }

  lemma CheckCleaning(s: State, a: Step, s': State, f: nat)
    requires (a.Look? || a.Guard?) && DoCheck(s, a, s') && f in s'.flights && Cleaning(s'.flights[f].phase)
    ensures KeepsCleaning(s, a, s', f)
  {
    hide Escapes, Cleaning;
    if f != a.flight {
      assert s'.flights[f] == s.flights[f];
    } else {
      assert s'.flights[f].phase == Reconciling by { NotCleaning(s'.flights[f].phase); }
    }
  }

  lemma NotCleaning(p: Phase)
    ensures p.Done? || p.Guarding? || p.Ready? || p.Creating? || p.Fetching? ==> !Cleaning(p)
  {
  }

  lemma CleanupCleaning(s: State, a: Step, s': State, f: nat)
    requires (a.Reconcile? || a.List? || a.Remove? || a.RemoveDir?) && Next(s, a, s')
    requires f in s'.flights && Cleaning(s'.flights[f].phase)
    ensures KeepsCleaning(s, a, s', f)
  {
    hide DoCall, DoCheck, DoCreate, DoFetch, DoReturn, DoOther;
  }

  lemma OtherCleaning(s: State, a: Step, s': State, f: nat)
    requires Next(s, a, s') && f in s'.flights && Cleaning(s'.flights[f].phase)
    requires a.Call? || a.Return? || a.CreateLv? || a.RemoveLv? || a.RemoveVg? || a.CreateElsewhere?
    ensures KeepsCleaning(s, a, s', f)
  {
    hide DoCheck, DoReconcile, DoList, DoRemove, DoRemoveDir, DoCreate, DoFetch;
  }

  lemma CreatingElsewhere(s: State, a: Step, s': State, f: nat)
    requires Inv(s) && (a.Begin? || a.End? || a.Fetch?) && Next(s, a, s')
    requires f in s'.flights && Cleaning(s'.flights[f].phase)
    ensures KeepsCleaning(s, a, s', f)
  {
    hide Inv, Cleaning, DoCall, DoCheck, DoReconcile, DoList, DoRemove, DoRemoveDir, DoReturn, DoOther;
    NotCleaning(s'.flights[f].phase);
    assert s'.flights[f] == s.flights[f];
    SameName(s, f, a.flight);
  }

  lemma SameName(s: State, f: nat, g: nat)
    requires Inv(s) && f in s.flights && g in s.flights && Cleaning(s.flights[f].phase)
    requires !s.flights[g].phase.Done? && f != g
    ensures s.flights[f].name != s.flights[g].name
  {
    assert GoodFlight(s, f) && GoodFlight(s, g);
  }

  /** While a flight cleans up, its guard has found no group before, and if there is one now another
      process has made it since. */
  lemma {:induction false} GuardedSince(ts: seq<State>, steps: seq<Step>, i: nat, f: nat) returns (g: nat)
    requires IsRun(ts, steps) && i < |ts| && f in ts[i].flights && Cleaning(ts[i].flights[f].phase)
    ensures g < i && steps[g].Guard? && steps[g].flight == f && f in ts[g].flights
    ensures ts[g].flights[f].name == ts[i].flights[f].name && ts[i].flights[f].name !in ts[g].vgs
    ensures ts[i].flights[f].name in ts[i].vgs ==>
              exists k :: g < k < i && steps[k].CreateElsewhere? && steps[k].name == ts[i].flights[f].name
  {
    hide Next, Inv;
    if i == 0 {
      assert false;
    } else {
      Holds(ts, steps, i - 1);
      assert At(ts, steps, i - 1);
      CleaningStep(ts[i - 1], steps[i - 1], ts[i], f);
      if Cleaning(ts[i - 1].flights[f].phase) {
        g := GuardedSince(ts, steps, i - 1, f);
      } else {
        g := i - 1;
      }
    }
  }

  /** The window of the one unsafe case: a cleanup that removes the file of a volume in metadata had
      its guard find no group, and another process made the group after that guard. */
  lemma CleanupWindow(ts: seq<State>, steps: seq<Step>, i: nat, id: VolumeId) returns (g: nat, k: nat)
    requires IsRun(ts, steps) && i < |steps| && steps[i].Remove?
    requires id in ts[i].files && id !in ts[i + 1].files && id in ts[i].lvs
    ensures g < k < i && steps[g].Guard? && steps[g].flight == steps[i].flight && id.vg !in ts[g].vgs
    ensures steps[k].CreateElsewhere? && steps[k].name == id.vg
  {
    hide Inv, DoCall, DoCheck, DoReconcile, DoList, DoRemoveDir, DoCreate, DoFetch, DoReturn, DoOther;
    assert At(ts, steps, i);
    Holds(ts, steps, i);
    EntriesNamed(ts[i], steps[i].flight);
    assert id == steps[i].entry;
    InMetadata(ts[i], id);
    g := GuardedSince(ts, steps, i, steps[i].flight);
    k :| g < k < i && steps[k].CreateElsewhere? && steps[k].name == id.vg;
  }
}
