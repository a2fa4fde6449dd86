/** Four runs from the initial state in which a request is merged into an owner and nobody attends to it. */
module FencingUnattended {
  import opened Base
  import opened ReconcilerRow
  import opened Transitions
  import opened ProcessTable
  import opened Fencing
  import opened FencingProgress
  import opened FencingCoalescing
  import Runs = FencingRuns

  const FIRST: Fresh := Fresh("a", "x", 10, 11, 12, "i")
  const SECOND: Fresh := Fresh("b", "y", 20, 21, 22, "i")

  lemma NamesSaySomething()
    ensures NonBlank("a") && NonBlank("x") && NonBlank("b") && NonBlank("y") && NonBlank("i") && NonBlank("j")
    ensures "a" != "x" && "b" != "y" && "b" != "a" && "b" != "x" && "y" != "a" && "y" != "x" && "i" != "j"
  {
    assert !IsSpace("a"[0]) && !IsSpace("x"[0]) && !IsSpace("b"[0]) && !IsSpace("y"[0]) && !IsSpace("i"[0])
        && !IsSpace("j"[0]);
    assert "a"[0] != "x"[0] && "b"[0] != "y"[0] && "b"[0] != "a"[0] && "b"[0] != "x"[0] && "y"[0] != "a"[0]
        && "y"[0] != "x"[0];
    assert "i"[0] != "j"[0];
  }

  /** Nothing of the second launcher's names and numbers is taken. */
  predicate Room(s: Sys) {
    && s.usedTokens <= {"a", "x"}
    && (forall p :: p in s.table ==> p in {10, 11} && s.table[p].group in {10, 11})
    && (forall b :: b in s.born ==> b.0 in {10, 11})
  }

  /** The row names the first launcher, with nothing completed yet. */
  predicate NamesFirst(row: State) {
    && row.owner.Some? && row.owner.value.token == "a" && row.owner.value.pid == 10 && row.owner.value.identity == "i"
    && row.completed == 0 && row.requested == 1
  }

  lemma InitIsOpen()
    ensures Available(INIT, FIRST) && Free(INIT.row) && Leads(INIT, INIT)
  {
    NamesSaySomething();
    assert Runs.Possible(INIT, []) && Runs.After(INIT, []) == INIT;
  }

  lemma FirstOwns() returns (u: Sys)
    ensures Leads(INIT, u) && Room(u) && NamesFirst(u.row) && Owns(u, FIRST, 1) && u.row.execution.None?
    ensures u.launchers == map["a" := Launcher(10, "i", Recovering(1))] && Spare(u, FIRST)
    ensures u.table == map[10 := Process("i", 10, LauncherRole("a"))] && u.born == {(10, "i")}
  {
    hide Enabled, Apply, Leads, CanSpawn, Available, Spare;
    InitIsOpen();
    var a, step := Enters(INIT, FIRST);
    LeadsOn(INIT, INIT, step);
    u := LeadsToOwner(INIT, a, FIRST);
  }

  lemma RoomForSecond(s: Sys)
    requires Room(s)
    ensures Available(s, SECOND)
  {
    NamesSaySomething();
  }

  /** The second launcher looks at an owner that seems alive. */
  lemma SeesAnOwner(s: Sys, f: Fresh, unreadable: bool) returns (v: Sys, step: Step)
    requires At(s, f, Looked(0, s.row)) && OwnerSeemsAlive(s.table, s.row, unreadable)
    ensures Enabled(s, step) && v == Apply(s, step)
    ensures At(v, f, Probed(0, s.row, true)) && v.row == s.row && OnlyMoves(s, v, f.token)
  {
    step := Probe(f.token, unreadable);
    v := Apply(s, step);
  }

  /** The second launcher, invoked, has found the owner alive, rightly or not. */
  lemma SecondArrives(s: Sys, unreadable: bool) returns (v: Sys)
    requires Leads(INIT, s) && Room(s) && NamesFirst(s.row) && OwnerSeemsAlive(s.table, s.row, unreadable)
    ensures Leads(INIT, v) && At(v, SECOND, Probed(0, v.row, true)) && v.row == s.row
    ensures v.launchers == s.launchers["b" := Launcher(20, "i", Probed(0, s.row, true))]
    ensures v.table == s.table[20 := Process("i", 20, LauncherRole("b"))]
  {
    RoomForSecond(s);
    hide Enabled, Apply, Leads, Available, Spare, Room;
    var a, step := Enters(s, SECOND);
    LeadsOn(INIT, s, step);
    v := SecondProbes(a, unreadable);
  }

  lemma SecondProbes(a: Sys, unreadable: bool) returns (v: Sys)
    requires Leads(INIT, a) && At(a, SECOND, Admitting(0)) && Spare(a, SECOND)
             && OwnerSeemsAlive(a.table, a.row, unreadable)
    ensures Leads(INIT, v) && At(v, SECOND, Probed(0, v.row, true)) && v.row == a.row && OnlyMoves(a, v, "b")
  {
    hide Enabled, Apply, Leads, Spare, OwnerSeemsAlive;
    var b, step := Looks(a, SECOND);
    LeadsOn(INIT, a, step);
    assert b.table == a.table;
    v, step := SeesAnOwner(b, SECOND, unreadable);
    LeadsOn(INIT, b, step);
    hide OnlyMoves;
    OnlyMovesOn(a, b, v, "b");
  }

  const MERGE := TryAdmit("b", Registrant("b", 20, 0, "i", "i", "i", None, 0))

  /** It merges its request: nobody is working, and nobody will until the next invocation. */
  ghost predicate LeftWaiting(s: Sys) {
    && Leads(INIT, s) && Enabled(s, MERGE) && Coalesces(s, MERGE) && !Attended(Apply(s, MERGE))
    && Apply(s, MERGE).row.completed == 0 && Apply(s, MERGE).row.requested == 2
  }

  lemma MergesUnattended(s: Sys)
    requires Leads(INIT, s) && At(s, SECOND, Probed(0, s.row, true)) && NamesFirst(s.row)
    requires forall k :: k in s.launchers && k != "b" ==> !Working(s.launchers[k].pc)
    ensures LeftWaiting(s)
  {
    NamesSaySomething();
    var u := Apply(s, MERGE);
    assert u.launchers == s.launchers["b" := s.launchers["b"].(pc := u.launchers["b"].pc)];
    hide Leads;
  }

  /** First way: the owner was alive when probed and is dead when the merge commits. */
  lemma OwnerDiesBeforeTheMerge() returns (s: Sys)
    ensures LeftWaiting(s) && s.row.owner.Some? && s.row.owner.value.pid !in s.table
  {
    var a := FirstOwns();
    var b := SecondArrives(a, false);
    assert Enabled(b, Crash("a"));
    s := Apply(b, Crash("a"));
    LeadsOn(INIT, b, Crash("a"));
    hide Leads, LeftWaiting;
    MergesUnattended(s);
  }

  /** Second way: the owner was dead already, and its pid names a process whose identity could not be read. */
  lemma StrangerOnTheOwnersPid() returns (s: Sys)
    ensures LeftWaiting(s) && s.row.owner.Some?
    ensures s.row.owner.value.pid in s.table && s.table[s.row.owner.value.pid].identity != s.row.owner.value.identity
  {
    var a := FirstOwns();
    assert (10, "j") !in a.born by {
      NamesSaySomething();
    }
    var b := StrangerMovesIn(a);
    s := SecondArrives(b, true);
    hide Leads, LeftWaiting;
    NamesSaySomething();
    MergesUnattended(s);
  }

  lemma StrangerMovesIn(a: Sys) returns (b: Sys)
    requires Leads(INIT, a) && Room(a) && NamesFirst(a.row) && a.table == map[10 := Process("i", 10, LauncherRole("a"))]
    requires a.launchers == map["a" := Launcher(10, "i", Recovering(1))] && (10, "j") !in a.born
    ensures Leads(INIT, b) && Room(b) && b.row == a.row && b.launchers == map[]
    ensures b.table == map[10 := Process("j", 10, Unrelated)]
  {
    NamesSaySomething();
    assert Enabled(a, Crash("a"));
    var c := Apply(a, Crash("a"));
    LeadsOn(INIT, a, Crash("a"));
    assert Enabled(c, Outsider(10, "j", 10));
    b := Apply(c, Outsider(10, "j", 10));
    LeadsOn(INIT, c, Outsider(10, "j", 10));
    hide Leads;
  }

  /** Third way: the owner is alive, but has left; its release was refused because an execution is recorded. */
  lemma OwnerHasLeft() returns (s: Sys)
    ensures LeftWaiting(s) && s.row.owner.Some? && s.row.owner.value.token in s.launchers
    ensures s.launchers[s.row.owner.value.token].pc.Done? && s.row.execution.Some?
    ensures SameProcess(s.table, s.row.owner.value.pid, s.row.owner.value.identity)
  {
    var a := FirstOwns();
    var b := FirstRecords(a);
    var abandoned := FirstAbandons(b);
    var c := FirstLeaves(abandoned);
    s := SecondArrives(c, false);
    hide Leads, LeftWaiting;
    MergesUnattended(s);
  }

  lemma FirstRecords(a: Sys) returns (b: Sys)
    requires Leads(INIT, a) && Room(a) && NamesFirst(a.row) && Owns(a, FIRST, 1) && a.row.execution.None?
    requires a.launchers == map["a" := Launcher(10, "i", Recovering(1))] && Spare(a, FIRST)
    requires a.table == map[10 := Process("i", 10, LauncherRole("a"))]
    ensures Leads(INIT, b) && Room(b) && NamesFirst(b.row) && Owns(b, FIRST, 1) && b.row.execution.Some?
    ensures b.launchers == map["a" := Launcher(10, "i", Recorded(1, BoundaryFor(FIRST)))]
    ensures 10 in b.table && b.table[10].identity == "i"
  {
    hide Enabled, Apply, Leads, CanSpawn, Spare;
    var c, d, e, step;
    c, step := FindsNoPrior(a, FIRST, 1);
    LeadsOn(INIT, a, step);
    d, step := Prepares(c, FIRST, 1);
    LeadsOn(INIT, c, step);
    e, step := Spawns(d, FIRST, 1);
    LeadsOn(INIT, d, step);
    b, step := Records(e, FIRST, 1);
    LeadsOn(INIT, e, step);
  }

  lemma FirstAbandons(a: Sys) returns (b: Sys)
    requires Leads(INIT, a) && a.launchers == map["a" := Launcher(10, "i", Recorded(1, BoundaryFor(FIRST)))]
    ensures Leads(INIT, b) && b == a.(launchers := map["a" := Launcher(10, "i", Leaving)])
  {
    b := Apply(a, Abandon("a"));
    LeadsOn(INIT, a, Abandon("a"));
    hide Leads;
  }

  lemma FirstLeaves(a: Sys) returns (b: Sys)
    requires Leads(INIT, a) && a.row.execution.Some? && a.launchers == map["a" := Launcher(10, "i", Leaving)]
    ensures Leads(INIT, b) && b == a.(launchers := map["a" := Launcher(10, "i", Done)])
  {
    b := Apply(a, Leave("a"));
    LeadsOn(INIT, a, Leave("a"));
    hide Leads;
  }

  /** Fourth way: the owner is alive, but was cancelled, and is terminating its execution. */
  lemma OwnerIsCleaningUp() returns (s: Sys)
    ensures LeftWaiting(s) && s.row.owner.Some? && s.row.owner.value.token in s.launchers
    ensures s.launchers[s.row.owner.value.token].pc.Stopping?
    ensures SameProcess(s.table, s.row.owner.value.pid, s.row.owner.value.identity)
  {
    var a := FirstOwns();
    var b := FirstRecords(a);
    var c := FirstGivesUp(b);
    s := SecondArrives(c, false);
    hide Leads, LeftWaiting;
    MergesUnattended(s);
  }

  lemma FirstGivesUp(a: Sys) returns (b: Sys)
    requires Leads(INIT, a) && a.launchers == map["a" := Launcher(10, "i", Recorded(1, BoundaryFor(FIRST)))]
    ensures Leads(INIT, b)
    ensures b == a.(launchers := map["a" := Launcher(10, "i", Stopping(1, BoundaryFor(FIRST), true))])
  {
    b := Apply(a, GiveUp("a"));
    LeadsOn(INIT, a, GiveUp("a"));
    hide Leads;
  }
}
