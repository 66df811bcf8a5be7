/** When exceptions in the workers can leave `map` waiting for ever. */
module ExecutorHang {
  import opened TaskLoop
  import opened ExecutorMachine
  import opened ExecutorProofs
  import opened ExecutorTheorems
  import opened ExecutorProgress
  import opened ExecutorTermination

  /** `map` has not returned, and no step of any kind is possible. */
  ghost predicate Stuck(s: State) {
    !CanReturn(s) && forall act: Action :: !Enabled(s, act)
  }

  ghost predicate Reaches(s0: State, s: State) {
    exists run, acts :: IsRun(run, acts) && run[0] == s0 && run[|acts|] == s
  }

  ghost predicate MayHang(s0: State) {
    exists s :: Reaches(s0, s) && Stuck(s)
  }

  lemma ReachesStep(s0: State, s: State, act: Action)
    requires Reaches(s0, s) && Enabled(s, act)
    ensures Reaches(s0, Apply(s, act))
  {
    var run, acts :| IsRun(run, acts) && run[0] == s0 && run[|acts|] == s;
    RunGrows(run, acts, act);
    assert (run + [Apply(s, act)])[|acts| + 1] == Apply(s, act);
  }

  lemma ReachesNone(s0: State)
    requires Initial(s0)
    ensures Reaches(s0, s0)
  {
    assert IsRun([s0], []);
  }

  // ---- With no more items than workers ----

  ghost function Fallen(workers: map<nat, Phase>): set<nat> {
    set w | w in workers && workers[w].Dead?
  }

  ghost function Crashes(places: seq<Place>): set<nat> {
    set i: nat | i < |places| && places[i] == Crashed
  }

  lemma FallenChange(workers: map<nat, Phase>, w: nat, p: Phase)
    requires w in workers && !workers[w].Dead?
    ensures |Fallen(workers[w := p])| == |Fallen(workers)| + if p.Dead? then 1 else 0
  {
    assert Fallen(workers[w := p]) == Fallen(workers) + if p.Dead? then {w} else {};
  }

  lemma CrashesChange(places: seq<Place>, i: nat, p: Place)
    requires i < |places| && places[i] != Crashed
    ensures |Crashes(places[i := p])| == |Crashes(places)| + if p == Crashed then 1 else 0
  {
    assert Crashes(places[i := p]) == Crashes(places) + if p == Crashed then {i} else {};
  }

  /** An exception ends one worker and loses one item; no other step does either. */
  lemma StepKeepsCounts(s: State, act: Action)
    requires Inv(s) && Enabled(s, act)
    requires |Fallen(s.workers)| == |Crashes(s.places)|
    ensures |Fallen(Apply(s, act).workers)| == |Crashes(Apply(s, act).places)|
  {
    var t, i := Apply(s, act), ItemOf(s, act);
    if act.Produce? {
      assert s.places[s.next] == Unsent;
      CrashesChange(s.places, s.next, Queued);
    } else {
      StepFate(s, act);
      assert Touches(s, t, act.w, i) by {
        StepUses(s, act);
      }
      FallenChange(s.workers, act.w, t.workers[act.w]);
      CrashesChange(s.places, i, t.places[i]);
    }
  }

  lemma StepFate(s: State, act: Action)
    requires Inv(s) && Enabled(s, act) && !act.Produce?
    ensures var t, i := Apply(s, act), ItemOf(s, act);
      && |t.places| == |s.places| == |s.items| && act.w in s.workers && act.w in t.workers
      && !s.workers[act.w].Dead? && s.places[i] != Crashed
      && (t.workers[act.w].Dead? <==> act.Raise?) && (t.places[i] == Crashed <==> act.Raise?)
  {
    if act.Take? {
      assert s.queue[0] in s.queue;
    }
  }

  lemma {:induction false} RunKeepsCounts(run: seq<State>, acts: seq<Action>, n: nat)
    requires IsRun(run, acts) && n < |run|
    ensures |Fallen(run[n].workers)| == |Crashes(run[n].places)|
  {
    if n == 0 {
      assert Fallen(run[0].workers) == {} && Crashes(run[0].places) == {};
    } else {
      RunKeepsCounts(run, acts, n - 1);
      RunInv(run, acts, n - 1);
      StepKeepsCounts(run[n - 1], acts[n - 1]);
    }
  }

  ghost function Below(n: nat): (r: set<nat>)
    ensures |r| == n && forall i: nat :: i in r <==> i < n
  {
    if n == 0 then {} else Below(n - 1) + {n - 1}
  }

  /** When every item was lost to an exception, nothing is left to wait for. */
  lemma AllCrashedReturns(s: State)
    requires Inv(s) && !SomeoneAlive(s) && |s.items| <= |s.workers|
    requires |Fallen(s.workers)| == |Crashes(s.places)|
    ensures CanReturn(s)
  {
    assert Fallen(s.workers) == s.workers.Keys;
    SameSize(Crashes(s.places), Below(|s.items|));
    forall i: nat | i < |s.items| ensures s.places[i] == Crashed {
      assert i in Below(|s.items|);
    }
    HeadIsQueued(s);
    assert Holders(s.workers) == {};
  }

  lemma HeadIsQueued(s: State)
    requires Inv(s)
    ensures s.queue != [] ==> s.places[s.queue[0]] == Queued
  {
    assert s.queue != [] ==> s.queue[0] in s.queue;
  }

  lemma SameSize(small: set<nat>, big: set<nat>)
    requires small <= big && |small| >= |big|
    ensures small == big
  {
    forall x | x in big ensures x in small {
      if x !in small {
        Subset(small, big - {x});
      }
    }
  }

  // ---- With more items than workers ----

  ghost predicate AtRest(s: State) {
    s.queue == [] && forall w :: w in s.workers ==> s.workers[w].Idle? || s.workers[w].Dead?
  }

  ghost function Alive(s: State): set<nat> {
    set w | w in s.workers && s.workers[w].Idle?
  }

  /** The worker takes the next item and an exception ends it. */
  lemma LoseOne(s0: State, s: State, w: nat) returns (t: State)
    requires Reaches(s0, s) && WellShaped(s) && AtRest(s) && w in Alive(s) && s.next < |s.items| && s.capacity > 0
    ensures Reaches(s0, t) && WellShaped(t) && AtRest(t) && t.items == s.items && t.capacity == s.capacity
    ensures t.next == s.next + 1 && Alive(t) == Alive(s) - {w}
  {
    var s1 := Apply(s, Produce);
    ReachesStep(s0, s, Produce);
    var s2 := Apply(s1, Take(w));
    ReachesStep(s0, s1, Take(w));
    TakenHolds(s1, w);
    t := Apply(s2, Raise(w));
    ReachesStep(s0, s2, Raise(w));
    assert t.workers == s.workers[w := Dead];
  }

  lemma TakenHolds(s: State, w: nat)
    requires Enabled(s, Take(w))
    ensures var t := Taken(s, w);
      && WellShaped(t) && t.workers == s.workers[w := t.workers[w]] && t.workers[w].Holds()
      && t.queue == s.queue[1..] && t.next == s.next && t.items == s.items && t.capacity == s.capacity
  {
  }

  lemma LoseAll(s0: State, s: State) returns (t: State)
    requires Reaches(s0, s) && WellShaped(s) && AtRest(s) && s.capacity > 0 && |Alive(s)| < |s.items| - s.next
    ensures Reaches(s0, t) && WellShaped(t) && t.queue == [] && t.capacity > 0 && t.next < |t.items| && !SomeoneAlive(t)
    decreases |Alive(s)|
  {
    t := s;
    if w :| w in Alive(s) {
      t := LoseOne(s0, s, w);
      t := LoseAll(s0, t);
    } else {
      assert forall w :: w in s.workers ==> w !in Alive(s);
    }
  }

  /** The producer goes on until the queue is full or every item is put. */
  lemma PutRest(s0: State, s: State) returns (t: State)
    requires Reaches(s0, s) && WellShaped(s) && !SomeoneAlive(s)
    requires |s.queue| > 0 || CanPut(s)
    ensures Reaches(s0, t) && !SomeoneAlive(t) && |t.queue| > 0 && !CanPut(t)
    decreases |s.items| - s.next
  {
    t := s;
    if CanPut(s) {
      ReachesStep(s0, s, Produce);
      t := PutRest(s0, Apply(s, Produce));
    }
  }

  lemma HangsBeyondPool(s0: State) returns (s: State)
    requires Initial(s0) && Usable(s0) && |s0.items| > |s0.workers|
    ensures Reaches(s0, s) && Stuck(s)
  {
    ReachesNone(s0);
    assert Alive(s0) == s0.workers.Keys;
    s := LoseAll(s0, s0);
    s := PutRest(s0, s);
    var run, acts :| IsRun(run, acts) && run[0] == s0 && run[|acts|] == s;
    RunInv(run, acts, |acts|);
    forall act: Action ensures !Enabled(s, act) {
      DeadPoolIsStuck(s, act);
    }
  }

  // ---- The exact condition ----

  /**
   * If exceptions may end workers, `map` has a schedule on which it waits for ever exactly when there
   * are more items than workers.
   */
  lemma MapHangsExactly(s0: State)
    requires Initial(s0) && Usable(s0)
    ensures MayHang(s0) <==> |s0.items| > |s0.workers|
  {
    if |s0.items| > |s0.workers| {
      var s := HangsBeyondPool(s0);
    } else if MayHang(s0) {
      var s :| Reaches(s0, s) && Stuck(s);
      var run, acts :| IsRun(run, acts) && run[0] == s0 && run[|acts|] == s;
      RunInv(run, acts, |acts|);
      MapGoesOnExactly(run, acts, |acts|);
      RunKeepsCounts(run, acts, |acts|);
      assert |s.workers.Keys| == |s0.workers.Keys|;
      AllCrashedReturns(s);
    }
  }

  /** One worker and two items: one exception is enough. */
  lemma MapHangs() returns (s0: State, s: State)
    ensures Initial(s0) && s0.items == ["a", "b"] && |s0.workers| == 1 && s0.capacity == 2
    ensures Reaches(s0, s) && Stuck(s)
  {
    s0 := Fresh(Config(1, 3, 0, true), ["a", "b"], 2);
    s := HangsBeyondPool(s0);
  }
}
