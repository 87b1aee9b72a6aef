/** One thread of the runtime through its life. */
module RuntimeThreads {
  import opened Options
  import opened Network
  import opened Runtime
  import opened RuntimeTheorems

  /** Thread `t` is there in every state from i to j. */
  ghost predicate Alive(states: seq<Machine>, t: nat, i: nat, j: nat)
    requires i <= j < |states|
  {
    forall k :: i <= k <= j ==> t in states[k].mem.threads
  }

  lemma OthersLeaveIt(s: Machine, e: Event, s': Machine, t: nat)
    requires Enabled(s, e) && s' == Apply(s, e) && !e.Crash? && t in s.mem.threads && !(e.Advance? && e.t == t)
    ensures t in s'.mem.threads && s'.mem.threads[t] == s.mem.threads[t]
  {
  }

  lemma ItsOwnStep(s: Machine, e: Event, s': Machine, t: nat)
    requires Enabled(s, e) && s' == Apply(s, e) && e.Advance? && e.t == t
    ensures t in s'.mem.threads <==> NextPc(s, s.mem.threads[t], e.c).Some?
    ensures t in s'.mem.threads ==> NextPc(s, s.mem.threads[t], e.c) == Some(s'.mem.threads[t])
  {
  }

  /** The last event of thread `t`. */
  ghost predicate Ends(s: Machine, e: Event, s': Machine, t: nat) {
    e.Advance? && e.t == t && t in s.mem.threads && t !in s'.mem.threads
  }

  lemma EndsItself(background: set<RouteSpec>, states: seq<Machine>, events: seq<Event>, j: nat, t: nat)
    requires IsRun(background, states, events) && j < |events| && Ends(states[j], events[j], states[j + 1], t)
    ensures NextPc(states[j], states[j].mem.threads[t], events[j].c) == None
    ensures states[j + 1].mem.status == Effect(states[j], states[j].mem.threads[t], events[j].c).mem.status
  {
    RunStep(background, states, events, j);
    ItsOwnStep(states[j], events[j], states[j + 1], t);
  }

  /** A thread at one of these places does not leave them but by ending. */
  ghost predicate Lasting(places: Pc -> bool) {
    forall s, pc, c :: places(pc) && NextPc(s, pc, c).Some? ==> places(NextPc(s, pc, c).value)
  }

  ghost predicate StaysThere(s: Machine, s': Machine, t: nat, places: Pc -> bool) {
    && t in s.mem.threads && t in s'.mem.threads
    && (places(s.mem.threads[t]) ==> places(s'.mem.threads[t]))
  }

  lemma ThreadStep(background: set<RouteSpec>, states: seq<Machine>, events: seq<Event>, t: nat, places: Pc -> bool, k: nat)
    requires IsRun(background, states, events) && k < |events| && !events[k].Crash? && Lasting(places)
    requires t in states[k].mem.threads && t in states[k + 1].mem.threads
    ensures StaysThere(states[k], states[k + 1], t, places)
  {
    RunStep(background, states, events, k);
    if events[k].Advance? && events[k].t == t {
      ItsOwnStep(states[k], events[k], states[k + 1], t);
    } else {
      OthersLeaveIt(states[k], events[k], states[k + 1], t);
    }
  }

  lemma {:induction false} ThreadAlong(states: seq<Machine>, t: nat, places: Pc -> bool, i: nat, j: nat)
    requires i <= j < |states| && t in states[i].mem.threads && places(states[i].mem.threads[t])
    requires forall k :: i <= k < j ==> StaysThere(states[k], states[k + 1], t, places)
    ensures t in states[j].mem.threads && places(states[j].mem.threads[t])
    decreases j
  {
    if i < j {
      ThreadAlong(states, t, places, i, j - 1);
      assert StaysThere(states[j - 1], states[j], t, places);
    }
  }

  lemma ThreadStays(background: set<RouteSpec>, states: seq<Machine>, events: seq<Event>, t: nat, places: Pc -> bool,
                    i: nat, j: nat)
    requires IsRun(background, states, events) && i <= j < |states| && NoCrash(events, i, j) && Alive(states, t, i, j)
    requires Lasting(places) && places(states[i].mem.threads[t])
    ensures places(states[j].mem.threads[t])
  {
    forall k | i <= k < j
      ensures StaysThere(states[k], states[k + 1], t, places)
    {
      ThreadStep(background, states, events, t, places, k);
    }
    ThreadAlong(states, t, places, i, j);
  }
}
