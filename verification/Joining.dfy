/** uthread_join and uthread_exit over runs (src/uthread.c): a joiner comes back exactly once, after
    its target exited, with the target's exit value. */
module Joining {
  import opened Scheduling
  import opened Sync
  import opened Runs
  import opened Waking

  predicate IsExit(op: Op) {
    op.OnThread? && op.thread.Exit?
  }

  /** t is parked as the joiner of u. */
  ghost predicate Parked(s: Sched, t: Tid, u: Tid) {
    t in s.threads && s.threads[t].pc == Scheduling.Joining(u)
  }

  /** u has exited with v and its joiner t has been made ready. */
  ghost predicate Ready(s: Sched, t: Tid, u: Tid, v: int) {
    && t in s.threads && s.threads[t].pc == JoinWoken(u)
    && u in s.threads && s.threads[u].pc == Dead && s.threads[u].retval == v
  }

  /** t is back with v, and u is gone from the table. */
  ghost predicate Delivered(s: Sched, t: Tid, u: Tid, v: int) {
    t in s.threads && s.threads[t].pc == User && s.threads[t].joined == Some(v) && u !in s.threads
  }

  lemma Pair(s: Sched, t: Tid)
    requires Base(s) && t in s.threads && (s.threads[t].pc.Joining? || s.threads[t].pc.JoinWoken?)
    ensures var u := s.threads[t].pc.target;
      && u in s.threads && s.threads[u].joiner == Some(t)
      && (s.threads[t].pc.Joining? <==> s.threads[u].pc != Dead)
  {
    assert JoinOk(s.threads, t);
  }

  lemma ExitEffect(s: Sched, v: int, pick: nat, t: Tid)
    requires Live(s) && t in s.threads
    ensures var r, self := Scheduling.Exit(s, v, pick), s.current.value;
      && t in r.threads
      && (t == self ==> r.threads[t].pc == Dead && r.threads[t].retval == v)
      && (t != self ==> r.threads[t].retval == s.threads[t].retval)
      && (t != self ==>
        r.threads[t].pc == if s.threads[self].joiner == Some(t) then JoinWoken(self) else s.threads[t].pc)
  {
    JoinerParked(s);
    BuryRunq(s, v);
    ScheduleSame(Bury(s, v), pick);
    ScheduleFrame(Bury(s, v), pick);
  }

  lemma JoinEffect(s: Sched, x: Tid, pick: nat, t: Tid)
    requires Live(s) && x in s.threads && !JoinRefused(s, x) && t in s.threads && t != s.current.value
    requires s.threads[s.current.value].pc in {User, JoinWoken(x)} && (s.threads[t].pc == Dead ==> t != x)
    ensures var r := JoinRound(s, x, pick);
      t in r.threads && r.threads[t].pc == s.threads[t].pc && r.threads[t].retval == s.threads[t].retval
  {
    assert JoinOk(s.threads, s.current.value);
    if s.threads[x].pc != Dead {
      ParkLive(s, x);
      ScheduleSame(Park(s, x), pick);
      ScheduleFrame(Park(s, x), pick);
    }
  }

  /** A thread inside join, or exited, that is not the running one and is not freed by the event. */
  lemma Kept(k: Kernel, ev: Event, t: Tid)
    requires Inv(k) && Legal(k, ev) && t in k.s.threads && t != Self(k) && InJoin(PcOf(k, t))
    requires PcOf(k, t) == Dead ==> k.s.threads[t].joiner.Some? && k.s.threads[t].joiner != k.s.current
    requires IsExit(ev.op) ==> k.s.threads[Self(k)].joiner != Some(t)
    ensures var r := Step(k, ev).s;
      t in r.threads && r.threads[t].pc == PcOf(k, t) && r.threads[t].retval == k.s.threads[t].retval
  {
    if ev.op.Resume? {
      KeptByResume(k, ev.pick, t);
    } else if IsJoin(ev.op) {
      KeptByThread(k, ev, t);
    } else if ev.op.OnCond? {
      CondFrame(k, ev);
    } else {
      StepFrame(k, ev);
    }
  }

  lemma KeptByThread(k: Kernel, ev: Event, t: Tid)
    requires Inv(k) && Legal(k, ev) && IsJoin(ev.op) && t in k.s.threads && t != Self(k)
    requires PcOf(k, t) == Dead ==> k.s.threads[t].joiner.Some? && k.s.threads[t].joiner != k.s.current
    requires IsExit(ev.op) ==> k.s.threads[Self(k)].joiner != Some(t)
    ensures var r := ThreadStep(k, ev).s;
      t in r.threads && r.threads[t].pc == PcOf(k, t) && r.threads[t].retval == k.s.threads[t].retval
  {
    match ev.op.thread
    case Exit(v) => ExitEffect(k.s, v, ev.pick, t);
    case Join(u) => KeptByJoin(k, u, ev.pick, t);
  }

  lemma KeptByJoin(k: Kernel, x: Tid, pick: nat, t: Tid)
    requires Inv(k) && k.s.current.Some? && PcOf(k, Self(k)) == User && x in k.s.threads
    requires t in k.s.threads && t != Self(k)
    requires PcOf(k, t) == Dead ==> k.s.threads[t].joiner.Some? && k.s.threads[t].joiner != k.s.current
    ensures var r := StepJoin(k, x, pick).s;
      t in r.threads && r.threads[t].pc == PcOf(k, t) && r.threads[t].retval == k.s.threads[t].retval
  {
    if !JoinRefused(k.s, x) {
      JoinEffect(k.s, x, pick, t);
    }
  }

  lemma KeptByResume(k: Kernel, pick: nat, t: Tid)
    requires Inv(k) && k.s.current.Some? && PcOf(k, Self(k)) != User
    requires t in k.s.threads && t != Self(k) && InJoin(PcOf(k, t))
    requires PcOf(k, t) == Dead ==> k.s.threads[t].joiner.Some? && k.s.threads[t].joiner != k.s.current
    ensures var r := StepResume(k, pick).s;
      t in r.threads && r.threads[t].pc == PcOf(k, t) && r.threads[t].retval == k.s.threads[t].retval
  {
    ResumeKnown(k);
    if PcOf(k, Self(k)).Woken? {
      ResumeFrame(k, pick);
    } else {
      JoinEffect(k.s, PcOf(k, Self(k)).target, pick, t);
    }
  }

  lemma ParkedExit(k: Kernel, ev: Event, t: Tid)
    requires Inv(k) && Legal(k, ev) && IsExit(ev.op) && Parked(k.s, t, Self(k))
    ensures Ready(Step(k, ev).s, t, Self(k), ev.op.thread.v)
  {
    Pair(k.s, t);
    ExitEffect(k.s, ev.op.thread.v, ev.pick, t);
    ExitEffect(k.s, ev.op.thread.v, ev.pick, Self(k));
    assert ThreadStep(k, ev) == StepExit(k, ev.op.thread.v, ev.pick);
  }

  /** A parked joiner is made ready by its target's exit and by nothing else. */
  lemma ParkedStep(k: Kernel, ev: Event, t: Tid, u: Tid)
    requires Inv(k) && Legal(k, ev) && Parked(k.s, t, u)
    ensures var r := Step(k, ev).s;
      if Self(k) == u && IsExit(ev.op) then Ready(r, t, u, ev.op.thread.v) else Parked(r, t, u)
  {
    Pair(k.s, t);
    if Self(k) == u && IsExit(ev.op) {
      ParkedExit(k, ev, t);
    } else {
      if IsExit(ev.op) && k.s.threads[Self(k)].joiner == Some(t) {
        JoinerParked(k.s);
      }
      Kept(k, ev, t);
    }
  }

  /** A joiner made ready stays so until it runs, and then gets the exit value; meanwhile no other
      thread can join or free the target. */
  lemma ReadyStep(k: Kernel, ev: Event, t: Tid, u: Tid, v: int)
    requires Inv(k) && Legal(k, ev) && Ready(k.s, t, u, v)
    ensures var r := Step(k, ev).s;
      if Self(k) == t then Delivered(r, t, u, v) else Ready(r, t, u, v)
  {
    Pair(k.s, t);
    if Self(k) == t {
      ResumeKnown(k);
    } else {
      if IsExit(ev.op) {
        JoinerParked(k.s);
      }
      Kept(k, ev, t);
      Kept(k, ev, u);
    }
  }

  // ---------------------------------------------------------------- runs

  /** Thread t is inside uthread_join before and after every event of es. */
  ghost predicate JoinsThroughout(k: Kernel, es: seq<Event>, t: Tid)
    requires Inv(k) && Allowed(k, es)
    decreases |es|
  {
    && t in k.s.threads && (PcOf(k, t).Joining? || PcOf(k, t).JoinWoken?)
    && (es != [] ==> (StepInv(k, es[0]); JoinsThroughout(Step(k, es[0]), es[1..], t)))
  }

  /** The values with which thread u exits during es. */
  ghost function Exits(k: Kernel, es: seq<Event>, u: Tid): (r: seq<int>)
    requires Inv(k) && Allowed(k, es)
    decreases |es|
  {
    if es == [] then []
    else
      StepInv(k, es[0]);
      (if Self(k) == u && IsExit(es[0].op) then [es[0].op.thread.v] else []) + Exits(Step(k, es[0]), es[1..], u)
  }

  lemma {:induction false} ReadyRun(k: Kernel, es: seq<Event>, t: Tid, u: Tid, v: int)
    requires Inv(k) && Allowed(k, es) && Ready(k.s, t, u, v) && JoinsThroughout(k, es, t)
    ensures Ready(Run(k, es).s, t, u, v) && Exits(k, es, u) == []
    decreases |es|
  {
    if es != [] {
      StepInv(k, es[0]);
      ReadyStep(k, es[0], t, u, v);
      ReadyRun(Step(k, es[0]), es[1..], t, u, v);
    }
  }

  /** While t joins u, either u has not exited and t is parked, or u has exited exactly once and t
      is ready with that value in store. */
  lemma {:induction false} JoinRun(k: Kernel, es: seq<Event>, t: Tid, u: Tid)
    requires Inv(k) && Allowed(k, es) && Parked(k.s, t, u) && JoinsThroughout(k, es, t)
    ensures var r := Run(k, es).s;
      || (Parked(r, t, u) && Exits(k, es, u) == [])
      || (|Exits(k, es, u)| == 1 && Ready(r, t, u, Exits(k, es, u)[0]))
    decreases |es|
  {
    if es != [] {
      var ev := es[0];
      StepInv(k, ev);
      ParkedStep(k, ev, t, u);
      if Self(k) == u && IsExit(ev.op) {
        ReadyRun(Step(k, ev), es[1..], t, u, ev.op.thread.v);
      } else {
        JoinRun(Step(k, ev), es[1..], t, u);
      }
    }
  }

  /** Whenever uthread_join returns after parking, its target has exited exactly once since, and the
      joiner has received that exit value. */
  lemma JoinDelivers(k: Kernel, es: seq<Event>, ev: Event, t: Tid, u: Tid)
    requires Inv(k) && Allowed(k, es) && Parked(k.s, t, u) && JoinsThroughout(k, es, t)
    requires Legal(Run(k, es), ev) && t in Step(Run(k, es), ev).s.threads && PcOf(Step(Run(k, es), ev), t) == User
    ensures |Exits(k, es, u)| == 1 && Delivered(Step(Run(k, es), ev).s, t, u, Exits(k, es, u)[0])
  {
    var e := Run(k, es);
    JoinRun(k, es, t, u);
    if Parked(e.s, t, u) {
      ParkedStep(e, ev, t, u);
    } else {
      ReadyStep(e, ev, t, u, Exits(k, es, u)[0]);
    }
  }

  /** A second thread that tries to join u while t does is refused, with no effect. */
  lemma SecondJoinerRefused(k: Kernel, t: Tid, u: Tid, pick: nat)
    requires Inv(k) && t in k.s.threads && (PcOf(k, t) == Scheduling.Joining(u) || PcOf(k, t) == JoinWoken(u))
    requires Legal(k, Event(OnThread(Join(u)), pick))
    ensures JoinRefused(k.s, u) && Step(k, Event(OnThread(Join(u)), pick)) == k
  {
    Pair(k.s, t);
  }
}
