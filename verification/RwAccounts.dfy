/** Read-write locks over runs (src/rwlock.c): who holds a lock and how often, counted from the events. */
module RwAccounts {
  import opened Scheduling
  import opened Sync
  import opened Runs
  import opened Guarantees
  import RwLocks

  datatype Request = Nothing | ToRead(w: nat) | ToWrite(w: nat) | ToRelease(w: nat)

  /** What an event asks of a lock: a call to lock it or to try to, a woken waiter that checks again, or
      an unlock. */
  function RequestOf(op: Op, pc: Pc): (q: Request) {
    match op
    case OnRw(RdLock(w)) => ToRead(w)
    case OnRw(TryRdLock(w)) => ToRead(w)
    case OnRw(WrLock(w)) => ToWrite(w)
    case OnRw(TryWrLock(w)) => ToWrite(w)
    case OnRw(RwUnlock(w)) => ToRelease(w)
    case Resume => (
      match pc
      case Woken(GetRead(w)) => ToRead(w)
      case Woken(GetWrite(w)) => ToWrite(w)
      case _ => Nothing)
    case _ => Nothing
  }

  /** What the running thread asks for by the event. */
  ghost function Asked(k: Kernel, ev: Event): (q: Request)
    requires Inv(k) && k.s.current.Some?
  {
    RequestOf(ev.op, PcOf(k, Self(k)))
  }

  /** Nobody writes, and no writer seeks the lock. */
  ghost predicate OpenToRead(k: Kernel, w: nat)
    requires w in k.rws
  {
    k.rws[w].writeHolders == multiset{} && Seekers(k.s, GetWrite(w)) == {}
  }

  /** Nobody reads or writes. */
  ghost predicate OpenToWrite(k: Kernel, w: nat)
    requires w in k.rws
  {
    k.rws[w].writeHolders == multiset{} && k.rws[w].readHolders == multiset{}
  }

  /** The holds h after thread t has gained one or lost one. */
  ghost function After(h: multiset<Tid>, gains: bool, loses: bool, t: Tid): (r: multiset<Tid>) {
    if gains then h + multiset{t} else if loses then h - multiset{t} else h
  }

  /** What a request of thread self does to the holders of w: it is granted exactly when the lock is open
      to it; an unlock by the write holder takes its hold, one by a read holder exactly one of its
      holds; nothing else does either. */
  ghost predicate Moves(k: Kernel, q: Request, w: nat, r: Kernel)
    requires k.s.current.Some?
  {
    && w in k.rws && w in r.rws
    && var self, u, v := Self(k), k.rws[w], r.rws[w];
    && v.readHolders == After(u.readHolders, q == ToRead(w) && OpenToRead(k, w),
                              q == ToRelease(w) && self !in u.writeHolders, self)
    && v.writeHolders == After(u.writeHolders, q == ToWrite(w) && OpenToWrite(k, w),
                               q == ToRelease(w) && self in u.writeHolders, self)
  }

  /** The fields say who holds the lock. */
  predicate Whole(u: Rw) {
    && u.readers == |u.readHolders|
    && (u.writer == 0 || u.writer == 1)
    && (u.writer == 1 <==> u.owner.Some?)
    && u.writeHolders == (if u.owner.Some? then multiset{u.owner.value} else multiset{})
    && (u.writer == 1 ==> u.readers == 0)
  }

  lemma FieldsTell(k: Kernel, w: nat)
    requires Inv(k) && w in k.rws
    ensures Whole(k.rws[w]) && Told(k, w)
  {
    assert RwAt(k.s, w, k.rws[w]);
  }

  /** The lock is open as its fields say. */
  ghost predicate Told(k: Kernel, w: nat) {
    && w in k.rws
    && (OpenToRead(k, w) <==> !RwLocks.ReadBlocked(k.rws[w]))
    && (OpenToWrite(k, w) <==> !RwLocks.WriteBlocked(k.rws[w]))
  }

  /** Granting a request or not, when that is all that changes. */
  lemma ReadMoves(k: Kernel, a: nat, w: nat, r: Kernel)
    requires k.s.current.Some? && a in k.rws && Told(k, w)
    requires r.rws == k.rws[a := if RwLocks.ReadBlocked(k.rws[a]) then k.rws[a] else RwLocks.Reading(k.rws[a], Self(k))]
    ensures Moves(k, ToRead(a), w, r)
  {
  }

  lemma WriteMoves(k: Kernel, a: nat, w: nat, pending: int, r: Kernel)
    requires k.s.current.Some? && a in k.rws && Told(k, w)
    requires r.rws == k.rws[a := (if RwLocks.WriteBlocked(k.rws[a]) then k.rws[a]
                                  else RwLocks.Writing(k.rws[a], Self(k))).(pending := pending)]
    ensures Moves(k, ToWrite(a), w, r)
  {
  }

  lemma TakeReadMoves(k: Kernel, a: nat, pick: nat, w: nat)
    requires Live(k.s) && a in k.rws && Told(k, w)
    ensures Moves(k, ToRead(a), w, RwLocks.TakeRead(k, a, pick))
  {
    ReadMoves(k, a, w, RwLocks.TakeRead(k, a, pick));
  }

  lemma TryReadMoves(k: Kernel, a: nat, w: nat)
    requires Live(k.s) && a in k.rws && Told(k, w)
    ensures Moves(k, ToRead(a), w, RwLocks.TryRead(k, a))
  {
    assert k.rws[a := k.rws[a]] == k.rws;
    ReadMoves(k, a, w, RwLocks.TryRead(k, a));
  }

  lemma TakeWriteMoves(k: Kernel, a: nat, u: Rw, pick: nat, w: nat)
    requires Live(k.s) && a in k.rws && Told(k, w) && u == k.rws[a].(pending := u.pending)
    ensures Moves(k, ToWrite(a), w, RwLocks.TakeWrite(k, a, u, pick))
  {
    var r := RwLocks.TakeWrite(k, a, u, pick);
    WriteMoves(k, a, w, r.rws[a].pending, r);
  }

  lemma TryWriteMoves(k: Kernel, a: nat, w: nat)
    requires Live(k.s) && a in k.rws && Told(k, w)
    ensures Moves(k, ToWrite(a), w, RwLocks.TryWrite(k, a))
  {
    assert k.rws[a := k.rws[a]] == k.rws;
    WriteMoves(k, a, w, k.rws[a].pending, RwLocks.TryWrite(k, a));
  }

  lemma UnlockMoves(k: Kernel, a: nat, w: nat)
    requires Live(k.s) && a in k.rws && w in k.rws && Whole(k.rws[w]) && RwLocks.MayRwUnlock(k, a)
    ensures Moves(k, ToRelease(a), w, RwLocks.RwUnlock(k, a))
  {
    var r := RwLocks.RwUnlock(k, a);
    if a == w {
      Releases(k.rws[w], Self(k));
      assert r.rws[w] == Released(k.rws[w], Self(k));
    } else {
      assert r.rws[w] == k.rws[w];
    }
  }

  /** What an unlock leaves. */
  function Released(u: Rw, self: Tid): (v: Rw) {
    if u.writer != 0 then if u.owner != Some(self) then u else RwLocks.DoneWriting(u, self)
    else if u.readers > 0 then RwLocks.DoneReading(u, self)
    else u
  }

  lemma Releases(u: Rw, self: Tid)
    requires Whole(u) && (u.writer == 0 && u.readers > 0 ==> self in u.readHolders)
    ensures var v := Released(u, self);
      && v.readHolders == After(u.readHolders, false, self !in u.writeHolders, self)
      && v.writeHolders == After(u.writeHolders, false, self in u.writeHolders, self)
  {
    if u.readers == 0 {
      NoReaders(u);
    }
  }

  lemma NoReaders(u: Rw)
    requires Whole(u) && u.readers == 0
    ensures u.readHolders == multiset{}
  {
  }

  lemma NothingMoves(k: Kernel, w: nat, r: Kernel)
    requires k.s.current.Some? && w in k.rws && r.rws == k.rws
    ensures Moves(k, Nothing, w, r)
  {
  }

  lemma ResumeElsewhere(k: Kernel, pick: nat)
    requires Inv(k) && k.s.current.Some? && PcOf(k, Self(k)) != User
    requires !(PcOf(k, Self(k)).Woken? && (PcOf(k, Self(k)).goal.GetRead? || PcOf(k, Self(k)).goal.GetWrite?))
    ensures StepResume(k, pick).rws == k.rws
  {
    ResumeKnown(k);
  }

  lemma ResumeIsRead(k: Kernel, pick: nat)
    requires Inv(k) && k.s.current.Some? && PcOf(k, Self(k)).Woken? && PcOf(k, Self(k)).goal.GetRead?
    ensures var a := PcOf(k, Self(k)).goal.r; a in k.rws && StepResume(k, pick) == RwLocks.TakeRead(k, a, pick)
  {
    ResumeKnown(k);
  }

  lemma ResumeIsWrite(k: Kernel, pick: nat)
    requires Inv(k) && k.s.current.Some? && PcOf(k, Self(k)).Woken? && PcOf(k, Self(k)).goal.GetWrite?
    ensures var a := PcOf(k, Self(k)).goal.r;
      a in k.rws && StepResume(k, pick) == RwLocks.TakeWrite(k, a, k.rws[a], pick)
  {
    ResumeKnown(k);
  }

  lemma ResumeMoves(k: Kernel, pick: nat, w: nat)
    requires Inv(k) && w in k.rws && k.s.current.Some? && PcOf(k, Self(k)) != User
    ensures Moves(k, RequestOf(Resume, PcOf(k, Self(k))), w, StepResume(k, pick))
  {
    var pc := PcOf(k, Self(k));
    if pc.Woken? && pc.goal.GetRead? {
      assert RequestOf(Resume, pc) == ToRead(pc.goal.r);
      ResumeReads(k, pick, w);
    } else if pc.Woken? && pc.goal.GetWrite? {
      assert RequestOf(Resume, pc) == ToWrite(pc.goal.r);
      ResumeWrites(k, pick, w);
    } else {
      assert RequestOf(Resume, pc) == Nothing;
      ResumeElsewhere(k, pick);
      NothingMoves(k, w, StepResume(k, pick));
    }
  }

  lemma ResumeReads(k: Kernel, pick: nat, w: nat)
    requires Inv(k) && w in k.rws && k.s.current.Some? && PcOf(k, Self(k)).Woken? && PcOf(k, Self(k)).goal.GetRead?
    ensures Moves(k, ToRead(PcOf(k, Self(k)).goal.r), w, StepResume(k, pick))
  {
    FieldsTell(k, w);
    ResumeIsRead(k, pick);
    TakeReadMoves(k, PcOf(k, Self(k)).goal.r, pick, w);
  }

  lemma ResumeWrites(k: Kernel, pick: nat, w: nat)
    requires Inv(k) && w in k.rws && k.s.current.Some? && PcOf(k, Self(k)).Woken? && PcOf(k, Self(k)).goal.GetWrite?
    ensures Moves(k, ToWrite(PcOf(k, Self(k)).goal.r), w, StepResume(k, pick))
  {
    FieldsTell(k, w);
    ResumeIsWrite(k, pick);
    TakeWriteMoves(k, PcOf(k, Self(k)).goal.r, k.rws[PcOf(k, Self(k)).goal.r], pick, w);
  }

  lemma RdLockMoves(k: Kernel, ev: Event, w: nat)
    requires Inv(k) && Legal(k, ev) && w in k.rws && ev.op.OnRw? && ev.op.rw.RdLock?
    ensures Moves(k, ToRead(ev.op.rw.w), w, RwStep(k, ev))
  {
    FieldsTell(k, w);
    RdLockIs(k, ev);
    TakeReadMoves(k, ev.op.rw.w, ev.pick, w);
  }

  lemma TryRdLockMoves(k: Kernel, ev: Event, w: nat)
    requires Inv(k) && Legal(k, ev) && w in k.rws && ev.op.OnRw? && ev.op.rw.TryRdLock?
    ensures Moves(k, ToRead(ev.op.rw.w), w, RwStep(k, ev))
  {
    FieldsTell(k, w);
    TryRdLockIs(k, ev);
    TryReadMoves(k, ev.op.rw.w, w);
  }

  lemma WrLockMoves(k: Kernel, ev: Event, w: nat)
    requires Inv(k) && Legal(k, ev) && w in k.rws && ev.op.OnRw? && ev.op.rw.WrLock?
    ensures Moves(k, ToWrite(ev.op.rw.w), w, RwStep(k, ev))
  {
    var a := ev.op.rw.w;
    FieldsTell(k, w);
    WrLockIs(k, ev);
    TakeWriteMoves(k, a, k.rws[a].(pending := k.rws[a].pending + 1), ev.pick, w);
  }

  lemma TryWrLockMoves(k: Kernel, ev: Event, w: nat)
    requires Inv(k) && Legal(k, ev) && w in k.rws && ev.op.OnRw? && ev.op.rw.TryWrLock?
    ensures Moves(k, ToWrite(ev.op.rw.w), w, RwStep(k, ev))
  {
    FieldsTell(k, w);
    TryWrLockIs(k, ev);
    TryWriteMoves(k, ev.op.rw.w, w);
  }

  lemma RwUnlockMoves(k: Kernel, ev: Event, w: nat)
    requires Inv(k) && Legal(k, ev) && w in k.rws && ev.op.OnRw? && ev.op.rw.RwUnlock?
    ensures Moves(k, ToRelease(ev.op.rw.w), w, RwStep(k, ev))
  {
    FieldsTell(k, w);
    RwUnlockIs(k, ev);
    UnlockMoves(k, ev.op.rw.w, w);
  }

  lemma CallMoves(k: Kernel, ev: Event, w: nat)
    requires Inv(k) && Legal(k, ev) && w in k.rws && ev.op.OnRw?
    ensures Moves(k, Asked(k, ev), w, RwStep(k, ev))
  {
    match ev.op.rw
    case RdLock(_) => RdLockMoves(k, ev, w);
    case TryRdLock(_) => TryRdLockMoves(k, ev, w);
    case WrLock(_) => WrLockMoves(k, ev, w);
    case TryWrLock(_) => TryWrLockMoves(k, ev, w);
    case RwUnlock(_) => RwUnlockMoves(k, ev, w);
  }

  lemma Elsewhere(k: Kernel, ev: Event, w: nat)
    requires Inv(k) && Legal(k, ev) && w in k.rws && !ev.op.OnRw? && ev.op != Resume
    ensures Moves(k, Asked(k, ev), w, Step(k, ev))
  {
    match ev.op {
      case OnMutex(_) => MutexShuts(k, ev);
      case OnCond(_) => CondShuts(k, ev);
      case OnSem(_) => SemShuts(k, ev);
      case OnThread(_) => ThreadShuts(k, ev);
    }
    NothingMoves(k, w, Step(k, ev));
  }

  lemma StepMoves(k: Kernel, ev: Event, w: nat)
    requires Inv(k) && Legal(k, ev) && w in k.rws
    ensures Moves(k, Asked(k, ev), w, Step(k, ev))
  {
    match ev.op
    case OnRw(_) => CallMoves(k, ev, w);
    case Resume => ResumeMoves(k, ev.pick, w);
    case _ => Elsewhere(k, ev, w);
  }

  // ---------------------------------------------------------------- over runs

  /** What is counted: grants and releases, for reading and for writing. */
  datatype Tally = ReadGrants | ReadReleases | WriteGrants | WriteReleases

  /** The event counts for thread t and lock w. */
  ghost predicate Counts(k: Kernel, ev: Event, t: Tid, w: nat, what: Tally)
    requires Inv(k) && Legal(k, ev) && w in k.rws
  {
    && Self(k) == t
    && match what
       case ReadGrants => Asked(k, ev) == ToRead(w) && OpenToRead(k, w)
       case WriteGrants => Asked(k, ev) == ToWrite(w) && OpenToWrite(k, w)
       case ReadReleases => Asked(k, ev) == ToRelease(w) && t in k.rws[w].readHolders
       case WriteReleases => Asked(k, ev) == ToRelease(w) && t in k.rws[w].writeHolders
  }

  ghost function Number(k: Kernel, es: seq<Event>, t: Tid, w: nat, what: Tally): (n: nat)
    requires Inv(k) && Allowed(k, es) && w in k.rws
    decreases |es|
  {
    if es == [] then 0
    else
      StepInv(k, es[0]);
      StepMoves(k, es[0], w);
      (if Counts(k, es[0], t, w, what) then 1 else 0) + Number(Step(k, es[0]), es[1..], t, w, what)
  }

  ghost function One(b: bool): (n: int) {
    if b then 1 else 0
  }

  lemma AfterCount(h: multiset<Tid>, gains: bool, loses: bool, self: Tid, t: Tid)
    requires !(gains && loses)
    ensures After(h, gains, loses, self)[t] == h[t] + One(gains && self == t) - One(loses && self == t && t in h)
  {
  }

  /** One event changes the holds of t as counted; first those for reading. */
  lemma StepReads(k: Kernel, ev: Event, t: Tid, w: nat)
    requires Inv(k) && Legal(k, ev) && w in k.rws
    ensures w in Step(k, ev).rws
    ensures Step(k, ev).rws[w].readHolders[t] == k.rws[w].readHolders[t]
      + One(Counts(k, ev, t, w, ReadGrants)) - One(Counts(k, ev, t, w, ReadReleases))
  {
    var u, self, q := k.rws[w], Self(k), Asked(k, ev);
    StepMoves(k, ev, w);
    FieldsTell(k, w);
    NotBoth(u);
    AfterCount(u.readHolders, q == ToRead(w) && OpenToRead(k, w),
               q == ToRelease(w) && self !in u.writeHolders, self, t);
  }

  lemma StepWrites(k: Kernel, ev: Event, t: Tid, w: nat)
    requires Inv(k) && Legal(k, ev) && w in k.rws
    ensures w in Step(k, ev).rws
    ensures Step(k, ev).rws[w].writeHolders[t] == k.rws[w].writeHolders[t]
      + One(Counts(k, ev, t, w, WriteGrants)) - One(Counts(k, ev, t, w, WriteReleases))
  {
    var u, self, q := k.rws[w], Self(k), Asked(k, ev);
    StepMoves(k, ev, w);
    AfterCount(u.writeHolders, q == ToWrite(w) && OpenToWrite(k, w),
               q == ToRelease(w) && self in u.writeHolders, self, t);
  }

  lemma NotBoth(u: Rw)
    requires Whole(u)
    ensures u.writeHolders != multiset{} ==> u.readHolders == multiset{}
  {
    if u.writer == 1 {
      NoReaders(u);
    }
  }

  /** Conservation: what a thread holds of a lock is what it held plus its grants less its releases. */
  lemma {:induction false} HoldsConserved(k: Kernel, es: seq<Event>, t: Tid, w: nat)
    requires Inv(k) && Allowed(k, es) && w in k.rws
    ensures w in Run(k, es).rws
    ensures var u, v := k.rws[w], Run(k, es).rws[w];
      && v.readHolders[t] == u.readHolders[t] + Number(k, es, t, w, ReadGrants) - Number(k, es, t, w, ReadReleases)
      && v.writeHolders[t]
         == u.writeHolders[t] + Number(k, es, t, w, WriteGrants) - Number(k, es, t, w, WriteReleases)
    decreases |es|
  {
    if es != [] {
      StepInv(k, es[0]);
      StepReads(k, es[0], t, w);
      StepWrites(k, es[0], t, w);
      HoldsConserved(Step(k, es[0]), es[1..], t, w);
    }
  }

  /** A writer keeps the lock, alone, until it unlocks it itself. */
  lemma WriterKeeps(k: Kernel, es: seq<Event>, t: Tid, w: nat)
    requires Inv(k) && Allowed(k, es) && w in k.rws && t in k.rws[w].writeHolders
    requires Number(k, es, t, w, WriteReleases) == 0
    ensures w in Run(k, es).rws && WritesAlone(Run(k, es).rws[w], t)
  {
    HoldsConserved(k, es, t, w);
    FieldsTell(Run(k, es), w);
    NotBoth(Run(k, es).rws[w]);
    assert t in Run(k, es).rws[w].writeHolders;
  }

  predicate WritesAlone(u: Rw, t: Tid) {
    && u.writer == 1 && u.owner == Some(t) && u.readers == 0
    && u.writeHolders == multiset{t} && u.readHolders == multiset{}
  }

  /** A reader keeps the lock, and writers out, as long as it has not released as often as it was
      granted. */
  lemma ReaderKeeps(k: Kernel, es: seq<Event>, t: Tid, w: nat)
    requires Inv(k) && Allowed(k, es) && w in k.rws
    requires Number(k, es, t, w, ReadReleases) < k.rws[w].readHolders[t] + Number(k, es, t, w, ReadGrants)
    ensures var r := Run(k, es).rws;
      w in r && t in r[w].readHolders && r[w].readers > 0 && r[w].writer == 0 && r[w].writeHolders == multiset{}
  {
    HoldsConserved(k, es, t, w);
    FieldsTell(Run(k, es), w);
    NotBoth(Run(k, es).rws[w]);
    assert t in Run(k, es).rws[w].readHolders;
  }

  /** A trywrlock that finds the lock open makes its caller the only holder, until that caller's own
      unlock; otherwise it changes nothing. */
  lemma TryWriteTakes(k: Kernel, ev: Event, w: nat, es: seq<Event>)
    requires Inv(k) && Legal(k, ev) && ev.op == OnRw(TryWrLock(w)) && w in k.rws
    requires Inv(Step(k, ev)) && Allowed(Step(k, ev), es) && w in Step(k, ev).rws
    ensures !OpenToWrite(k, w) ==> Step(k, ev) == k
    ensures OpenToWrite(k, w) ==> WritesAlone(Step(k, ev).rws[w], Self(k))
    ensures OpenToWrite(k, w) && Number(Step(k, ev), es, Self(k), w, WriteReleases) == 0 ==>
      w in Run(Step(k, ev), es).rws && WritesAlone(Run(Step(k, ev), es).rws[w], Self(k))
  {
    StepMoves(k, ev, w);
    FieldsTell(k, w);
    FieldsTell(Step(k, ev), w);
    NotBoth(Step(k, ev).rws[w]);
    TryWrLockIs(k, ev);
    if OpenToWrite(k, w) {
      assert Self(k) in Step(k, ev).rws[w].writeHolders;
      if Number(Step(k, ev), es, Self(k), w, WriteReleases) == 0 {
        WriterKeeps(Step(k, ev), es, Self(k), w);
      }
    }
  }

  /** The same for tryrdlock: it adds one hold of its caller, or changes nothing. */
  lemma TryReadTakes(k: Kernel, ev: Event, w: nat)
    requires Inv(k) && Legal(k, ev) && ev.op == OnRw(TryRdLock(w)) && w in k.rws
    ensures !OpenToRead(k, w) ==> Step(k, ev) == k
    ensures OpenToRead(k, w) ==> (
      && w in Step(k, ev).rws && Step(k, ev).rws[w].readers == k.rws[w].readers + 1
      && Step(k, ev).rws[w].readHolders == k.rws[w].readHolders + multiset{Self(k)})
  {
    StepMoves(k, ev, w);
    FieldsTell(k, w);
    StepInv(k, ev);
    FieldsTell(Step(k, ev), w);
    TryRdLockIs(k, ev);
  }

  /** An unlock by the writer leaves no writer and no owner, one by a reader takes exactly one of its
      holds, and one by anybody else changes nothing. */
  lemma UnlockReleases(k: Kernel, ev: Event, w: nat)
    requires Inv(k) && Legal(k, ev) && ev.op == OnRw(RwUnlock(w)) && w in k.rws
    ensures w in Step(k, ev).rws
    ensures var self, u, v := Self(k), k.rws[w], Step(k, ev).rws[w];
      && (self in u.writeHolders ==>
        v.writer == 0 && v.owner == None && v.writeHolders == multiset{} && v.readHolders == multiset{})
      && (self in u.readHolders ==>
        v.readHolders == u.readHolders - multiset{self} && v.readers == u.readers - 1 && v.writer == 0)
      && (self !in u.writeHolders && self !in u.readHolders ==> Step(k, ev) == k)
  {
    StepMoves(k, ev, w);
    FieldsTell(k, w);
    StepInv(k, ev);
    FieldsTell(Step(k, ev), w);
    NotBoth(k.rws[w]);
    RwUnlockIs(k, ev);
    if Self(k) !in k.rws[w].writeHolders && Self(k) !in k.rws[w].readHolders {
      StrangerRefused(k, w);
    }
  }

  lemma StrangerRefused(k: Kernel, w: nat)
    requires Live(k.s) && w in k.rws && Whole(k.rws[w]) && RwLocks.MayRwUnlock(k, w)
    requires Self(k) !in k.rws[w].writeHolders && Self(k) !in k.rws[w].readHolders
    ensures RwLocks.RwUnlock(k, w) == k
  {
  }
}
