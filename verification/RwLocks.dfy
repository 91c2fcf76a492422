/** Read-write locks (src/rwlock.c). */
module RwLocks {
  import opened Scheduling
  import opened Sync

  function Reading(u: Rw, self: Tid): (r: Rw) {
    u.(readers := u.readers + 1, readHolders := u.readHolders + multiset{self})
  }

  function Writing(u: Rw, self: Tid): (r: Rw) {
    u.(writer := 1, owner := Some(self), writeHolders := u.writeHolders + multiset{self})
  }

  function DoneReading(u: Rw, self: Tid): (r: Rw) {
    u.(readers := u.readers - 1, readHolders := u.readHolders - multiset{self})
  }

  function DoneWriting(u: Rw, self: Tid): (r: Rw) {
    u.(writer := 0, owner := None, writeHolders := u.writeHolders - multiset{self})
  }

  /** Readers wait for the writer and for every pending writer. */
  predicate ReadBlocked(u: Rw) {
    u.writer != 0 || u.pending > 0
  }

  predicate WriteBlocked(u: Rw) {
    u.readers > 0 || u.writer != 0
  }

  /** Nobody new reads where readers must wait. */
  ghost predicate Shut(k: Kernel, r: Kernel) {
    forall w :: w in k.rws ==> w in r.rws && (ReadBlocked(k.rws[w]) ==> r.rws[w].readHolders <= k.rws[w].readHolders)
  }

  /** One round of the loop of uthread_rwlock_rdlock. */
  ghost function TakeRead(k: Kernel, w: nat, pick: nat): (r: Kernel)
    requires Live(k.s) && w in k.rws
    ensures r.mutexes == k.mutexes && r.sems == k.sems
  {
    var u := k.rws[w];
    if ReadBlocked(u) then PutRw(k, Block(k.s, ReadQ(w), GetRead(w), pick), w, u)
    else PutRw(k, Return(k.s), w, Reading(u, k.s.current.value))
  }

  /** uthread_rwlock_tryrdlock. */
  ghost function TryRead(k: Kernel, w: nat): (r: Kernel)
    requires Live(k.s) && w in k.rws
    ensures r.mutexes == k.mutexes && r.sems == k.sems
    ensures r.s == k.s
  {
    var u := k.rws[w];
    if ReadBlocked(u) then k else PutRw(k, k.s, w, Reading(u, k.s.current.value))
  }

  /** One round of the loop of uthread_rwlock_wrlock. */
  ghost function TakeWrite(k: Kernel, w: nat, u: Rw, pick: nat): (r: Kernel)
    requires Live(k.s)
    ensures r.mutexes == k.mutexes && r.sems == k.sems
  {
    if WriteBlocked(u) then PutRw(k, Block(k.s, WriteQ(w), GetWrite(w), pick), w, u)
    else PutRw(k, Return(k.s), w, Writing(u.(pending := u.pending - 1), k.s.current.value))
  }

  /** uthread_rwlock_wrlock from its start. */
  ghost function WrLock(k: Kernel, w: nat, pick: nat): (r: Kernel)
    requires Live(k.s) && w in k.rws
    ensures r.mutexes == k.mutexes && r.sems == k.sems
  {
    TakeWrite(k, w, k.rws[w].(pending := k.rws[w].pending + 1), pick)
  }

  /** uthread_rwlock_trywrlock. */
  ghost function TryWrite(k: Kernel, w: nat): (r: Kernel)
    requires Live(k.s) && w in k.rws
    ensures r.mutexes == k.mutexes && r.sems == k.sems
    ensures r.s == k.s
  {
    var u := k.rws[w];
    if WriteBlocked(u) then k else PutRw(k, k.s, w, Writing(u, k.s.current.value))
  }

  /** After a writer: one writer is woken if any waits, otherwise every reader. */
  ghost function PassOn(s: Sched, w: nat): (r: Sched)
    requires Live(s)
  {
    WakeOneLive(s, WriteQ(w));
    if Queue(s, WriteQ(w)) != [] then WakeOne(s, WriteQ(w)) else WakeAll(s, ReadQ(w))
  }

  /** After a reader: the last one wakes a writer. */
  ghost function LastOut(s: Sched, w: nat, readers: int): (r: Sched)
    requires Live(s)
  {
    WakeOneLive(s, WriteQ(w));
    if readers == 0 then WakeOne(s, WriteQ(w)) else s
  }

  /** uthread_rwlock_unlock. */
  ghost function RwUnlock(k: Kernel, w: nat): (r: Kernel)
    requires Live(k.s) && w in k.rws
    ensures r.mutexes == k.mutexes && r.sems == k.sems
  {
    var u, self := k.rws[w], k.s.current.value;
    if u.writer != 0 then
      if u.owner != Some(self) then k else PutRw(k, PassOn(k.s, w), w, DoneWriting(u, self))
    else if u.readers > 0 then PutRw(k, LastOut(k.s, w, u.readers - 1), w, DoneReading(u, self))
    else k
  }

  lemma ReadBlocks(k: Kernel, w: nat, pick: nat)
    requires Inv(k) && Tries(k.s, GetRead(w)) && w in k.rws && ReadBlocked(k.rws[w])
    ensures Inv(PutRw(k, Block(k.s, ReadQ(w), GetRead(w), pick), w, k.rws[w]))
  {
    var g, g', u := GetRead(w), GetWrite(w), k.rws[w];
    assert RwAt(k.s, w, u);
    BlockLive(k.s, ReadQ(w), g, pick);
    BlockSame(k.s, ReadQ(w), g, pick);
    BlockEffect(k.s, ReadQ(w), g, pick, g');
    assert k.s.current.value !in Woke(k.s, g');
    RwChange(k, Block(k.s, ReadQ(w), g, pick), w, u);
  }

  lemma ReadAcquires(k: Kernel, w: nat)
    requires Inv(k) && Tries(k.s, GetRead(w)) && w in k.rws && !ReadBlocked(k.rws[w])
    ensures Inv(PutRw(k, Return(k.s), w, Reading(k.rws[w], k.s.current.value)))
  {
    var u := k.rws[w];
    assert RwAt(k.s, w, u);
    ReturnLive(k.s);
    ReturnSame(k.s, GetRead(w));
    ReturnEffect(k.s, GetRead(w), GetWrite(w));
    NoWriterWaits(k.s, w);
    RwChange(k, Return(k.s), w, Reading(u, k.s.current.value));
  }

  lemma TakeReadInv(k: Kernel, w: nat, pick: nat)
    requires Inv(k) && Tries(k.s, GetRead(w)) && w in k.rws
    ensures Inv(TakeRead(k, w, pick))
  {
    if ReadBlocked(k.rws[w]) {
      ReadBlocks(k, w, pick);
    } else {
      ReadAcquires(k, w);
    }
  }

  /** Queued writers seek the lock. */
  lemma NoWriterWaits(s: Sched, w: nat)
    requires QueuesOk(s)
    ensures Queue(s, WriteQ(w)) != [] ==> Seekers(s, GetWrite(w)) != {}
    ensures Woke(s, GetWrite(w)) != {} ==> Seekers(s, GetWrite(w)) != {}
  {
    var q := WriteQ(w);
    if Queue(s, q) != [] {
      assert Queue(s, q)[0] in Queue(s, q);
      assert Queue(s, q)[0] in Seekers(s, GetWrite(w));
    }
    assert Woke(s, GetWrite(w)) <= Seekers(s, GetWrite(w));
  }

  lemma RwAlone(k: Kernel, w: nat, u: Rw)
    requires Inv(k) && w in k.rws
    requires RwAt(k.s, w, k.rws[w]) ==> RwAt(k.s, w, u)
    ensures Inv(PutRw(k, k.s, w, u))
  {
    SameSched(k.s, RwObj(w));
    RwChange(k, k.s, w, u);
  }

  lemma TryReadInv(k: Kernel, w: nat)
    requires Inv(k) && Live(k.s) && w in k.rws
    ensures Inv(TryRead(k, w))
  {
    var u := k.rws[w];
    if !ReadBlocked(u) {
      RwAlone(k, w, Reading(u, k.s.current.value));
    }
  }

  /** What the lock satisfies while the running thread is one of the pending writers. */
  ghost predicate RwTry(s: Sched, w: nat, u: Rw)
    requires s.current.Some?
  {
    RwOk(u, Queue(s, ReadQ(w)) != [], Queue(s, WriteQ(w)) != [],
         Woke(s, GetWrite(w)) != {}, |Seekers(s, GetWrite(w)) + {s.current.value}|)
  }

  lemma WriteBlocks(k: Kernel, w: nat, u: Rw, pick: nat)
    requires Inv(k) && Tries(k.s, GetWrite(w)) && w in k.rws && RwTry(k.s, w, u) && WriteBlocked(u)
    ensures Inv(PutRw(k, Block(k.s, WriteQ(w), GetWrite(w), pick), w, u))
  {
    var g, q := GetWrite(w), WriteQ(w);
    BlockLive(k.s, q, g, pick);
    BlockSame(k.s, q, g, pick);
    BlockEffect(k.s, q, g, pick, g);
    RwChange(k, Block(k.s, q, g, pick), w, u);
  }

  lemma Admitted(u: Rw, self: Tid, readersWait: bool, writersWait: bool, woken: bool, still: bool, others: nat)
    requires RwOk(u, readersWait, writersWait, woken, others + 1) && !WriteBlocked(u)
    ensures RwOk(Writing(u.(pending := u.pending - 1), self), readersWait, writersWait, still, others)
  {
  }

  lemma OneFewer(s: set<Tid>, t: Tid)
    ensures |s + {t}| == |s - {t}| + 1
  {
    assert s + {t} == (s - {t}) + {t};
  }

  lemma AdmittedAt(s: Sched, w: nat, u: Rw)
    requires Tries(s, GetWrite(w)) && RwTry(s, w, u) && !WriteBlocked(u)
    ensures RwAt(Return(s), w, Writing(u.(pending := u.pending - 1), s.current.value))
  {
    var g, self, r := GetWrite(w), s.current.value, Return(s);
    ReturnEffect(s, g, g);
    OneFewer(Seekers(s, g), self);
    assert Queue(r, ReadQ(w)) == Queue(s, ReadQ(w)) && Queue(r, WriteQ(w)) == Queue(s, WriteQ(w));
    Admitted(u, self, Queue(s, ReadQ(w)) != [], Queue(s, WriteQ(w)) != [],
             Woke(s, g) != {}, Woke(r, g) != {}, |Seekers(r, g)|);
  }

  lemma WriteAcquires(k: Kernel, w: nat, u: Rw)
    requires Inv(k) && Tries(k.s, GetWrite(w)) && w in k.rws && RwTry(k.s, w, u) && !WriteBlocked(u)
    ensures Inv(PutRw(k, Return(k.s), w, Writing(u.(pending := u.pending - 1), k.s.current.value)))
  {
    ReturnLive(k.s);
    ReturnSame(k.s, GetWrite(w));
    AdmittedAt(k.s, w, u);
    RwChange(k, Return(k.s), w, Writing(u.(pending := u.pending - 1), k.s.current.value));
  }

  lemma TakeWriteInv(k: Kernel, w: nat, u: Rw, pick: nat)
    requires Inv(k) && Tries(k.s, GetWrite(w)) && w in k.rws && RwTry(k.s, w, u)
    ensures Inv(TakeWrite(k, w, u, pick))
  {
    if WriteBlocked(u) {
      WriteBlocks(k, w, u, pick);
    } else {
      WriteAcquires(k, w, u);
    }
  }

  lemma WrLockInv(k: Kernel, w: nat, pick: nat)
    requires Inv(k) && Live(k.s) && k.s.threads[k.s.current.value].pc == User && w in k.rws
    ensures Inv(WrLock(k, w, pick))
  {
    assert RwAt(k.s, w, k.rws[w]);
    assert k.s.current.value !in Seekers(k.s, GetWrite(w));
    TakeWriteInv(k, w, k.rws[w].(pending := k.rws[w].pending + 1), pick);
  }

  lemma RetryWriteInv(k: Kernel, w: nat, pick: nat)
    requires Inv(k) && Live(k.s) && k.s.threads[k.s.current.value].pc == Woken(GetWrite(w)) && w in k.rws
    ensures Inv(TakeWrite(k, w, k.rws[w], pick))
  {
    assert RwAt(k.s, w, k.rws[w]);
    assert Seekers(k.s, GetWrite(w)) + {k.s.current.value} == Seekers(k.s, GetWrite(w));
    TakeWriteInv(k, w, k.rws[w], pick);
  }

  lemma TryWriteInv(k: Kernel, w: nat)
    requires Inv(k) && Live(k.s) && w in k.rws
    ensures Inv(TryWrite(k, w))
  {
    var u := k.rws[w];
    if !WriteBlocked(u) {
      RwAlone(k, w, Writing(u, k.s.current.value));
    }
  }

  /** Where the code takes the reader's branch, the caller holds the lock for reading. */
  predicate MayRwUnlock(k: Kernel, w: nat)
    requires k.s.current.Some? && w in k.rws
  {
    k.rws[w].writer == 0 && k.rws[w].readers > 0 ==> k.s.current.value in k.rws[w].readHolders
  }

  lemma PassOnEffect(s: Sched, w: nat)
    requires Live(s)
    ensures Live(PassOn(s, w)) && SameBut(s, PassOn(s, w), RwObj(w))
    ensures Seekers(PassOn(s, w), GetWrite(w)) == Seekers(s, GetWrite(w))
    ensures Queue(s, WriteQ(w)) != [] ==> Woke(PassOn(s, w), GetWrite(w)) != {}
    ensures Queue(s, WriteQ(w)) == [] ==> Queue(PassOn(s, w), WriteQ(w)) == [] && Queue(PassOn(s, w), ReadQ(w)) == []
  {
    if Queue(s, WriteQ(w)) != [] {
      WakeOneLive(s, WriteQ(w));
      WakeOneSame(s, WriteQ(w), GetWrite(w));
      WakeOneEffect(s, WriteQ(w), GetWrite(w));
    } else {
      WakeAllLive(s, ReadQ(w));
      WakeAllSame(s, w);
      WakeAllEffect(s, ReadQ(w), GetWrite(w));
    }
  }

  lemma WakeAllSame(s: Sched, w: nat)
    requires QueuesOk(s)
    ensures SameBut(s, WakeAll(s, ReadQ(w)), RwObj(w))
  {
    var r := WakeAll(s, ReadQ(w));
    forall g | About(g) != RwObj(w)
      ensures Woke(r, g) == Woke(s, g) && Seekers(r, g) == Seekers(s, g)
    {
      WakeAllEffect(s, ReadQ(w), g);
    }
  }

  lemma LastOutEffect(s: Sched, w: nat, readers: int)
    requires Live(s)
    ensures Live(LastOut(s, w, readers)) && SameBut(s, LastOut(s, w, readers), RwObj(w))
    ensures Seekers(LastOut(s, w, readers), GetWrite(w)) == Seekers(s, GetWrite(w))
    ensures Queue(LastOut(s, w, readers), ReadQ(w)) == Queue(s, ReadQ(w))
    ensures Queue(LastOut(s, w, readers), WriteQ(w)) != [] ==>
      readers != 0 || Woke(LastOut(s, w, readers), GetWrite(w)) != {}
  {
    if readers == 0 {
      WakeOneLive(s, WriteQ(w));
      WakeOneSame(s, WriteQ(w), GetWrite(w));
      WakeOneEffect(s, WriteQ(w), GetWrite(w));
    } else {
      SameSched(s, RwObj(w));
    }
  }

  lemma DoneWritingInv(k: Kernel, w: nat)
    requires Inv(k) && Live(k.s) && w in k.rws && k.rws[w].writer != 0 && k.rws[w].owner == k.s.current
    ensures Inv(PutRw(k, PassOn(k.s, w), w, DoneWriting(k.rws[w], k.s.current.value)))
  {
    var u := k.rws[w];
    assert RwAt(k.s, w, u);
    PassOnEffect(k.s, w);
    NoWriterWaits(k.s, w);
    RwChange(k, PassOn(k.s, w), w, DoneWriting(u, k.s.current.value));
  }

  lemma DoneReadingInv(k: Kernel, w: nat)
    requires Inv(k) && Live(k.s) && w in k.rws && k.rws[w].writer == 0 && k.s.current.value in k.rws[w].readHolders
    ensures Inv(PutRw(k, LastOut(k.s, w, k.rws[w].readers - 1), w, DoneReading(k.rws[w], k.s.current.value)))
  {
    var u := k.rws[w];
    assert RwAt(k.s, w, u);
    LastOutEffect(k.s, w, u.readers - 1);
    RwChange(k, LastOut(k.s, w, u.readers - 1), w, DoneReading(u, k.s.current.value));
  }

  /** An unlock keeps the invariant exactly when it does not release someone else's read lock. */
  lemma RwUnlockInvIff(k: Kernel, w: nat)
    requires Inv(k) && Live(k.s) && w in k.rws
    ensures Inv(RwUnlock(k, w)) <==> MayRwUnlock(k, w)
  {
    var u := k.rws[w];
    assert RwAt(k.s, w, u);
    if u.writer != 0 {
      if u.owner == k.s.current {
        DoneWritingInv(k, w);
      }
    } else if u.readers > 0 {
      if MayRwUnlock(k, w) {
        DoneReadingInv(k, w);
      } else {
        assert RwUnlock(k, w).rws[w].readHolders == u.readHolders;
        assert !RwAt(RwUnlock(k, w).s, w, RwUnlock(k, w).rws[w]);
      }
    }
  }

  // ---------------------------------------------------------------- what the calls leave alone

  lemma TakeReadFrame(k: Kernel, w: nat, pick: nat)
    requires Live(k.s) && w in k.rws
    ensures var r := TakeRead(k, w, pick); Calm(k.s, r.s, k.s.current.value)
  {
    BlockFrame(k.s, ReadQ(w), GetRead(w), pick);
    ReturnFrame(k.s);
  }

  lemma TakeWriteFrame(k: Kernel, w: nat, u: Rw, pick: nat)
    requires Live(k.s) && w in k.rws
    ensures var r := TakeWrite(k, w, u, pick); Calm(k.s, r.s, k.s.current.value)
  {
    BlockFrame(k.s, WriteQ(w), GetWrite(w), pick);
    ReturnFrame(k.s);
  }

  lemma TryReadFrame(k: Kernel, w: nat)
    requires Live(k.s) && w in k.rws
    ensures Calm(k.s, TryRead(k, w).s, k.s.current.value)
  {
  }

  lemma TryWriteFrame(k: Kernel, w: nat)
    requires Live(k.s) && w in k.rws
    ensures Calm(k.s, TryWrite(k, w).s, k.s.current.value)
  {
  }

  lemma WrLockFrame(k: Kernel, w: nat, pick: nat)
    requires Live(k.s) && w in k.rws
    ensures var r := WrLock(k, w, pick); Calm(k.s, r.s, k.s.current.value)
  {
    TakeWriteFrame(k, w, k.rws[w].(pending := k.rws[w].pending + 1), pick);
  }

  lemma PassOnFrame(s: Sched, w: nat)
    requires Live(s)
    ensures Calm(s, PassOn(s, w), s.current.value)
  {
    WakeOneLive(s, WriteQ(w));
    if Queue(s, WriteQ(w)) != [] {
      WakeOneFrame(s, WriteQ(w), s.current.value);
    } else {
      WakeAllFrame(s, ReadQ(w), s.current.value);
    }
  }

  lemma LastOutFrame(s: Sched, w: nat, readers: int)
    requires Live(s)
    ensures Calm(s, LastOut(s, w, readers), s.current.value)
  {
    WakeOneLive(s, WriteQ(w));
    WakeOneFrame(s, WriteQ(w), s.current.value);
  }

  lemma RwUnlockFrame(k: Kernel, w: nat)
    requires Live(k.s) && w in k.rws
    ensures var r := RwUnlock(k, w); Calm(k.s, r.s, k.s.current.value)
  {
    PassOnFrame(k.s, w);
    LastOutFrame(k.s, w, k.rws[w].readers - 1);
  }

  lemma ReadShut(k: Kernel, w: nat, pick: nat)
    requires Live(k.s) && w in k.rws
    ensures Shut(k, TakeRead(k, w, pick))
  {
  }

  lemma TryReadShut(k: Kernel, w: nat)
    requires Live(k.s) && w in k.rws
    ensures Shut(k, TryRead(k, w))
  {
  }

  lemma UnlockShut(k: Kernel, w: nat)
    requires Live(k.s) && w in k.rws
    ensures Shut(k, RwUnlock(k, w))
  {
  }

  lemma WriteShut(k: Kernel, w: nat, pick: nat)
    requires Live(k.s) && w in k.rws
    ensures Shut(k, TakeWrite(k, w, k.rws[w], pick))
  {
  }

  lemma WrLockShut(k: Kernel, w: nat, pick: nat)
    requires Live(k.s) && w in k.rws
    ensures Shut(k, WrLock(k, w, pick))
  {
  }

  lemma TryWriteShut(k: Kernel, w: nat)
    requires Live(k.s) && w in k.rws
    ensures Shut(k, TryWrite(k, w))
  {
  }
}
