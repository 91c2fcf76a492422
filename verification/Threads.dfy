/** The thread control block (struct uthread_internal), restricted to the fields the
    schedulers and wait queues update. */
module Threads {
  datatype Color = Red | Black

  class Thread {
    const tid: nat

    // CFS accounting
    var vruntime: nat
    var weight: int
    var startTime: nat

    var priority: int
    var timeslice: nat

    // linkage shared by the run queues and the wait queues
    var next: Thread?
    var prev: Thread?
    var blockedQueue: object?

    // red-black tree linkage
    var rbLeft: Thread?
    var rbRight: Thread?
    var rbParent: Thread?
    var rbColor: Color

    /** A zeroed control block, with its identity. */
    constructor (tid: nat)
      ensures this.tid == tid && next == null && prev == null && blockedQueue == null
    {
      this.tid := tid;
      vruntime, weight, startTime, priority, timeslice := 0, 0, 0, 0, 0;
      next, prev, blockedQueue := null, null, null;
      rbLeft, rbRight, rbParent, rbColor := null, null, null, Red;
    }
  }
}
