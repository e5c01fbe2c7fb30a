/** Delivery laws of the live server, over every run of its inputs: a registered display has no
    backlog, and since its registration every snapshot was queued for it once, in order. */
module Delivery {
  import opened Text
  import opened SessionTypes
  import opened Session
  import opened Broadcast
  import opened LiveServer
  import R = Recording

  // ---------------------------------------------------------------------------
  // Operations of the session, seen from the server

  /** Snapshots are numbered from 1 in the order they were ever recorded; the retained ones are the
      newest of them. */
  ghost predicate Historic(v: Server) {
    var kept, all := v.session.log.snapshots, v.trace.history;
    && |all| == v.session.log.sequence && |kept| <= |all| && kept == all[|all| - |kept|..]
    && forall i :: 0 <= i < |all| ==> all[i].header.sequence == i + 1
  }

  /** What `Perform` does besides the session's own operation. */
  ghost predicate Performed(v: Server, step: Step, t: Server) {
    && t == v.(session := t.session, trace := v.trace.(history := t.trace.history))
    && t.session == Apply(v.session, step)
    && Historic(t) && v.trace.history <= t.trace.history && |t.trace.history| <= |v.trace.history| + 1
    && |t.session.log.snapshots|
       == (if step == Reset then 0 else |v.session.log.snapshots|) + |t.trace.history| - |v.trace.history|
  }

  lemma NewSnapshots(base: Log, t: State)
    requires R.Recorded(base, t)
    ensures |base.snapshots| <= |t.log.snapshots| <= |base.snapshots| + 1
    ensures var news := t.log.snapshots[|base.snapshots|..];
            && t.log.snapshots == base.snapshots + news && t.log.sequence == base.sequence + |news|
            && forall i :: 0 <= i < |news| ==> news[i].header.sequence == t.log.sequence
  {
    hide R.Stamped;
  }

  lemma PerformOutcome(v: Server, step: Step)
    requires Historic(v)
    ensures Performed(v, step, Perform(v, step))
  {
    hide Apply, R.Recorded;
    R.StepRecords(v.session, step);
    var base, t := R.Base(v.session, step), Apply(v.session, step);
    NewSnapshots(base, t);
  }

  /** Steps that record no snapshot. */
  predicate Quiet(step: Step) {
    step.Connect? || step.Disconnect? || step.Configure? || step.TransportRejection?
  }

  lemma QuietStepsRecordNothing(s: State, step: Step)
    requires Quiet(step)
    ensures Apply(s, step).log.snapshots == s.log.snapshots && Apply(s, step).log.sequence == s.log.sequence
  {
    hide RoleName, StartingWorld, Scenario.Valid;
  }

  // ---------------------------------------------------------------------------
  // Delivery

  function Backlog(v: Server): int { |v.session.log.snapshots| - v.lastSent }

  /** The number of the first snapshot sent to the display: the oldest one replayed at its
      registration, or the next one recorded. */
  function FirstNumber(v: Server): int { v.trace.registeredAt - Replays(v.options, v.trace.retainedAt) + 1 }

  /** Queued so far: the snapshots replayed at the registration and all those recorded since, but
      for the backlog; each once, in the order of their numbers. */
  ghost predicate QueuedInOrder(v: Server) {
    && 1 <= FirstNumber(v) && v.trace.registeredAt <= v.session.log.sequence
    && |v.trace.queued| + Backlog(v) == Replays(v.options, v.trace.retainedAt) + v.session.log.sequence - v.trace.registeredAt
    && forall i :: 0 <= i < |v.trace.queued| ==> v.trace.queued[i] == FirstNumber(v) + i
  }

  /** How far delivery may fall behind before snapshots are sent. */
  function Slack(v: Server): nat { if v.options.latestOnly then 1 else Batch(v) }

  ghost predicate Deliverable(v: Server) {
    && Historic(v) && Backlog(v) >= 0
    && (v.viewer.Some? ==> Backlog(v) <= Slack(v) && QueuedInOrder(v))
  }

  /** A registered display has no backlog. */
  ghost predicate Delivered(v: Server) {
    && Historic(v) && Backlog(v) >= 0
    && (v.viewer.Some? ==> Backlog(v) == 0 && QueuedInOrder(v))
  }

  /** The datagrams for retained snapshots, two for each. */
  function Grams(v: Server, from: nat): seq<Datagram>
    requires v.viewer.Some? && from <= |v.session.log.snapshots|
    decreases |v.session.log.snapshots| - from
  {
    var snapshots := v.session.log.snapshots;
    if from == |snapshots| then []
    else [SnapshotGram(v.viewer.value, ToSnapshotPayload(snapshots[from])),
          TelemetryGram(v.viewer.value, ToTelemetryPayload(snapshots[from], v.session.log.events))] + Grams(v, from + 1)
  }

  function Numbers(snapshots: seq<Snapshot>): (r: seq<nat>)
    ensures |r| == |snapshots| && forall i :: 0 <= i < |r| ==> r[i] == snapshots[i].header.sequence
  {
    if snapshots == [] then [] else [snapshots[0].header.sequence] + Numbers(snapshots[1..])
  }

  /** What queueing everything from `from` on adds. */
  ghost function Queued(v: Server, from: nat): Server
    requires v.viewer.Some? && from <= |v.session.log.snapshots|
  {
    v.(pending := v.pending + Grams(v, from), trace := v.trace.(queued := v.trace.queued + Numbers(v.session.log.snapshots[from..])),
       lastSent := |v.session.log.snapshots|)
  }

  lemma QueueStep(v: Server)
    requires v.viewer.Some? && v.lastSent < |v.session.log.snapshots|
    ensures var t := QueueSnapshot(v, v.session.log.snapshots[v.lastSent]).(lastSent := v.lastSent + 1);
            Queued(t, t.lastSent) == Queued(v, v.lastSent)
  {
    hide ToSnapshotPayload, ToTelemetryPayload, Numbers;
    var snapshots, from := v.session.log.snapshots, v.lastSent;
    var t := QueueSnapshot(v, snapshots[from]).(lastSent := from + 1);
    SameGrams(v, t, from + 1);
    var grams, more := Grams(v, from)[..2], Grams(v, from + 1);
    assert Grams(v, from) == grams + more && t.pending == v.pending + grams;
    Regroup(v.pending, grams, more);
    Regroup(v.trace.queued, [snapshots[from].header.sequence], Numbers(snapshots[from + 1..]));
  }

  lemma Regroup<T>(a: seq<T>, b: seq<T>, c: seq<T>)
    ensures (a + b) + c == a + (b + c)
  {
  }

  lemma {:induction false} QueueBatchOutcome(v: Server, limit: nat)
    requires v.viewer.Some? && 0 <= Backlog(v) <= limit
    ensures QueueBatch(v, limit) == Queued(v, v.lastSent)
    decreases limit
  {
    hide QueueSnapshot, Queued;
    if Backlog(v) == 0 {
      NothingQueued(v);
    } else {
      QueueStep(v);
      KeepsViewer(v, v.session.log.snapshots[v.lastSent]);
      QueueBatchOutcome(QueueSnapshot(v, v.session.log.snapshots[v.lastSent]).(lastSent := v.lastSent + 1), limit - 1);
    }
  }

  lemma KeepsViewer(v: Server, x: Snapshot)
    requires v.viewer.Some?
    ensures QueueSnapshot(v, x).viewer == v.viewer && QueueSnapshot(v, x).session == v.session
  {
    hide ToSnapshotPayload, ToTelemetryPayload;
  }

  lemma NothingQueued(v: Server)
    requires v.viewer.Some? && Backlog(v) == 0
    ensures Queued(v, v.lastSent) == v
  {
    hide ToSnapshotPayload, ToTelemetryPayload;
    var snapshots := v.session.log.snapshots;
    assert snapshots[v.lastSent..] == [];
  }

  lemma {:induction false} SameGrams(v: Server, w: Server, from: nat)
    requires v.viewer.Some? && w.viewer == v.viewer && w.session == v.session && from <= |v.session.log.snapshots|
    ensures Grams(w, from) == Grams(v, from)
    decreases |v.session.log.snapshots| - from
  {
    hide ToSnapshotPayload, ToTelemetryPayload;
    if from < |v.session.log.snapshots| { SameGrams(v, w, from + 1); }
  }

  /** Within its slack, delivery never skips: it queues the whole backlog, oldest first. */
  lemma SendPendingOutcome(v: Server)
    requires Deliverable(v)
    ensures !Skips(v) && Delivered(SendPending(v))
    ensures SendPending(v) == if v.viewer.None? then v else Queued(v, v.lastSent)
  {
    hide QueueBatch, Grams, QueueSnapshot;
    if v.viewer.Some? {
      if Backlog(v) == 0 { NothingQueued(v); } else { QueueBatchOutcome(v, Batch(v)); }
    }
  }

}
