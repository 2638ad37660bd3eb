/** One mailbox shared by any number of connection handlers, at the granularity of its two locks: a step is
    what one handler does while it holds MsgMu or NotifyMu, so queueing is two steps, and a filtered receive
    is taking, writing and, when the write failed, putting back. A lost or resumed connection is a handler
    whose write fails and another handler that starts later on the same mailbox. */
module MailboxRuns {
  import opened Mmtp
  import opened MailboxSpec

  /** Who holds MsgMu across a write, and what it is writing. */
  datatype Writer =
    | Free
    | Filtered(batch: Store)    // the batch has left `messages`
    | Everything(batch: Store)  // the batch is still in `messages`

  datatype State = State(
    now: int,
    messages: Store,
    notifications: Store,
    between: multiset<string>,      // UUIDs whose queueing is between its two locks
    writer: Writer,
    held: multiset<string>,         // UUIDs of failed filtered receives, not yet put back
    // history
    names: Store,                   // the message that a UUID names
    queued: multiset<string>,       // accepted by QueueMessage
    delivered: multiset<string>,    // in a response that was written
    dropped: multiset<string>,      // deleted because expired
    notified: set<string>,          // in a Notify that was written
    answered: set<string>,          // put in some Receive response
    raced: set<string>)             // taken by a receive while its queueing was between the locks

  datatype Step =
    | QueueMessages(m: Message)
    | QueueNotification(u: string)
    | NotifyStep(written: bool)
    | TakeSome(ids: seq<string>)
    | WriteSome(written: bool)
    | PutBack(us: set<string>)      // a batch of a failed receive; any part of what is held will do
    | TakeAll
    | WriteAll(written: bool)
    | ExpireStep                    // a fetch or a garbage collection
    | Tick(now: int)

  predicate Enabled(s: State, step: Step) {
    match step
    case QueueMessages(m) =>
      s.writer.Free? && Storable(m.uuid, m) && (m.uuid in s.names ==> s.names[m.uuid] == m)
    case QueueNotification(u) => u in s.between && u in s.names
    case NotifyStep(_) => s.notifications != map[]
    case TakeSome(ids) => s.writer.Free?
    case WriteSome(_) => s.writer.Filtered?
    case PutBack(us) => s.writer.Free? && forall u :: u in us ==> u in s.held && u in s.names
    case TakeAll => s.writer.Free?
    case WriteAll(_) => s.writer.Everything?
    case ExpireStep => s.writer.Free?
    case Tick(now) => s.now <= now
  }

  /** The members of a set that are in a bag. */
  function Meet(us: set<string>, bag: multiset<string>): set<string> {
    set u | u in us && u in bag
  }

  // ---- the steps, one function each ----

  function Accept(s: State, m: Message): State {
    s.(messages := s.messages[m.uuid := m], between := s.between + multiset{m.uuid},
       names := s.names[m.uuid := m], queued := s.queued + multiset{m.uuid})
  }

  function Announce(s: State, u: string): State
    requires u in s.names
  {
    s.(notifications := s.notifications[u := s.names[u]], between := s.between - multiset{u})
  }

  function Tell(s: State): State {
    s.(notifications := map[], notified := s.notified + s.notifications.Keys)
  }

  /** A receive answers `batch`: its notifications are dropped, and what is half queued of it is a race. */
  function Answering(s: State, batch: Store): State {
    s.(notifications := s.notifications - batch.Keys, answered := s.answered + batch.Keys,
       raced := s.raced + Meet(batch.Keys, s.between))
  }

  function Take(s: State, ids: seq<string>): State {
    var batch := Requested(s.messages, ids);
    Answering(s, batch).(messages := s.messages - SetOf(ids), writer := Filtered(batch))
  }

  function Delivered(s: State): State
    requires s.writer.Filtered?
  {
    s.(writer := Free, delivered := s.delivered + multiset(s.writer.batch.Keys))
  }

  function Failed(s: State): State
    requires s.writer.Filtered?
  {
    s.(writer := Free, held := s.held + multiset(s.writer.batch.Keys))
  }

  function Restore(s: State, us: set<string>): State
    requires forall u :: u in us ==> u in s.names
  {
    s.(messages := s.messages + (map u | u in us :: s.names[u]), held := s.held - multiset(us))
  }

  function Snapshot(s: State): State {
    var batch := Live(s.messages, s.now);
    Answering(s, batch).(writer := Everything(batch))
  }

  function Emptied(s: State): State
    requires s.writer.Everything?
  {
    s.(writer := Free, messages := map[], delivered := s.delivered + multiset(s.writer.batch.Keys),
       dropped := s.dropped + multiset(s.messages.Keys - s.writer.batch.Keys))
  }

  function Purged(s: State): State {
    var kept := Live(s.messages, s.now);
    s.(messages := kept, dropped := s.dropped + multiset(s.messages.Keys - kept.Keys))
  }

  function Apply(s: State, step: Step): State
    requires Enabled(s, step)
  {
    match step
    case QueueMessages(m) => Accept(s, m)
    case QueueNotification(u) => Announce(s, u)
    case NotifyStep(written) => if written then Tell(s) else s
    case TakeSome(ids) => Take(s, ids)
    case WriteSome(written) => if written then Delivered(s) else Failed(s)
    case PutBack(us) => Restore(s, us)
    case TakeAll => Snapshot(s)
    case WriteAll(written) => if written then Emptied(s) else s.(writer := Free)
    case ExpireStep => Purged(s)
    case Tick(now) => s.(now := now)
  }

  ghost predicate Init(s: State) {
    && s.messages == map[] && s.notifications == map[] && s.between == multiset{} && s.writer.Free?
    && s.held == multiset{} && s.names == map[] && s.queued == multiset{} && s.delivered == multiset{}
    && s.dropped == multiset{} && s.notified == {} && s.answered == {} && s.raced == {}
  }

  ghost predicate Next(s: State, s': State) {
    exists step :: Enabled(s, step) && s' == Apply(s, step)
  }

  ghost predicate IsRun(run: seq<State>) {
    && |run| > 0 && Init(run[0])
    && forall i :: 0 < i < |run| ==> Next(run[i - 1], run[i])
  }

  // ---- where a UUID can be ----

  predicate InWrite(s: State, u: string) {
    s.writer.Filtered? && u in s.writer.batch
  }

  /** Copies of `u` that a receive has taken out and neither delivered nor put back. */
  function Taken(s: State, u: string): nat {
    s.held[u] + if InWrite(s, u) then 1 else 0
  }

  function Stored(s: State, u: string): nat {
    if u in s.messages then 1 else 0
  }

  /** `u` is stored, or a receive holds it. */
  predicate Present(s: State, u: string) {
    Stored(s, u) + Taken(s, u) > 0
  }

  predicate Expired(s: State, u: string) {
    u in s.names && ExpiresOf(s.names[u]) < s.now
  }

  // ---- the invariant ----

  /** What is known of one UUID. */
  ghost predicate NamedAt(s: State, u: string) {
    && (u in s.names ==> Storable(u, s.names[u]))
    && (u in s.messages ==> u in s.names && s.messages[u] == s.names[u])
    && (u in s.notifications ==> u in s.names && s.notifications[u] == s.names[u])
    && (!s.writer.Free? && u in s.writer.batch ==> u in s.names && s.writer.batch[u] == s.names[u])
    && (u in s.held || u in s.between || u in s.dropped || u in s.delivered ==> u in s.names)
    && (u in s.queued <==> u in s.names)
  }

  /** While a full receive writes, its batch stays stored, and only expired messages are outside it. */
  ghost predicate SnapshotAt(s: State, u: string) {
    s.writer.Everything? ==>
      && (u in s.writer.batch ==> u in s.messages)
      && (u in s.messages ==> u in s.writer.batch || Expired(s, u))
  }

  /** An accepted message is somewhere, and in no more places than it was queued times. */
  ghost predicate CountedAt(s: State, u: string) {
    && (u in s.queued ==> Present(s, u) || u in s.delivered || u in s.dropped)
    && s.delivered[u] + s.dropped[u] + Taken(s, u) + Stored(s, u) <= s.queued[u]
    && (u in s.dropped ==> Expired(s, u))
  }

  /** A stored message that no notification is due for has one coming, or its consumer has heard of it. */
  ghost predicate NotificationNotLostAt(s: State, u: string) {
    && (u in s.messages && u !in s.notifications ==> u in s.between || u in s.notified || u in s.answered)
    && (Taken(s, u) > 0 ==> u in s.answered)
  }

  /** A notification, due or coming, without its message is for an expired or a raced one. */
  ghost predicate NotificationGroundedAt(s: State, u: string) {
    u in s.notifications || u in s.between ==>
      && (Present(s, u) || Expired(s, u) || u in s.raced)
      && (!s.writer.Free? && u in s.writer.batch ==> u in s.raced)
  }

  ghost predicate InvAt(s: State, u: string) {
    && NamedAt(s, u) && SnapshotAt(s, u) && CountedAt(s, u)
    && NotificationNotLostAt(s, u) && NotificationGroundedAt(s, u)
  }

  ghost predicate Inv(s: State) {
    forall u :: InvAt(s, u)
  }

  // ---- preservation ----

  lemma AcceptAt(s: State, m: Message, u: string)
    requires InvAt(s, u) && s.writer.Free? && Storable(m.uuid, m)
    requires m.uuid in s.names ==> s.names[m.uuid] == m
    ensures InvAt(Accept(s, m), u)
  {
  }

  lemma AnnounceAt(s: State, v: string, u: string)
    requires InvAt(s, u) && v in s.between && v in s.names
    ensures InvAt(Announce(s, v), u)
  {
  }

  lemma TellAt(s: State, u: string)
    requires InvAt(s, u)
    ensures InvAt(Tell(s), u)
  {
  }

  lemma TakeAt(s: State, ids: seq<string>, u: string)
    requires InvAt(s, u) && s.writer.Free?
    ensures InvAt(Take(s, ids), u)
  {
  }

  lemma DeliveredAt(s: State, u: string)
    requires InvAt(s, u) && s.writer.Filtered?
    ensures InvAt(Delivered(s), u)
  {
  }

  lemma FailedAt(s: State, u: string)
    requires InvAt(s, u) && s.writer.Filtered?
    ensures InvAt(Failed(s), u)
  {
  }

  lemma RestoreAt(s: State, us: set<string>, u: string)
    requires InvAt(s, u) && s.writer.Free?
    requires forall v :: v in us ==> v in s.held && v in s.names
    ensures InvAt(Restore(s, us), u)
  {
  }

  lemma SnapshotTakenAt(s: State, u: string)
    requires InvAt(s, u) && s.writer.Free?
    ensures InvAt(Snapshot(s), u)
  {
  }

  lemma EmptiedAt(s: State, u: string)
    requires InvAt(s, u) && s.writer.Everything?
    ensures InvAt(Emptied(s), u)
  {
    assert u in multiset(s.messages.Keys - s.writer.batch.Keys) <==> u in s.messages && u !in s.writer.batch;
  }

  lemma PurgedAt(s: State, u: string)
    requires InvAt(s, u) && s.writer.Free?
    ensures InvAt(Purged(s), u)
  {
    assert u in multiset(s.messages.Keys - Live(s.messages, s.now).Keys) <==>
      u in s.messages && ExpiresOf(s.messages[u]) < s.now;
  }

  lemma StepAt(s: State, step: Step, u: string)
    requires InvAt(s, u) && Enabled(s, step)
    ensures InvAt(Apply(s, step), u)
  {
    hide Accept, Announce, Tell, Take, Delivered, Failed, Restore, Snapshot, Emptied, Purged;
    match step {
      case QueueMessages(m) => AcceptAt(s, m, u);
      case QueueNotification(v) => AnnounceAt(s, v, u);
      case NotifyStep(_) => TellAt(s, u);
      case TakeSome(ids) => TakeAt(s, ids, u);
      case WriteSome(written) => if written { DeliveredAt(s, u); } else { FailedAt(s, u); }
      case PutBack(us) => RestoreAt(s, us, u);
      case TakeAll => SnapshotTakenAt(s, u);
      case WriteAll(written) => if written { EmptiedAt(s, u); }
      case ExpireStep => PurgedAt(s, u);
      case Tick(_) =>
    }
  }

  lemma InitInv(s: State)
    requires Init(s)
    ensures Inv(s)
  {
  }

  lemma {:induction false} RunInvariant(run: seq<State>)
    requires IsRun(run)
    ensures Inv(run[|run| - 1])
    decreases |run|
  {
    var n := |run| - 1;
    if n == 0 {
      InitInv(run[0]);
    } else {
      RunInvariant(run[..n]);
      hide InvAt, Apply, Enabled, Init;
      assert Next(run[n - 1], run[n]);
      var step :| Enabled(run[n - 1], step) && run[n] == Apply(run[n - 1], step);
      forall u ensures InvAt(run[n], u) {
        assert InvAt(run[n - 1], u);
        StepAt(run[n - 1], step, u);
      }
    }
  }

  // ---- main results, of every run ----

  /** Conservation: an accepted UUID is stored, in the hands of a receive, delivered, or dropped after it
      expired, and it is in no more of these places than it was queued times. Queued once, it is in exactly
      one place. */
  lemma ExactlyOnePlace(run: seq<State>, u: string)
    requires IsRun(run)
    ensures
      var s := run[|run| - 1];
      var places := s.delivered[u] + s.dropped[u] + Taken(s, u) + Stored(s, u);
      && places <= s.queued[u]
      && (u in s.queued ==> places > 0)
      && (s.queued[u] == 1 ==> places == 1)
      && (u in s.dropped ==> u in s.names && ExpiresOf(s.names[u]) < s.now)
  {
    RunInvariant(run);
    assert InvAt(run[|run| - 1], u);
  }

  /** Stored messages are well formed: a key is its message's UUID, and the message is a Send with a header. */
  lemma StoredWellFormed(run: seq<State>)
    requires IsRun(run)
    ensures WellFormed(Box(run[|run| - 1].messages, run[|run| - 1].notifications))
  {
    RunInvariant(run);
    var s := run[|run| - 1];
    forall u
      ensures u in s.messages ==> Storable(u, s.messages[u])
      ensures u in s.notifications ==> Storable(u, s.notifications[u])
    {
      assert InvAt(s, u);
    }
  }

  /** No lost notification. */
  lemma NoLostNotification(run: seq<State>, u: string)
    requires IsRun(run)
    requires u in run[|run| - 1].messages && u !in run[|run| - 1].notifications
    ensures
      var s := run[|run| - 1];
      u in s.between || u in s.notified || u in s.answered
  {
    RunInvariant(run);
    assert InvAt(run[|run| - 1], u);
  }

  /** A notification without a stored or held message is for an expired message, or for one that a receive
      took while its queueing was between the two locks. */
  lemma DanglingNotification(run: seq<State>, u: string)
    requires IsRun(run)
    requires u in run[|run| - 1].notifications && !Present(run[|run| - 1], u)
    ensures
      var s := run[|run| - 1];
      u in s.raced || (u in s.names && ExpiresOf(s.names[u]) < s.now)
  {
    RunInvariant(run);
    assert InvAt(run[|run| - 1], u);
  }

  /** In this run no receive starts while a message is half queued, as when QueueMessage is one step. */
  ghost predicate QueueingUndivided(run: seq<State>) {
    forall i :: 0 < i < |run| && run[i].writer != run[i - 1].writer && !run[i].writer.Free? ==>
      run[i - 1].between == multiset{}
  }

  lemma TakeRaces(s: State, ids: seq<string>)
    requires s.between == multiset{}
    ensures Take(s, ids).raced == s.raced && Snapshot(s).raced == s.raced
  {
    assert Meet(Requested(s.messages, ids).Keys, s.between) == {};
    assert Meet(Live(s.messages, s.now).Keys, s.between) == {};
  }

  /** Only a receive that starts while a message is half queued adds to the races. */
  lemma RacedStep(s: State, step: Step)
    requires Enabled(s, step)
    ensures
      var s' := Apply(s, step);
      s'.raced == s.raced || (s'.writer != s.writer && !s'.writer.Free? && s.between != multiset{})
  {
    hide Answering, Requested, Live, Meet, SetOf;
    if s.between == multiset{} {
      TakeRaces(s, if step.TakeSome? then step.ids else []);
    }
  }

  lemma RacedNext(s: State, s': State)
    requires Next(s, s')
    ensures s'.raced == s.raced || (s'.writer != s.writer && !s'.writer.Free? && s.between != multiset{})
  {
    var step :| Enabled(s, step) && s' == Apply(s, step);
    RacedStep(s, step);
  }

  lemma PrefixOfUndivided(run: seq<State>, n: nat)
    requires IsRun(run) && QueueingUndivided(run) && 0 < n <= |run|
    ensures IsRun(run[..n]) && QueueingUndivided(run[..n])
  {
  }

  lemma {:induction false} UndividedNeverRaces(run: seq<State>)
    requires IsRun(run) && QueueingUndivided(run)
    ensures run[|run| - 1].raced == {}
    decreases |run|
  {
    var n := |run| - 1;
    if n > 0 {
      PrefixOfUndivided(run, n);
      UndividedNeverRaces(run[..n]);
      RacedNext(run[n - 1], run[n]);
    }
  }

  /** With QueueMessage as one step, a notification without a stored or held message is for an expired one. */
  lemma DanglingOnlyIfExpired(run: seq<State>, u: string)
    requires IsRun(run) && QueueingUndivided(run)
    requires u in run[|run| - 1].notifications && !Present(run[|run| - 1], u)
    ensures
      var s := run[|run| - 1];
      u in s.names && ExpiresOf(s.names[u]) < s.now
  {
    DanglingNotification(run, u);
    UndividedNeverRaces(run);
  }

  // ---- exactly when a notification for a live message is left without the message ----

  /** A notification is due for a live message that is neither stored nor held. */
  ghost predicate Dangles(s: State, u: string) {
    u in s.notifications && !Present(s, u) && !Expired(s, u)
  }

  /** The second half of a QueueMessage finds its live message gone, or a receive that took the last copy of a live
      message is written while a notification about it is due. */
  ghost predicate LeavesDangling(s: State, step: Step, u: string) {
    match step
    case QueueNotification(v) => v == u && !Present(s, u) && !Expired(s, u)
    case WriteSome(written) => written && TakesLast(s, u) && u !in s.messages
    case WriteAll(written) => written && TakesLast(s, u)
    case _ => false
  }

  ghost predicate TakesLast(s: State, u: string) {
    !s.writer.Free? && u in s.writer.batch && s.held[u] == 0 && u in s.notifications && !Expired(s, u)
  }

  /** Such a notification is for a delivered message. */
  lemma DanglingIsDelivered(s: State, u: string)
    requires InvAt(s, u) && Dangles(s, u)
    ensures u in s.delivered && u in s.raced
  {
  }

  lemma TakenStaysPresent(s: State, step: Step, u: string)
    requires InvAt(s, u) && Enabled(s, step) && (step.TakeSome? || step.TakeAll? || step.ExpireStep? || step.PutBack?)
    ensures Dangles(Apply(s, step), u) ==> Dangles(s, u)
  {
  }

  lemma WriteSomeLeaves(s: State, written: bool, u: string)
    requires InvAt(s, u) && s.writer.Filtered?
    ensures Dangles(Apply(s, WriteSome(written)), u) <==> LeavesDangling(s, WriteSome(written), u) || Dangles(s, u)
  {
  }

  lemma WriteAllLeaves(s: State, written: bool, u: string)
    requires InvAt(s, u) && s.writer.Everything?
    ensures Dangles(Apply(s, WriteAll(written)), u) <==> LeavesDangling(s, WriteAll(written), u) || Dangles(s, u)
  {
  }

  lemma QueueingLeaves(s: State, step: Step, u: string)
    requires InvAt(s, u) && Enabled(s, step)
    requires step.QueueMessages? || step.QueueNotification? || step.NotifyStep? || step.Tick?
    ensures Dangles(Apply(s, step), u) ==> LeavesDangling(s, step, u) || Dangles(s, u)
    ensures LeavesDangling(s, step, u) ==> Dangles(Apply(s, step), u)
  {
  }

  /** Whatever the interleaving, a step leaves such a notification where there was none exactly under this condition. */
  lemma DanglingStep(s: State, step: Step, u: string)
    requires InvAt(s, u) && Enabled(s, step)
    ensures LeavesDangling(s, step, u) ==> Dangles(Apply(s, step), u)
    ensures Dangles(Apply(s, step), u) ==> LeavesDangling(s, step, u) || Dangles(s, u)
  {
    hide InvAt, Apply, Dangles;
    match step {
      case TakeSome(_) => TakenStaysPresent(s, step, u);
      case TakeAll => TakenStaysPresent(s, step, u);
      case ExpireStep => TakenStaysPresent(s, step, u);
      case PutBack(_) => TakenStaysPresent(s, step, u);
      case WriteSome(written) => WriteSomeLeaves(s, written, u);
      case WriteAll(written) => WriteAllLeaves(s, written, u);
      case _ => QueueingLeaves(s, step, u);
    }
  }

  ghost predicate Follows(run: seq<State>, steps: seq<Step>) {
    && |run| == |steps| + 1 && Init(run[0])
    && forall i :: 0 <= i < |steps| ==> Enabled(run[i], steps[i]) && run[i + 1] == Apply(run[i], steps[i])
  }

  lemma FollowsIsRun(run: seq<State>, steps: seq<Step>, n: nat)
    requires Follows(run, steps) && n <= |steps|
    ensures IsRun(run[..n + 1]) && Inv(run[n])
  {
    hide Init, Enabled, Apply, Inv;
    forall i | 0 < i < n + 1 ensures Next(run[i - 1], run[i]) {
      assert Enabled(run[i - 1], steps[i - 1]) && run[i] == Apply(run[i - 1], steps[i - 1]);
    }
    RunInvariant(run[..n + 1]);
  }

  ghost predicate EverDangles(run: seq<State>, n: nat, u: string)
    requires n < |run|
  {
    exists i :: 0 <= i <= n && Dangles(run[i], u)
  }

  ghost predicate EverLeaves(run: seq<State>, steps: seq<Step>, n: nat, u: string)
    requires n <= |steps| < |run|
  {
    exists i :: 0 <= i < n && LeavesDangling(run[i], steps[i], u)
  }

  lemma DanglesMore(run: seq<State>, steps: seq<Step>, n: nat, u: string)
    requires 0 < n <= |steps| < |run|
    ensures EverDangles(run, n, u) <==> EverDangles(run, n - 1, u) || Dangles(run[n], u)
    ensures EverLeaves(run, steps, n, u) <==>
      EverLeaves(run, steps, n - 1, u) || LeavesDangling(run[n - 1], steps[n - 1], u)
    ensures Dangles(run[n - 1], u) ==> EverDangles(run, n - 1, u)
  {
    hide Dangles, LeavesDangling;
  }

  /** In every run: a notification for a live message is ever left without the message if and only if some step
      meets the condition. */
  lemma {:induction false} DanglingExactly(run: seq<State>, steps: seq<Step>, n: nat, u: string)
    requires Follows(run, steps) && n <= |steps|
    ensures EverDangles(run, n, u) <==> EverLeaves(run, steps, n, u)
  {
    if n > 0 {
      hide Enabled, Apply, Dangles, LeavesDangling, EverDangles, EverLeaves, Inv, InvAt, Init;
      DanglingExactly(run, steps, n - 1, u);
      DanglesMore(run, steps, n, u);
      FollowsIsRun(run, steps, n - 1);
      InvHasAt(run[n - 1], u);
      DanglingStep(run[n - 1], steps[n - 1], u);
    }
  }

  lemma InvHasAt(s: State, u: string)
    requires Inv(s)
    ensures InvAt(s, u)
  {
  }

  /** A filtered receive that nothing interrupts leaves such a notification of a live stored message behind if and only
      if it asks for the message while its queueing is between the two locks; the second half of the queueing may come
      before the write or after it. */
  lemma FilteredRaceExactly(s: State, ids: seq<string>, u: string)
    requires InvAt(s, u) && s.writer.Free? && s.held[u] == 0
    requires u in s.messages && !Expired(s, u)
    ensures
      var s1 := Take(s, ids);
      var s2 := Delivered(s1);
      && (u in s2.between && Dangles(Announce(s2, u), u) <==> u in ids && u in s.between)
      && (u in s1.between && Dangles(Delivered(Announce(s1, u)), u) <==> u in ids && u in s.between)
  {
    var s1 := Take(s, ids);
    var s2 := Delivered(s1);
    assert u in SetOf(ids) <==> u in ids;
    assert s1.between == s.between == s2.between && s1.names == s.names == s2.names && s2.held == s.held;
    assert u in ids <==> u in s1.writer.batch;
    assert u in ids <==> u !in s2.messages;
  }

  /** An unfiltered receive does so if and only if the queueing is between the locks. */
  lemma FullRaceExactly(s: State, u: string)
    requires InvAt(s, u) && s.writer.Free? && s.held[u] == 0
    requires u in s.messages && !Expired(s, u)
    ensures
      var s1 := Snapshot(s);
      var s2 := Emptied(s1);
      && (u in s2.between && Dangles(Announce(s2, u), u) <==> u in s.between)
      && (u in s1.between && Dangles(Emptied(Announce(s1, u)), u) <==> u in s.between)
  {
  }

  /** Such a run from the start: a message is queued, taken and delivered between the two locks. */
  lemma RaceLeavesNotification(start: State, m: Message, ids: seq<string>)
    requires Init(start) && Storable(m.uuid, m) && start.now <= ExpiresOf(m) && m.uuid in ids
    ensures exists run :: IsRun(run) && run[0] == start && Dangles(run[|run| - 1], m.uuid)
  {
    var s1 := Accept(start, m);
    var s2 := Take(s1, ids);
    var s3 := Delivered(s2);
    var s4 := Announce(s3, m.uuid);
    var run := [start, s1, s2, s3, s4];
    assert m.uuid in s2.writer.batch;
    assert Dangles(s4, m.uuid) by { hide Apply, Enabled; }
    assert IsRun(run) by {
      hide Accept, Take, Delivered, Announce;
      assert s1 == Apply(start, QueueMessages(m));
      assert s2 == Apply(s1, TakeSome(ids));
      assert s3 == Apply(s2, WriteSome(true));
      assert s4 == Apply(s3, QueueNotification(m.uuid));
    }
  }

  // ---- the handlers of MailboxSpec are the uninterrupted sequences of these steps ----

  lemma ReceiveSomeIsThreeSteps(s: State, ids: seq<string>, written: bool)
    requires s.writer.Free? && Inv(s)
    ensures
      var s1 := Take(s, ids);
      forall u :: u in s1.writer.batch ==> u in Failed(s1).held && u in s1.names
    ensures
      var s1 := Take(s, ids);
      var end := if written then Delivered(s1) else Restore(Failed(s1), s1.writer.batch.Keys);
      Box(end.messages, end.notifications) == ReceiveSome(Box(s.messages, s.notifications), ids, written)
  {
    hide Apply, Enabled;
    forall u | u in s.messages ensures u in s.names && s.messages[u] == s.names[u] { assert InvAt(s, u); }
    var batch := Requested(s.messages, ids);
    assert batch.Keys == SetOf(ids) * s.messages.Keys;
    assert (s.messages - SetOf(ids)) + (map u | u in batch.Keys :: s.names[u]) == s.messages;
  }

  lemma ReceiveAllIsTwoSteps(s: State, written: bool)
    requires s.writer.Free?
    ensures
      var s1 := Snapshot(s);
      var end := if written then Emptied(s1) else s1;
      Box(end.messages, end.notifications) == ReceiveAll(Box(s.messages, s.notifications), s.now, written)
  {
  }

  /** Queueing is its two halves, each under its own lock. */
  lemma QueueIsTwoSteps(s: State, m: Message)
    requires Enabled(s, QueueMessages(m))
    ensures
      var s1 := Apply(s, QueueMessages(m));
      && Enabled(s1, QueueNotification(m.uuid))
      && var s2 := Apply(s1, QueueNotification(m.uuid));
      && Box(s2.messages, s2.notifications) == Queue(Box(s.messages, s.notifications), m)
      && s2.between == s.between
  {
    var s1 := Apply(s, QueueMessages(m));
    assert s1.between - multiset{m.uuid} == s.between;
  }

  /** A round of the notifier, and a fetch or a garbage collection, are one step each. */
  lemma NotifyAndExpireAreOneStep(s: State, written: bool)
    ensures s.notifications != map[] ==>
      var n := Apply(s, NotifyStep(written));
      Box(n.messages, n.notifications) == NotifyAll(Box(s.messages, s.notifications), written)
    ensures s.writer.Free? ==>
      var n := Apply(s, ExpireStep);
      Box(n.messages, n.notifications) == Expire(Box(s.messages, s.notifications), s.now)
  {
  }
}
