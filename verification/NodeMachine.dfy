/** The node state machine: the event engine with its hooks, and the power operations around it. */
module NodeMachine {
  import opened Objects
  import opened Lease
  import opened LeaseProtocol
  import opened Events
  import opened ApiServers
  import opened Coordination
  import opened Uncordon
  import opened Backoff

  const SCALE_UP := Text("scale-up")
  const SCALE_DOWN := Text("scale-down")
  const DEFAULT_JOB_TIMEOUT := 5 * MINUTE
  const DEFAULT_UNCORDON_TIMEOUT := 90 * SECOND

  /** The state a machine starts in; empty or unknown progress counts as shutdown. */
  function StateOf(p: Progress): State {
    match p
    case ProgressShutdown => Shutdown
    case ProgressStartingUp => StartingUp
    case ProgressReady => Ready
    case ProgressShuttingDown => ShuttingDown
    case ProgressOther(_) => Shutdown
  }

  function ProgressOf(s: State): Progress {
    match s
    case Shutdown => ProgressShutdown
    case StartingUp => ProgressStartingUp
    case Ready => ProgressReady
    case ShuttingDown => ProgressShuttingDown
  }

  /** The progress that is written for a state is one of the four names, and read back it gives that state. */
  lemma ProgressReadsBack(s: State)
    ensures !ProgressOf(s).ProgressOther? && StateOf(ProgressOf(s)) == s
  {
  }

  function OperationFor(e: Event): Value {
    if e == StartNode then Text("scale-up") else Text("scale-down")
  }

  /** The after hooks of these events release the lock. */
  predicate Releases(e: Event) {
    e == JobCompleted || e == JobFailed || e == ForceCleanup
  }

  function WithProgress(status: Status, p: Progress, at: int): Status {
    var s := status.(progress := p);
    if p == ProgressStartingUp then s.(lastStartup := Some(FloorSecond(at)))
    else if p == ProgressShuttingDown then s.(lastShutdown := Some(FloorSecond(at)))
    else s
  }

  // ---- what a list of this side's commits has gained

  /** One more commit, a legal one of the given writer. */
  ghost predicate Gained(before: seq<Commit>, after: seq<Commit>, who: Writer) {
    && |after| == |before| + 1 && after[..|before|] == before
    && Legal(after[|before|]) && after[|before|].who == who
  }

  /** One more commit, that took the lock for `operation` at an instant from `since` to `until`. */
  ghost predicate Took(before: seq<Commit>, after: seq<Commit>, operation: Value, owner: Value,
                       since: int, until: int)
  {
    && |after| == |before| + 1
    && var who := after[|before|].who;
    && who.Acquirer? && who == Acquirer(operation, owner, who.stamp, 5 * MINUTE)
    && since <= who.stamp <= after[|before|].at <= until
    && Gained(before, after, who)
  }

  // ---- what the log of status writes has gained

  /** The time of the write, to the second. */
  predicate Stamped(t: Option<int>, at: int) {
    t.Some? && t.value % SECOND == 0 && at - SECOND < t.value <= at
  }

  /** The write set the progress, with it the time of the last startup or shutdown if one has begun, and nothing
      else. */
  predicate SetsProgress(c: Commit, p: Progress) {
    && c.before.Some? && c.after.Some?
    && var was, status := c.before.value.status, c.after.value.status;
    && c.after.value == c.before.value.(version := c.after.value.version, status := status)
    && status.progress == p && status.power == was.power
    && (if p == ProgressStartingUp then Stamped(status.lastStartup, c.at) else status.lastStartup == was.lastStartup)
    && (if p == ProgressShuttingDown then Stamped(status.lastShutdown, c.at)
        else status.lastShutdown == was.lastShutdown)
  }

  /** At most so many more writes, and all of them, at instants from `since` to `until`, set this progress. */
  ghost predicate OnlyProgress(before: seq<Commit>, after: seq<Commit>, p: Progress, most: nat, since: int, until: int)
  {
    && before <= after && |after| <= |before| + most
    && forall i :: |before| <= i < |after| ==> SetsProgress(after[i], p) && since <= after[i].at <= until
  }

  /** The same, `ok` exactly if there is a write, and then `node` is what the last one left. */
  ghost predicate Logged(before: seq<Commit>, after: seq<Commit>, p: Progress, ok: bool, most: nat,
                         since: int, until: int, node: Node)
  {
    && OnlyProgress(before, after, p, most, since, until)
    && (ok <==> |after| > |before|) && (ok ==> after[|after| - 1].after == Some(node))
  }

  lemma LoggedOn(before: seq<Commit>, mid: seq<Commit>, after: seq<Commit>, p: Progress, ok: bool, ok': bool,
                 m: nat, n: nat, since: int, between: int, until: int, node: Node, node': Node)
    requires Logged(before, mid, p, ok, m, since, between, node)
    requires Logged(mid, after, p, ok', n, between, until, node')
    requires since <= between <= until && (!ok' ==> node' == node)
    ensures Logged(before, after, p, ok || ok', m + n, since, until, node')
  {
  }

  lemma LoggedSince(before: seq<Commit>, after: seq<Commit>, p: Progress, ok: bool, most: nat, since: int, until: int,
                    node: Node, earlier: int)
    requires Logged(before, after, p, ok, most, since, until, node) && earlier <= since
    ensures Logged(before, after, p, ok, most, earlier, until, node)
  {
  }

  // ---- jobs

  /** An unfinished power job of a Kubernetes node. */
  predicate Pending(job: Job, node: string) {
    job.node == node && !job.kind.OtherJob? && job.succeeded == 0 && job.failed == 0
  }

  function Pruned(jobs: map<string, Job>, node: string): map<string, Job> {
    map n | n in jobs && !Pending(jobs[n], node) :: jobs[n]
  }

  /** Some pending jobs of the node are gone, nothing else has changed. */
  ghost predicate Thinned(before: map<string, Job>, after: map<string, Job>, node: string) {
    && (forall n :: n in after ==> n in before && after[n] == before[n])
    && (forall n :: n in before && !Pending(before[n], node) ==> n in after)
  }

  /** The names of the pending jobs of a list, in order. */
  ghost function PendingNames(list: seq<Job>, node: string): seq<string> {
    if list == [] then []
    else
      var last := list[|list| - 1];
      PendingNames(list[..|list| - 1], node) + if Pending(last, node) then [last.name] else []
  }

  /** Since `before` deletion was asked for by exactly these names, in this order. */
  ghost predicate AskedFor(before: seq<Deletion>, after: seq<Deletion>, names: seq<string>) {
    && |after| == |before| + |names| && after[..|before|] == before
    && forall k :: 0 <= k < |names| ==> after[|before| + k].name == names[k]
  }

  lemma AskedOn(before: seq<Deletion>, mid: seq<Deletion>, after: seq<Deletion>, names: seq<string>,
                more: seq<string>)
    requires AskedFor(before, mid, names) && AskedFor(mid, after, more)
    ensures AskedFor(before, after, names + more)
  {
  }

  /** A cleanup has fetched one list and asked for the deletion of exactly its pending jobs; or it got no list, or
      wanted none, and asked for nothing. (A job may have finished by the time it is deleted: deletion goes by name.) */
  ghost predicate Cleaned(listings: seq<seq<Job>>, listings': seq<seq<Job>>, before: seq<Deletion>,
                          after: seq<Deletion>, node: string)
  {
    || (listings' == listings && after == before)
    || (node != "" && |listings'| == |listings| + 1 && listings'[..|listings|] == listings
        && AskedFor(before, after, PendingNames(listings'[|listings|], node)))
  }

  // Cleanup has been through the first `done` jobs of the list.
  ghost predicate Cleaning(before: map<string, Job>, jobs: map<string, Job>, list: seq<Job>, done: nat, node: string,
                           reliable: bool)
    requires done <= |list|
  {
    && Thinned(before, jobs, node)
    && (forall j :: j in list ==> j.name in before && before[j.name] == j)
    && (reliable ==> forall n :: n in jobs && Pending(jobs[n], node) ==> jobs[n] in list[done..])
  }

  lemma CleaningOn(before: map<string, Job>, mid: map<string, Job>, after: map<string, Job>, list: seq<Job>, i: nat,
                   node: string, reliable: bool)
    requires i < |list| && Cleaning(before, mid, list, i, node, reliable) && list[i].node == node
    requires forall n :: n in before ==> before[n].name == n
    requires after == mid || (Pending(list[i], node) && after == mid - {list[i].name})
    requires reliable && Pending(list[i], node) ==> list[i].name !in after
    ensures Cleaning(before, after, list, i + 1, node, reliable)
  {
  }

  lemma ThinnedToPruned(before: map<string, Job>, after: map<string, Job>, node: string)
    requires Thinned(before, after, node) && forall n :: n in after ==> !Pending(after[n], node)
    ensures after == Pruned(before, node)
  {
  }

  function Decimal(n: nat): string {
    if n < 10 then ["0123456789"[n]] else Decimal(n / 10) + ["0123456789"[n % 10]]
  }

  function JobName(node: string, kind: JobType, at: nat): string {
    node + (if kind == StartupJob then "-startup-" else "-shutdown-") + Decimal(at / SECOND)
  }

  // The number that decimal digits stand for.
  function NumberOf(digits: string): int {
    if digits == "" then 0
    else NumberOf(digits[..|digits| - 1]) * 10 + (digits[|digits| - 1] as int - '0' as int)
  }

  lemma {:induction false} DecimalReadsBack(n: nat)
    ensures NumberOf(Decimal(n)) == n
  {
    if n >= 10 {
      DecimalReadsBack(n / 10);
      assert Decimal(n)[..|Decimal(n)| - 1] == Decimal(n / 10);
    }
  }

  lemma SamePrefix(node: string, middle: string, tail: string)
    requires |middle| > 2
    ensures (node + middle + tail)[|node| + 2] == middle[2]
    ensures (node + middle + tail)[|node| + |middle|..] == tail
    ensures node + middle <= node + middle + tail
  {
  }

  /** Power jobs of one node have the same name only if they are of one type and from the same second. */
  lemma JobNamesDiffer(node: string, kind: JobType, at: nat, kind': JobType, at': nat)
    requires !kind.OtherJob? && !kind'.OtherJob? && JobName(node, kind, at) == JobName(node, kind', at')
    ensures kind == kind' && at / 1_000_000_000 == at' / 1_000_000_000
    ensures node + (if kind == StartupJob then "-startup-" else "-shutdown-") <= JobName(node, kind, at)
  {
    var middle := if kind == StartupJob then "-startup-" else "-shutdown-";
    var middle' := if kind' == StartupJob then "-startup-" else "-shutdown-";
    SamePrefix(node, middle, Decimal(at / SECOND));
    SamePrefix(node, middle', Decimal(at' / SECOND));
    assert "-startup-"[2] == 't' && "-shutdown-"[2] == 'h';
    DecimalReadsBack(at / SECOND);
    DecimalReadsBack(at' / SECOND);
  }

  /** No job has a name that a job of this kind could get. */
  ghost predicate Unused(jobs: map<string, Job>, node: string, kind: JobType) {
    forall t: nat :: JobName(node, kind, t) !in jobs
  }

  function JobKind(e: Event): JobType {
    if e == StartNode then StartupJob else ShutdownJob
  }

  // ---- job monitoring

  // What one look at the job says.
  function Judged(look: Option<Job>): Option<Event> {
    if look.None? then None
    else if look.value.succeeded > 0 then Some(JobCompleted)
    else if look.value.failed > 0 then Some(JobFailed)
    else None
  }

  predicate ShowsSuccess(reply: Reply<Job>) {
    reply.Ok? && reply.value.succeeded > 0
  }

  predicate ShowsFailure(reply: Reply<Job>) {
    reply.Ok? && reply.value.succeeded == 0 && reply.value.failed > 0
  }

  /** The verdict over the looks from number `from` on: completed exactly if the last one shows a success, failed
      exactly if it shows a failure without success; and every look before it, for a timeout also the last one, has
      failed or shows neither. */
  ghost predicate Verdict(looks: seq<Look>, from: nat, event: Event) {
    && (event == JobCompleted <==> |looks| > from && ShowsSuccess(looks[|looks| - 1].reply))
    && (event == JobFailed <==> |looks| > from && ShowsFailure(looks[|looks| - 1].reply))
    && Undecided(looks, from)
  }

  // No look before the last one has said anything.
  ghost predicate Undecided(looks: seq<Look>, from: nat) {
    forall i :: from <= i < |looks| - 1 ==> !ShowsSuccess(looks[i].reply) && !ShowsFailure(looks[i].reply)
  }

  /** A look at that job which shows it as it was stored, or which failed; and it did not fail if requests
      succeed and it came before the deadline. */
  ghost predicate Fair(look: Look, jobName: string, deadline: int, reliable: bool) {
    && look.name == jobName
    && (look.reply.Ok? || (reliable && look.at < deadline) ==> Shown(look.reply) == look.stored)
  }

  /** The looks since `before`: at least one, the first one before any pause, and all of them fair. */
  ghost predicate Watched(before: seq<Look>, after: seq<Look>, jobName: string, naps: nat, deadline: int,
                          reliable: bool)
  {
    && |before| < |after| && after[..|before|] == before && after[|before|].naps == naps
    && forall i :: |before| <= i < |after| ==> Fair(after[i], jobName, deadline, reliable)
  }

  // One more look, a fair one.
  ghost predicate LookedOnce(before: seq<Look>, after: seq<Look>, look: Option<Job>, jobName: string, deadline: int,
                             reliable: bool)
  {
    && |after| == |before| + 1 && after[..|before|] == before && Shown(after[|before|].reply) == look
    && Fair(after[|before|], jobName, deadline, reliable)
  }

  function StoredIn(jobs: map<string, Job>, name: string): Option<Job> {
    if name in jobs then Some(jobs[name]) else None
  }

  // The looks from number `from` on came upon this.
  ghost predicate AllStored(looks: seq<Look>, from: nat, job: Option<Job>) {
    forall i :: from <= i < |looks| ==> looks[i].stored == job
  }

  // The looks of a monitor that is on its way: watched, the last one `look`, and none before it decisive.
  ghost predicate Watching(before: seq<Look>, after: seq<Look>, look: Option<Job>, jobName: string, naps: nat,
                           deadline: int, reliable: bool)
  {
    && Watched(before, after, jobName, naps, deadline, reliable)
    && Undecided(after, |before|) && Shown(after[|after| - 1].reply) == look
  }

  lemma WatchOn(before: seq<Look>, mid: seq<Look>, after: seq<Look>, previous: Option<Job>, look: Option<Job>,
                jobName: string, naps: nat, deadline: int, reliable: bool, job: Option<Job>)
    requires Watching(before, mid, previous, jobName, naps, deadline, reliable) && Judged(previous).None?
    requires LookedOnce(mid, after, look, jobName, deadline, reliable)
    ensures Watching(before, after, look, jobName, naps, deadline, reliable)
    ensures AllStored(mid, |before|, job) && after[|mid|].stored == job ==> AllStored(after, |before|, job)
  {
  }

  lemma DozedOn(before: seq<nat>, mid: seq<nat>, after: seq<nat>, longest: nat)
    requires Dozed(before, mid, longest) && Dozed(mid, after, longest)
    ensures Dozed(before, after, longest)
  {
  }

  predicate Unfinished(job: Option<Job>) {
    job.None? || (job.value.succeeded == 0 && job.value.failed == 0)
  }

  // The k-th tick from `start` on.
  predicate IsTick(start: int, interval: nat, t: int, k: nat) {
    t == start + k * interval
  }

  /** What is bound to come out if all looks came upon `job`: the timeout, if it is missing or unfinished; and its
      event after one look, if that look was in time and requests succeed. */
  ghost predicate Foreseen(looks: seq<Look>, from: nat, verdict: Event, job: Option<Job>, deadline: int,
                           reliable: bool)
  {
    && (Unfinished(job) ==> verdict == JobTimeout)
    && (reliable && !Unfinished(job) && from < |looks| && looks[from].at < deadline ==>
          && |looks| == from + 1
          && verdict == if job.value.succeeded > 0 then JobCompleted else JobFailed)
  }

  // The end of a monitor: a decisive look, or none until the deadline.
  lemma WatchOver(before: seq<Look>, after: seq<Look>, look: Option<Job>, jobName: string, naps: nat, deadline: int,
                  reliable: bool, verdict: Event, job: Option<Job>)
    requires Watching(before, after, look, jobName, naps, deadline, reliable)
    requires Judged(look) == if verdict == JobTimeout then None else Some(verdict)
    ensures Verdict(after, |before|, verdict)
    ensures AllStored(after, |before|, job) ==> Foreseen(after, |before|, verdict, job, deadline, reliable)
  {
  }

  /** All pauses since `before` were at most that long. */
  ghost predicate Dozed(before: seq<nat>, after: seq<nat>, longest: nat) {
    && |before| <= |after| && after[..|before|] == before
    && forall i :: |before| <= i < |after| ==> after[i] <= longest
  }

  /** Where a machine and its writes stand at some moment. */
  datatype Mark = Mark(current: State, history: seq<Event>, backoff: Option<nat>, synced: bool, node: Node,
                       mine: seq<Commit>, statuses: seq<Commit>, created: seq<Job>, uncreated: seq<Job>,
                       requests: seq<Exchange>, book: Book, now: nat)

  /** The jobs and the logs before a power operation on the Kubernetes node `name`, and whether the machine was
      aligned with the stored node. */
  datatype Prior = Prior(jobs: map<string, Job>, listings: seq<seq<Job>>, deletions: seq<Deletion>,
                         kubeWrites: seq<KubeWrite>, naps: seq<nat>, name: string, aligned: bool)

  /** The part of a machine's surroundings that a forced cleanup may change. */
  datatype Origin = Origin(current: State, history: seq<Event>, synced: bool, forced: nat, node: Node,
                           mine: seq<Commit>, statuses: seq<Commit>, obj: Option<Node>, jobs: map<string, Job>)

  /** After a completed startup: a Kubernetes node `was` that was ready is open now, by a write older than the one that
      released the lock (if one did); and one that was not ready is as it was, and the lock was kept until the timeout.
      The logs of commits are those at the beginning, at the instant `began`, and at the end, at `ended`. */
  ghost predicate Reopened(was: Option<KubeNode>, kube: Option<KubeNode>, before: seq<Commit>, after: seq<Commit>,
                           timeout: nat, began: int, ended: int)
  {
    var released := |after| > |before|;
    if was.Some? && FirstReady(was.value.conditions) && timeout > 0 then
      && Uncordoned(kube, was.value)
      && (released ==> after[|before|].after.Some? && kube.value.version < after[|before|].after.value.version)
    else
      kube == was && ended >= began + timeout && (released ==> after[|before|].at >= began + timeout)
  }

  lemma ReopenedSince(was: Option<KubeNode>, kube: Option<KubeNode>, before: seq<Commit>, after: seq<Commit>,
                      timeout: nat, began: int, ended: int, earlier: int)
    requires Reopened(was, kube, before, after, timeout, began, ended) && earlier <= began
    ensures Reopened(was, kube, before, after, timeout, earlier, ended)
  {
  }

  // ---- which retry loops belong to an event

  // Who releases the lock in the after hook of an event, and by which loop.
  function ReleaserFor(event: Event, owner: Value): Writer {
    if event == ForceCleanup then Forcer else Releaser(owner)
  }

  function ReleasingLoop(event: Event, owner: Value): Loop {
    if event == ForceCleanup then ForceLoop else ReleaseLoop(owner)
  }

  /** The loops that follow the enter hook of an event, by its after hook. */
  function LoopsAfter(event: Event, owner: Value): seq<Loop> {
    if Releases(event) then [ReleasingLoop(event, owner), PersistLoop] else []
  }

  /** All loops of an accepted event, one after another. */
  function LoopsOf(event: Event, owner: Value): seq<Loop> {
    (if Opens(event) then [TakeLoop(owner)] else []) + ([PersistLoop] + LoopsAfter(event, owner))
  }

  lemma LoopsAddUp(before: seq<Loop>, mid: seq<Loop>, after: seq<Loop>, first: seq<Loop>, rest: seq<Loop>)
    requires mid == before + first && after == mid + rest
    ensures after == before + (first + rest)
  {
  }

  /** One more commit, of the one who releases the lock on this event, if the loop with that number has written; and
      none otherwise. */
  ghost predicate Released(event: Event, before: seq<Commit>, after: seq<Commit>, endings: seq<Ending>, loop: nat,
                           owner: Value)
  {
    && loop < |endings|
    && if endings[loop] == Ending.Wrote then Gained(before, after, ReleaserFor(event, owner)) else after == before
  }

  /** The main-resource writes of the after hook of an event; `loop` is the number of its first loop. */
  ghost predicate Trace(event: Event, before: seq<Commit>, after: seq<Commit>, endings: seq<Ending>, loop: nat,
                        owner: Value)
  {
    if Releases(event) then Released(event, before, after, endings, loop, owner) else after == before
  }

  lemma ReleasedLeavesTrace(event: Event, before: seq<Commit>, after: seq<Commit>, endings: seq<Ending>, loop: nat,
                            owner: Value)
    requires Released(JobFailed, before, after, endings, loop, owner) && event in {JobCompleted, JobFailed}
    ensures Trace(event, before, after, endings, loop, owner)
  {
  }

  /** The reply of an acquisition: refused by the local copy without any request, or the outcome of one loop. */
  ghost predicate Explained(r: LockReply, local: Node, requests: seq<Exchange>, book: Book, requests': seq<Exchange>,
                            book': Book, owner: Value)
  {
    || (requests' == requests && book' == book && r.Held? && Shows(Some(local), r.lock))
    || Looped(requests, book, requests', book', r, TakeLoop(owner))
  }

  ghost predicate Holds(owner: Value, obj: Option<Node>) {
    obj.Some? && owner != BLANK && Read(obj.value.annotations, LockOwner) == owner
  }

  // Five minutes after it was taken, a lock has expired for good.
  lemma TermExpires(who: Writer, at: int)
    requires who.Acquirer? && who.timeout == 5 * MINUTE && who.stamp + 5 * MINUTE <= at
    ensures forall t :: t > at ==> IsLockExpired(Term(who), t)
  {
    forall t | t > at
      ensures IsLockExpired(Term(who), t)
    {
      LifetimeOfGrant(who.operation, who.owner, who.stamp, who.timeout, t);
    }
  }

  // ---- what happens between two moments

  ghost predicate BookedBetween(m: Mark, t: Mark, loops: seq<Loop>) {
    t.book.loops == m.book.loops + loops
  }

  // At most two more status writes, for the new state; the machine is synced exactly if there is one, and then its copy
  // of the node is what the last one left.
  ghost predicate PersistedBetween(m: Mark, t: Mark) {
    Logged(m.statuses, t.statuses, ProgressOf(t.current), t.synced, 2, m.now, t.now, t.node)
  }

  /** An opening event has been accepted: transitional state, the lock taken by this call, the progress persisted
      unless its loop failed. */
  ghost predicate Opened(event: Event, m: Mark, t: Mark, owner: Value) {
    && Next(m.current, event) == Some(t.current) && t.history == m.history + [event]
    && Took(m.mine, t.mine, OperationFor(event), owner, m.now, t.now)
    && PersistedBetween(m, t) && BookedBetween(m, t, LoopsOf(event, owner))
  }

  lemma OpenedSince(event: Event, m: Mark, t: Mark, u: Mark, owner: Value)
    requires Opened(event, m, t, owner) && Unmoved(t, u) && t.now <= u.now
    ensures Opened(event, m, u, owner)
  {
  }

  // From the moment `t` on an operation had its job refused and was taken back through JobFailed, at `u`.
  ghost predicate TakenBack(kind: JobType, t: Mark, u: Mark, owner: Value) {
    && Next(t.current, JobFailed) == Some(u.current) && u.history == t.history + [JobFailed] && u.created == t.created
    && |u.uncreated| == |t.uncreated| + 1 && u.uncreated[|t.uncreated|].kind == kind
    && PersistedBetween(t, u) && BookedBetween(t, u, LoopsOf(JobFailed, owner))
    && Released(JobFailed, t.mine, u.mine, u.book.endings, |t.book.endings| + 1, owner)
  }

  /** A power operation whose job was refused: opened at the moment `t`, and taken back through JobFailed, with the
      loops that go with both events, the lock released exactly if the loop of the release has written. */
  ghost predicate RolledBack(event: Event, m: Mark, t: Mark, u: Mark, owner: Value) {
    && u.current == m.current
    && Opened(event, m, t, owner) && t.created == m.created && t.uncreated == m.uncreated
    && TakenBack(JobKind(event), t, u, owner)
  }

  // No event was accepted, no request about the node was made.
  ghost predicate Unmoved(m: Mark, t: Mark) {
    && t.current == m.current && t.history == m.history && t.backoff == m.backoff && t.synced == m.synced
    && t.node == m.node && t.mine == m.mine && t.statuses == m.statuses && t.requests == m.requests && t.book == m.book
  }

  /** Nothing has changed and nothing was written. */
  ghost predicate Untouched(m: Mark, t: Mark) {
    && t.current == m.current && t.history == m.history && t.backoff == m.backoff && t.synced == m.synced
    && t.mine == m.mine && t.statuses == m.statuses && t.created == m.created && t.uncreated == m.uncreated
  }

  datatype OpReply = Initiated | TransitionFailed(cause: EventReply) | JobNotCreated

  datatype EventReply = Accepted | Canceled(cause: LockReply) | InvalidEvent

  class NodeStateMachine {
    const api: ApiServer
    const locks: CoordinationManager
    const kubes: KubeNodes
    const jobTimeout: nat
    const uncordonTimeout: nat

    var node: Node
    var current: State
    var backoff: Option<nat>   // when the transition started
    var currentJob: string
    var jobStartTime: nat

    ghost const initial: State
    ghost var history: seq<Event>   // the accepted events
    ghost var synced: bool          // the last attempt to persist progress succeeded
    ghost var forced: nat           // how often somebody else's forced cleanup was accepted during a monitor

    /** The machine is where its history leads, and it has a backoff record exactly
        when an operation is open that it opened itself. */
    ghost predicate Valid()
      reads this, api
    {
      && locks.api == api && kubes.api == api && api.Valid()
      && After(initial, history) == Some(current)
      && (backoff.Some? <==> IsTransitional(current) && history != [])
    }

    /** A machine rebuilt from the stored node would be in the same state. */
    ghost predicate InStep()
      reads this, api
    {
      api.steady && synced ==> api.obj.Some? && StateOf(api.obj.value.status.progress) == current
    }

    /** The local copy and the stored node agree on name and spec. */
    ghost predicate Aligned()
      reads this, api
    {
      api.obj.Some? && api.obj.value.spec == node.spec && api.obj.value.name == node.name
    }

    /** Nothing stands in the way of the lock: neither the local copy nor the stored node shows a live one. */
    ghost predicate LockFree()
      reads this, api
    {
      api.alone && api.reliable && Free(node.annotations, api.now)
      && api.obj.Some? && Free(api.obj.value.annotations, api.now)
    }

    constructor (node: Node, api: ApiServer, locks: CoordinationManager)
      requires locks.api == api && api.Valid()
      ensures Valid() && this.api == api && this.locks == locks && this.node == node && history == []
      ensures current == initial && backoff.None?
      ensures current == StartingUp <==> node.status.progress == ProgressStartingUp
      ensures current == Ready <==> node.status.progress == ProgressReady
      ensures current == ShuttingDown <==> node.status.progress == ProgressShuttingDown
      ensures synced == (api.obj.Some? && StateOf(api.obj.value.status.progress) == current) && InStep()
      ensures jobTimeout == 5 * MINUTE && uncordonTimeout == 90 * SECOND
    {
      this.api, this.locks, this.node := api, locks, node;
      kubes := new KubeNodes(api);
      jobTimeout, uncordonTimeout := DEFAULT_JOB_TIMEOUT, DEFAULT_UNCORDON_TIMEOUT;
      current := StateOf(node.status.progress);
      initial := StateOf(node.status.progress);
      backoff, currentJob, jobStartTime := None, "", 0;
      history := [];
      forced := 0;
      synced := api.obj.Some? && StateOf(api.obj.value.status.progress) == StateOf(node.status.progress);
    }

    predicate CanTransition(e: Event)
      reads this
    {
      Next(current, e).Some?
    }

    // ---------------------------------------------------------------- persisted progress

    /** The last status write of this side set the progress and its timestamp and nothing else. */
    ghost predicate WroteProgress(before: seq<Commit>, p: Progress)
      reads api
    {
      && |api.statuses| == |before| + 1 && api.statuses[..|before|] == before
      && var c := api.statuses[|before|]; SetsProgress(c, p) && c.after == api.obj && c.at == api.now
    }

    // What an attempt, or the whole loop, has done to the stored progress.
    twostate predicate TriedProgress(p: Progress, ok: bool)
      reads this, api
    {
      && api.Later() && (api.alone ==> api.jobs == old(api.jobs) && api.kube == old(api.kube))
      && (ok ==> WroteProgress(old(api.statuses), p) && api.obj == Some(node))
      && (!ok ==> node == old(node) && api.statuses == old(api.statuses) && api.OnlyLocks())
      && (api.alone && old(api.obj).Some? ==>
            api.obj.Some? && api.obj.value.annotations == old(api.obj.value.annotations))
      && (!ok && api.alone ==> api.obj == old(api.obj))
      && (api.alone && old(Aligned()) ==> Aligned())
    }

    method UpdateNodeProgress(p: Progress) returns (ghost ok: bool)
      requires api.Valid()
      modifies this`node, api`obj, api`kube, api`jobs, api`rev, api`now, api`statuses, api`requests, api`book
      ensures TriedProgress(p, ok) && Persisted(ok) && (ok <==> |api.statuses| > |old(api.statuses)|)
      ensures Booked([PersistLoop])
      ensures api.book.endings == old(api.book.endings) + [if ok then Ending.Wrote else Ending.Refused]
    {
      ok := RetryProgress(p);
      api.Enter(PersistLoop, |old(api.requests)|);
    }

    // The retry loop.
    method RetryProgress(p: Progress) returns (ghost ok: bool)
      requires api.Valid()
      modifies this`node, api`obj, api`kube, api`jobs, api`rev, api`now, api`statuses, api`requests
      ensures TriedProgress(p, ok) && Persisted(ok)
      ensures old(api.requests) <= api.requests
              && Ended(api.requests, |old(api.requests)|, |api.requests|, PersistLoop)
      ensures ok <==> api.requests[|api.requests| - 1].reply.Ok?
    {
      var left, conflict := ATTEMPTS, true;
      ok := false;
      while conflict && left > 0
        invariant 0 <= left <= ATTEMPTS && TriedProgress(p, ok) && (conflict ==> !ok)
        invariant Retrying(old(api.requests), api.requests, left, conflict, PersistLoop)
        invariant if left == ATTEMPTS then conflict else ok <==> api.requests[|api.requests| - 1].reply.Ok?
        invariant left < ATTEMPTS && api.alone && api.reliable && old(api.obj).Some? ==> ok
      {
        ghost var requests := api.requests;
        ok, conflict := TryProgress(p);
        RetryingOn(old(api.requests), requests, api.requests, left, conflict, PersistLoop);
        left := left - 1;
      }
    }

    /** These retry loops, and no others, have been booked. */
    twostate predicate Booked(loops: seq<Loop>)
      reads api
    {
      api.book.loops == old(api.book.loops) + loops
    }

    // One attempt: read, set progress and timestamp, write the status.
    method TryProgress(p: Progress) returns (ghost ok: bool, conflict: bool)
      requires api.Valid()
      modifies this`node, api`obj, api`kube, api`jobs, api`rev, api`now, api`statuses, api`requests
      ensures TriedProgress(p, ok) && (conflict ==> !ok)
      ensures Tried(old(api.requests), api.requests, conflict, PersistLoop)
      ensures ok <==> api.requests[|api.requests| - 1].reply.Ok?
      ensures api.alone && api.reliable && old(api.obj).Some? ==> ok
    {
      var got := FetchNode();
      if !got.Ok? {
        TriedByRead(old(api.requests), api.requests, Got(got), PersistLoop);
        return false, false;
      }
      var put := PutStatus(got.value, p);
      TriedByWrite(old(api.requests), api.requests, Got(got), Exchange.PutStatus(put), PersistLoop);
      ok, conflict := put.Ok?, put.Conflict?;
      if put.Ok? {
        node := put.value;
      }
    }

    method FetchNode() returns (got: Reply<Node>)
      requires api.Valid()
      modifies api`obj, api`kube, api`jobs, api`rev, api`now, api`requests
      ensures api.OnlyLocks() && (api.alone ==> api.obj == old(api.obj))
      ensures got.Ok? ==> api.obj == Some(got.value)
      ensures !got.Conflict? && (api.reliable && api.obj.Some? ==> got.Ok?)
      ensures api.requests == old(api.requests) + [Got(got)]
    {
      var act := api.Others();
      got := api.Get();
    }

    // The write that ends an attempt, for the copy that was just read.
    method PutStatus(seen: Node, p: Progress) returns (put: Reply<Node>)
      requires api.Valid() && api.obj == Some(seen)
      modifies api`obj, api`kube, api`jobs, api`rev, api`now, api`statuses, api`requests
      ensures api.Later() && (api.alone ==> api.jobs == old(api.jobs) && api.kube == old(api.kube))
      ensures put.Ok? ==> WroteProgress(old(api.statuses), p) && api.obj == Some(put.value)
      ensures put.Ok? ==> put.value.annotations == seen.annotations
      ensures !put.Ok? ==>
                api.OnlyLocks() && api.statuses == old(api.statuses) && (api.alone ==> api.obj == old(api.obj))
      ensures api.alone && api.reliable ==> put.Ok?
      ensures api.requests == old(api.requests) + [Exchange.PutStatus(put)]
    {
      var act := api.Others();
      put := api.UpdateStatus(seen.(status := WithProgress(seen.status, p, api.now)));
    }

    // ---------------------------------------------------------------- the event engine and its hooks

    // The before hooks: take the lock for an opening event.
    method RunBeforeHook(event: Event) returns (r: LockReply)
      requires locks.api == api && api.Valid() && Opens(event)
      modifies locks, api`obj, api`kube, api`jobs, api`rev, api`now, api`mine, api`requests, api`book
      ensures api.OnlyLocks()
      ensures r == Done(true) ==>
                Took(old(api.mine), api.mine, OperationFor(event), locks.owner, old(api.now), api.now)
                && api.mine[|old(api.mine)|].after == api.obj
      ensures r != Done(true) ==> api.mine == old(api.mine) && (api.alone ==> api.obj == old(api.obj))
      ensures old(LockFree()) ==> r == Done(true)
      ensures Explained(r, node, old(api.requests), old(api.book), api.requests, api.book, locks.owner)
      ensures unchanged(this)
    {
      var operation := if event == Event.StartNode then SCALE_UP else SCALE_DOWN;
      r := locks.AcquireLock(node, operation, DEFAULT_LOCK_TIMEOUT);
    }

    // The enter hooks: set or clear the backoff record and persist the progress.
    method RunEnterHook(state: State) returns (ghost ok: bool)
      requires api.Valid()
      modifies this`node, this`backoff
      modifies api`obj, api`kube, api`jobs, api`rev, api`now, api`statuses, api`requests, api`book
      ensures TriedProgress(ProgressOf(state), ok) && (backoff.Some? <==> IsTransitional(state))
      ensures backoff.Some? ==> old(api.now) <= backoff.value <= api.now
      ensures Persisted(ok) && Persists(ProgressOf(state), ok, 1)
      ensures Booked([PersistLoop])
    {
      var act := api.Others();
      backoff := if IsTransitional(state) then Some(api.now) else None;
      ok := UpdateNodeProgress(ProgressOf(state));
    }

    // All status writes of a hook set this progress, and it has persisted it if there is one.
    twostate predicate Persists(p: Progress, ok: bool, most: nat)
      reads this, api
    {
      Logged(old(api.statuses), api.statuses, p, ok, most, old(api.now), api.now, node)
    }

    // Stored progress after a releasing hook: as before, or the one of the new state.
    twostate predicate Settled(p: Progress, ok: bool)
      reads this, api
    {
      && api.Later() && (api.alone ==> api.jobs == old(api.jobs))
      && (api.alone && old(Aligned()) ==> Aligned())
      && (api.steady && old(api.obj).Some? ==>
            && api.obj.Some?
            && (ok || api.obj.value.status.progress == old(api.obj.value.status.progress)))
      && (ok ==> api.obj.Some? && api.obj.value.status.progress == p)
      && Persists(p, ok, 1) && (!ok ==> node == old(node))
    }

    ghost predicate Reopenable()
      reads this, api
    {
      api.alone && api.reliable && Aligned() && node.spec.kubernetesName != ""
    }

    method AfterJobCompleted(dst: State) returns (ghost ok: bool)
      requires locks.api == api && kubes.api == api && api.Valid()
      modifies this`node, locks
      modifies api`obj, api`kube, api`jobs, api`rev, api`now, api`mine, api`statuses
      modifies api`requests, api`book, api`kubeReads, api`kubeWrites, api`naps
      ensures Settled(ProgressOf(dst), ok)
      ensures Released(JobFailed, old(api.mine), api.mine, api.book.endings, |old(api.book.endings)|, locks.owner)
      ensures OnlyUncordons(old(api.kubeWrites), api.kubeWrites) && (dst != Ready ==> KubeQuiet())
      ensures Persisted(ok)
      ensures Booked([ReleaseLoop(locks.owner), PersistLoop])
      ensures dst == Ready && old(node.spec.kubernetesName) != "" ==> TriedToOpen()
      ensures api.alone && api.reliable && old(Holds(locks.owner, api.obj)) ==> !Holds(locks.owner, api.obj)
      ensures dst == Ready && old(Reopenable()) ==>
                Reopened(old(api.kube), api.kube, old(api.mine), api.mine, uncordonTimeout, old(api.now), api.now)
      ensures unchanged(this`backoff)
    {
      if dst == Ready {
        var uncordoned := kubes.SetNodeSchedulableWithRetry(node.spec.kubernetesName, uncordonTimeout);
      }
      ok := ReleaseAndPersist(dst);
    }

    /** In any surroundings the Kubernetes node was to be opened: with attempts and pauses on schedule, to a success or
        until the timeout. */
    twostate predicate TriedToOpen()
      reads this, api
    {
      var looked := |api.kubeReads| - |old(api.kubeReads)|;
      || Paced(old(api.naps), api.naps, looked, 1, uncordonTimeout)
      || (Paced(old(api.naps), api.naps, looked, 0, uncordonTimeout) && api.now >= old(api.now) + uncordonTimeout)
    }

    // Nothing was read from or written to the Kubernetes node, and there was no pause.
    twostate predicate KubeQuiet()
      reads api
    {
      unchanged(api`kubeReads, api`kubeWrites, api`naps)
    }

    // In calm surroundings the local copy is the stored node, if there is one.
    twostate predicate Persisted(ok: bool)
      reads this, api
    {
      api.alone && api.reliable && old(api.obj).Some? ==> ok && api.obj == Some(node)
    }

    // What completed and failed jobs have in common.
    method ReleaseAndPersist(dst: State) returns (ghost ok: bool)
      requires locks.api == api && api.Valid()
      modifies this`node, locks
      modifies api`obj, api`kube, api`jobs, api`rev, api`now, api`mine, api`statuses, api`requests, api`book
      ensures Settled(ProgressOf(dst), ok)
      ensures Released(JobFailed, old(api.mine), api.mine, api.book.endings, |old(api.book.endings)|, locks.owner)
      ensures Persisted(ok)
      ensures Booked([ReleaseLoop(locks.owner), PersistLoop])
      ensures api.alone ==> api.kube == old(api.kube)
      ensures api.alone && api.reliable && old(Holds(locks.owner, api.obj)) ==> !Holds(locks.owner, api.obj)
      ensures |api.mine| > |old(api.mine)| ==>
                var c := api.mine[|old(api.mine)|];
                && c.at >= old(api.now)
                && (api.alone ==> c.after.Some? && c.after.value.version > old(api.rev))
      ensures unchanged(this`backoff)
    {
      var reply := locks.ReleaseLock(node);
      ok := UpdateNodeProgress(ProgressOf(dst));
    }

    method AfterForceCleanup(dst: State) returns (ghost ok: bool)
      requires locks.api == api && api.Valid()
      modifies this`node, locks
      modifies api`obj, api`kube, api`jobs, api`rev, api`now, api`mine, api`statuses, api`requests, api`book
      ensures Settled(ProgressOf(dst), ok)
      ensures Released(ForceCleanup, old(api.mine), api.mine, api.book.endings, |old(api.book.endings)|, locks.owner)
      ensures Persisted(ok)
      ensures Booked([ForceLoop, PersistLoop])
      ensures api.alone ==> api.kube == old(api.kube)
      ensures api.alone && api.reliable && old(Holds(locks.owner, api.obj)) ==> !Holds(locks.owner, api.obj)
      ensures unchanged(this`backoff)
    {
      var reply := locks.ForceReleaseLock(node);
      ok := UpdateNodeProgress(ProgressOf(dst));
    }

    // The after hooks but for that of JobCompleted; JobTimeout and the opening events have none.
    method RunAfterHook(event: Event, dst: State) returns (ghost ok: bool)
      requires locks.api == api && api.Valid() && event != JobCompleted
      modifies this`node, locks
      modifies api`obj, api`kube, api`jobs, api`rev, api`now, api`mine, api`statuses, api`requests, api`book
      ensures Settled(ProgressOf(dst), ok)
      ensures Trace(event, old(api.mine), api.mine, api.book.endings, |old(api.book.endings)|, locks.owner)
      ensures Opens(event) || event == JobTimeout ==> api.obj == old(api.obj) && node == old(node)
      ensures Booked(LoopsAfter(event, locks.owner))
      ensures Releases(event) ==> Persisted(ok)
      ensures api.alone ==> api.kube == old(api.kube)
      ensures api.alone && api.reliable && Releases(event) && old(Holds(locks.owner, api.obj)) ==>
                !Holds(locks.owner, api.obj)
      ensures unchanged(this`backoff)
    {
      match event
      case JobFailed => ok := ReleaseAndPersist(dst);
      case ForceCleanup => ok := AfterForceCleanup(dst);
      case _ => ok := false;
    }

    // The enter hook and such an after hook; `ok` if one of them has persisted the progress.
    method RunPlainHooks(event: Event, dst: State) returns (ghost ok: bool)
      requires locks.api == api && api.Valid() && event != JobCompleted
      modifies this`node, this`backoff, locks
      modifies api`obj, api`kube, api`jobs, api`rev, api`now, api`mine, api`statuses, api`requests, api`book
      ensures api.Later() && (api.alone ==> api.jobs == old(api.jobs) && api.kube == old(api.kube))
      ensures api.alone && old(Aligned()) ==> Aligned()
      ensures backoff.Some? <==> IsTransitional(dst)
      ensures backoff.Some? ==> old(api.now) <= backoff.value <= api.now
      ensures Trace(event, old(api.mine), api.mine, api.book.endings, |old(api.book.endings)| + 1, locks.owner)
      ensures ok && api.steady ==> api.obj.Some? && api.obj.value.status.progress == ProgressOf(dst)
      ensures Persists(ProgressOf(dst), ok, 2)
      ensures Booked([PersistLoop] + LoopsAfter(event, locks.owner))
      ensures Persisted(ok)
      ensures api.alone && api.reliable && Releases(event) && old(Holds(locks.owner, api.obj)) ==>
                !Holds(locks.owner, api.obj)
      ensures api.alone && (Opens(event) || event == JobTimeout) && old(api.obj).Some? ==>
                api.obj.Some? && api.obj.value.annotations == old(api.obj.value.annotations)
    {
      ghost var entered := RunEnterHook(dst);
      ghost var statuses, loops, began, local := api.statuses, api.book.loops, api.now, node;
      ghost var left := RunAfterHook(event, dst);
      ok := entered || left;
      LoopsAddUp(old(api.book.loops), loops, api.book.loops, [PersistLoop], LoopsAfter(event, locks.owner));
      LoggedOn(old(api.statuses), statuses, api.statuses, ProgressOf(dst), entered, left, 1, 1,
               old(api.now), began, api.now, local, node);
    }

    // The enter hook and the after hook of JobCompleted.
    method RunCompletionHooks(dst: State) returns (ghost ok: bool)
      requires locks.api == api && kubes.api == api && api.Valid()
      modifies this`node, this`backoff, locks
      modifies api`obj, api`kube, api`jobs, api`rev, api`now, api`mine, api`statuses
      modifies api`requests, api`book, api`kubeReads, api`kubeWrites, api`naps
      ensures api.Later() && (api.alone ==> api.jobs == old(api.jobs))
      ensures api.alone && old(Aligned()) ==> Aligned()
      ensures backoff.Some? <==> IsTransitional(dst)
      ensures backoff.Some? ==> old(api.now) <= backoff.value <= api.now
      ensures Trace(JobCompleted, old(api.mine), api.mine, api.book.endings, |old(api.book.endings)| + 1, locks.owner)
      ensures ok && api.steady ==> api.obj.Some? && api.obj.value.status.progress == ProgressOf(dst)
      ensures Persists(ProgressOf(dst), ok, 2)
      ensures Booked([PersistLoop] + LoopsAfter(JobCompleted, locks.owner))
      ensures Persisted(ok)
      ensures OnlyUncordons(old(api.kubeWrites), api.kubeWrites)
      ensures api.alone && api.reliable && old(Holds(locks.owner, api.obj)) ==> !Holds(locks.owner, api.obj)
      ensures dst == Ready && old(Reopenable()) ==>
                Reopened(old(api.kube), api.kube, old(api.mine), api.mine, uncordonTimeout, old(api.now), api.now)
    {
      ghost var entered := RunEnterHook(dst);
      ghost var statuses, loops, began, local := api.statuses, api.book.loops, api.now, node;
      ghost var left := AfterJobCompleted(dst);
      ok := entered || left;
      ReleasedLeavesTrace(JobCompleted, old(api.mine), api.mine, api.book.endings, |old(api.book.endings)| + 1,
                          locks.owner);
      LoopsAddUp(old(api.book.loops), loops, api.book.loops, [PersistLoop], LoopsAfter(JobCompleted, locks.owner));
      LoggedOn(old(api.statuses), statuses, api.statuses, ProgressOf(dst), entered, left, 1, 1,
               old(api.now), began, api.now, local, node);
      if dst == Ready && old(Reopenable()) {
        ReopenedSince(old(api.kube), api.kube, old(api.mine), api.mine, uncordonTimeout, began, api.now, old(api.now));
      }
    }

    // The hooks that follow the change of state.
    method RunHooks(event: Event, dst: State) returns (ghost ok: bool)
      requires locks.api == api && kubes.api == api && api.Valid()
      modifies this`node, this`backoff, locks
      modifies api`obj, api`kube, api`jobs, api`rev, api`now, api`mine, api`statuses
      modifies api`requests, api`book, api`kubeReads, api`kubeWrites, api`naps
      ensures api.Later() && (api.alone ==> api.jobs == old(api.jobs))
      ensures api.alone && old(Aligned()) ==> Aligned()
      ensures api.alone && event != JobCompleted ==> api.kube == old(api.kube)
      ensures backoff.Some? <==> IsTransitional(dst)
      ensures Trace(event, old(api.mine), api.mine, api.book.endings, |old(api.book.endings)| + 1, locks.owner)
      ensures ok && api.steady ==> api.obj.Some? && api.obj.value.status.progress == ProgressOf(dst)
      ensures Persists(ProgressOf(dst), ok, 2)
      ensures Booked([PersistLoop] + LoopsAfter(event, locks.owner))
      ensures Persisted(ok)
      ensures if event == JobCompleted then OnlyUncordons(old(api.kubeWrites), api.kubeWrites) else KubeQuiet()
      ensures api.alone && api.reliable && Releases(event) && old(Holds(locks.owner, api.obj)) ==>
                !Holds(locks.owner, api.obj)
      ensures api.alone && (Opens(event) || event == JobTimeout) && old(api.obj).Some? ==>
                api.obj.Some? && api.obj.value.annotations == old(api.obj.value.annotations)
      ensures event == JobCompleted && dst == Ready && old(Reopenable()) ==>
                Reopened(old(api.kube), api.kube, old(api.mine), api.mine, uncordonTimeout, old(api.now), api.now)
      ensures backoff.Some? ==> old(api.now) <= backoff.value <= api.now
    {
      if event == JobCompleted {
        ok := RunCompletionHooks(dst);
      } else {
        ok := RunPlainHooks(event, dst);
      }
    }

    // The change of state with the hooks that follow it.
    method Move(event: Event, dst: State)
      requires Valid() && Next(current, event) == Some(dst)
      modifies this`node, this`current, this`backoff, this`history, this`synced, locks
      modifies api`obj, api`kube, api`jobs, api`rev, api`now, api`mine, api`statuses
      modifies api`requests, api`book, api`kubeReads, api`kubeWrites, api`naps
      ensures Valid() && InStep() && api.Later() && (api.alone ==> api.jobs == old(api.jobs))
      ensures api.alone && old(Aligned()) ==> Aligned()
      ensures api.alone && event != JobCompleted ==> api.kube == old(api.kube)
      ensures current == dst && history == old(history) + [event]
      ensures Trace(event, old(api.mine), api.mine, api.book.endings, |old(api.book.endings)| + 1, locks.owner)
      ensures Persisted(synced) && Persists(ProgressOf(dst), synced, 2)
      ensures Booked([PersistLoop] + LoopsAfter(event, locks.owner))
      ensures if event == JobCompleted then OnlyUncordons(old(api.kubeWrites), api.kubeWrites) else KubeQuiet()
      ensures api.alone && api.reliable && Releases(event) && old(Holds(locks.owner, api.obj)) ==>
                !Holds(locks.owner, api.obj)
      ensures api.alone && (Opens(event) || event == JobTimeout) && old(api.obj).Some? ==>
                api.obj.Some? && api.obj.value.annotations == old(api.obj.value.annotations)
      ensures event == JobCompleted && dst == Ready && old(Reopenable()) ==>
                Reopened(old(api.kube), api.kube, old(api.mine), api.mine, uncordonTimeout, old(api.now), api.now)
      ensures backoff.Some? ==> old(api.now) <= backoff.value <= api.now
    {
      AfterOneMore(initial, history, event);
      current, history := dst, history + [event];
      synced := RunHooks(event, dst);
    }

    // The same for an opening event, which has no after hook.
    method MoveOpening(event: Event, dst: State)
      requires Valid() && Next(current, event) == Some(dst) && Opens(event)
      modifies this`node, this`current, this`backoff, this`history, this`synced, locks
      modifies api`obj, api`kube, api`jobs, api`rev, api`now, api`mine, api`statuses
      modifies api`requests, api`book, api`kubeReads, api`kubeWrites, api`naps
      ensures Valid() && InStep() && api.Later() && KubeQuiet()
      ensures api.alone ==> api.jobs == old(api.jobs) && api.kube == old(api.kube)
      ensures api.alone && old(Aligned()) ==> Aligned()
      ensures current == dst && history == old(history) + [event] && api.mine == old(api.mine)
      ensures Persisted(synced) && Persists(ProgressOf(dst), synced, 2)
      ensures Booked([PersistLoop] + LoopsAfter(event, locks.owner))
      ensures api.alone && old(api.obj).Some? ==>
                api.obj.Some? && api.obj.value.annotations == old(api.obj.value.annotations)
      ensures backoff.Some? ==> old(api.now) <= backoff.value <= api.now
    {
      Move(event, dst);
    }

    // An opening event: look up, before hook, and the rest.
    method FireOpening(event: Event) returns (r: EventReply)
      requires Valid() && InStep() && Opens(event)
      modifies this`node, this`current, this`backoff, this`history, this`synced, locks
      modifies api`obj, api`kube, api`jobs, api`rev, api`now, api`mine, api`statuses
      modifies api`requests, api`book, api`kubeReads, api`kubeWrites, api`naps
      ensures Valid() && InStep() && api.Later() && KubeQuiet()
      ensures api.alone ==> api.jobs == old(api.jobs) && api.kube == old(api.kube)
      ensures api.alone && old(Aligned()) ==> Aligned()
      ensures r.InvalidEvent? <==> Next(old(current), event).None?
      ensures r.InvalidEvent? ==> unchanged(api)
      ensures r.Canceled? ==>
                && r.cause != Done(true) && !old(LockFree())
                && Explained(r.cause, node, old(api.requests), old(api.book), api.requests, api.book, locks.owner)
      ensures !r.Accepted? ==> unchanged(this) && unchanged(api`mine, api`statuses)
      ensures r.Accepted? ==>
                && Next(old(current), event) == Some(current) && history == old(history) + [event]
                && Took(old(api.mine), api.mine, OperationFor(event), locks.owner, old(api.now), api.now)
      ensures r.Accepted? && backoff.Some? ==> old(api.now) <= backoff.value <= api.now
      ensures api.alone && api.reliable && old(api.obj).Some? && old(synced) ==> synced
      ensures r.Accepted? ==> Persisted(synced) && Persists(ProgressOf(current), synced, 2)
      ensures r.Accepted? ==> Booked(LoopsOf(event, locks.owner)) && InPlace(api.mine[|old(api.mine)|])
    {
      if Next(current, event).None? {
        return InvalidEvent;
      }
      var lock := RunBeforeHook(event);
      if lock != Done(true) {
        return Canceled(lock);
      }
      ghost var loops, now := api.book.loops, api.now;
      MoveOpening(event, Next(current, event).value);
      LoggedSince(old(api.statuses), api.statuses, ProgressOf(current), synced, 2, now, api.now, node, old(api.now));
      LoopsAddUp(old(api.book.loops), loops, api.book.loops, [TakeLoop(locks.owner)],
                 [PersistLoop] + LoopsAfter(event, locks.owner));
      r := Accepted;
    }

    // A closing event: look up, and the rest.
    method FireClosing(event: Event) returns (r: EventReply)
      requires Valid() && InStep() && !Opens(event)
      modifies this`node, this`current, this`backoff, this`history, this`synced, locks
      modifies api`obj, api`kube, api`jobs, api`rev, api`now, api`mine, api`statuses
      modifies api`requests, api`book, api`kubeReads, api`kubeWrites, api`naps
      ensures Valid() && InStep() && api.Later() && (api.alone ==> api.jobs == old(api.jobs))
      ensures api.alone && old(Aligned()) ==> Aligned()
      ensures api.alone && event != JobCompleted ==> api.kube == old(api.kube)
      ensures r == if Next(old(current), event).None? then InvalidEvent else Accepted
      ensures r.InvalidEvent? ==> unchanged(this) && unchanged(api)
      ensures r.Accepted? ==>
                && Next(old(current), event) == Some(current) && history == old(history) + [event]
                && Trace(event, old(api.mine), api.mine, api.book.endings, |old(api.book.endings)| + 1, locks.owner)
      ensures r.Accepted? && backoff.Some? ==> old(api.now) <= backoff.value <= api.now
      ensures r.Accepted? && event == JobCompleted && current == Ready && old(Reopenable()) ==>
                Reopened(old(api.kube), api.kube, old(api.mine), api.mine, uncordonTimeout, old(api.now), api.now)
      ensures api.alone && api.reliable && old(api.obj).Some? && old(synced) ==> synced
      ensures r.Accepted? ==> Persisted(synced) && Persists(ProgressOf(current), synced, 2)
      ensures r.Accepted? ==> Booked(LoopsOf(event, locks.owner))
      ensures if event == JobCompleted then OnlyUncordons(old(api.kubeWrites), api.kubeWrites) else KubeQuiet()
      ensures api.alone && event == JobTimeout && old(api.obj).Some? ==>
                api.obj.Some? && api.obj.value.annotations == old(api.obj.value.annotations)
      ensures api.alone && api.reliable && Releases(event) && r.Accepted? && old(Holds(locks.owner, api.obj)) ==>
                !Holds(locks.owner, api.obj)
    {
      if Next(current, event).None? {
        return InvalidEvent;
      }
      Move(event, Next(current, event).value);
      r := Accepted;
    }

    /** One event through the engine: look up, before hook, change of state, enter hook, after hook. */
    method Fire(event: Event) returns (r: EventReply)
      requires Valid() && InStep()
      modifies this`node, this`current, this`backoff, this`history, this`synced, locks
      modifies api`obj, api`kube, api`jobs, api`rev, api`now, api`mine, api`statuses
      modifies api`requests, api`book, api`kubeReads, api`kubeWrites, api`naps
      ensures Valid() && InStep() && api.Later() && (api.alone ==> api.jobs == old(api.jobs))
      ensures api.alone && old(Aligned()) ==> Aligned()
      ensures api.alone && event != JobCompleted ==> api.kube == old(api.kube)
      ensures r.InvalidEvent? <==> Next(old(current), event).None?
      ensures r.InvalidEvent? ==> unchanged(api)
      ensures r.Canceled? ==> Opens(event) && r.cause != Done(true) && !old(LockFree())
      ensures !r.Accepted? ==> unchanged(this) && unchanged(api`mine, api`statuses)
      ensures r.Accepted? ==>
                && Next(old(current), event) == Some(current) && history == old(history) + [event]
                && if Opens(event) then
                     Took(old(api.mine), api.mine, OperationFor(event), locks.owner, old(api.now), api.now)
                   else
                     Trace(event, old(api.mine), api.mine, api.book.endings, |old(api.book.endings)| + 1, locks.owner)
      ensures r.Accepted? && backoff.Some? ==> old(api.now) <= backoff.value <= api.now
      ensures r.Accepted? && event == JobCompleted && current == Ready && old(Reopenable()) ==>
                Reopened(old(api.kube), api.kube, old(api.mine), api.mine, uncordonTimeout, old(api.now), api.now)
      ensures api.alone && api.reliable && old(api.obj).Some? && old(synced) ==> synced
      ensures r.Accepted? ==> Persisted(synced) && Persists(ProgressOf(current), synced, 2)
      ensures r.Accepted? ==> Booked(LoopsOf(event, locks.owner))
      ensures r.Canceled? ==>
                Explained(r.cause, node, old(api.requests), old(api.book), api.requests, api.book, locks.owner)
      ensures if event == JobCompleted then OnlyUncordons(old(api.kubeWrites), api.kubeWrites) else KubeQuiet()
      ensures r.Accepted? && Opens(event) ==> InPlace(api.mine[|old(api.mine)|])
      ensures api.alone && event == JobTimeout && old(api.obj).Some? ==>
                api.obj.Some? && api.obj.value.annotations == old(api.obj.value.annotations)
      ensures api.alone && api.reliable && Releases(event) && r.Accepted? && old(Holds(locks.owner, api.obj)) ==>
                !Holds(locks.owner, api.obj)
    {
      if Opens(event) {
        r := FireOpening(event);
      } else {
        r := FireClosing(event);
      }
    }

    /** For a machine built in a stable state, at every moment of its life: accepted events open and close
        operations in strict alternation, an operation is open exactly while there is a backoff record,
        and operations that failed or timed out have left no trace in the state. */
    lemma LifeSoFar()
      requires Valid() && !IsTransitional(initial)
      ensures forall i :: 0 <= i < |history| ==> (Opens(history[i]) <==> i % 2 == 0)
      ensures IsTransitional(current) <==> |history| % 2 == 1
      ensures backoff.Some? <==> IsTransitional(current)
      ensures After(initial, Committed(history)) == Some(current)
    {
      StrictAlternation(initial, history);
      AbortedOperationsVanish(initial, history);
    }

    // ---------------------------------------------------------------- power operations

    method CleanupPendingJobs(nodeName: string) returns (ok: bool)
      requires api.Valid()
      modifies api`obj, api`kube, api`jobs, api`rev, api`now, api`listings, api`deletions
      ensures api.OnlyJobs()
      ensures Cleaned(old(api.listings), api.listings, old(api.deletions), api.deletions, nodeName)
      ensures ok <==> nodeName == "" || |api.listings| > |old(api.listings)|
      ensures api.alone ==> Thinned(old(api.jobs), api.jobs, nodeName)
      ensures api.alone && nodeName == "" ==> api.jobs == old(api.jobs)
      ensures api.alone && api.reliable && nodeName != "" ==> api.jobs == Pruned(old(api.jobs), nodeName)
      ensures api.alone && api.reliable && nodeName != "" ==>
                forall n :: n in api.jobs <==>
                              n in old(api.jobs)
                              && var job := old(api.jobs)[n];
                              job.node != nodeName || job.kind.OtherJob? || job.succeeded > 0 || job.failed > 0
    {
      if nodeName == "" {
        return true;
      }
      var act := api.Others();
      var listed := api.ListJobs(nodeName);
      if !listed.Ok? {
        return false;
      }
      DeletePending(listed.value, nodeName);
      if api.alone && api.reliable {
        ThinnedToPruned(old(api.jobs), api.jobs, nodeName);
      }
      ok := true;
    }

    // The cleanup loop over a list of jobs of the node.
    method DeletePending(list: seq<Job>, nodeName: string)
      requires api.Valid() && forall j :: j in list ==> j.node == nodeName
      requires api.alone ==> Cleaning(api.jobs, api.jobs, list, 0, nodeName, api.reliable)
      modifies api`obj, api`kube, api`jobs, api`rev, api`now, api`deletions
      ensures api.OnlyJobs() && AskedFor(old(api.deletions), api.deletions, PendingNames(list, nodeName))
      ensures api.alone ==> Cleaning(old(api.jobs), api.jobs, list, |list|, nodeName, api.reliable)
    {
      for i := 0 to |list|
        invariant api.OnlyJobs()
        invariant AskedFor(old(api.deletions), api.deletions, PendingNames(list[..i], nodeName))
        invariant api.alone ==> Cleaning(old(api.jobs), api.jobs, list, i, nodeName, api.reliable)
      {
        ghost var deletions, jobs := api.deletions, api.jobs;
        DeleteIfPending(list[i]);
        AskedOn(old(api.deletions), deletions, api.deletions, PendingNames(list[..i], nodeName),
                if Pending(list[i], nodeName) then [list[i].name] else []);
        assert list[..i + 1][..i] == list[..i];
        if api.alone {
          CleaningOn(old(api.jobs), jobs, api.jobs, list, i, nodeName, api.reliable);
        }
      }
      assert list[..|list|] == list;
    }

    // One turn of the cleanup loop, for a listed job.
    method DeleteIfPending(job: Job)
      requires api.Valid()
      modifies api`obj, api`kube, api`jobs, api`rev, api`now, api`deletions
      ensures api.OnlyJobs()
      ensures AskedFor(old(api.deletions), api.deletions, if Pending(job, job.node) then [job.name] else [])
      ensures api.alone ==>
                api.jobs == old(api.jobs) || (Pending(job, job.node) && api.jobs == old(api.jobs) - {job.name})
      ensures api.alone && api.reliable && Pending(job, job.node) ==> job.name !in api.jobs
    {
      if !job.kind.OtherJob? && job.succeeded == 0 && job.failed == 0 {
        var act := api.Others();
        var deleted := api.DeleteJob(job.name);
      }
    }

    // Nothing stands in the way of the job.
    ghost predicate NameFree(kind: JobType)
      reads this, api
    {
      api.alone && api.reliable && Aligned() && Unused(api.jobs, node.name, kind)
    }

    method CreatePowerJob(kind: JobType) returns (r: Reply<Job>)
      requires api.Valid()
      modifies api`obj, api`kube, api`jobs, api`rev, api`now, api`created, api`uncreated
      ensures api.OnlyJobs()
      ensures r.Ok? ==>
                && api.created == old(api.created) + [r.value]
                && r.value.node == node.spec.kubernetesName && r.value.kind == kind
                && r.value.succeeded == 0 && r.value.failed == 0
                && (exists at: nat :: old(api.now) <= at <= api.now && r.value.name == JobName(node.name, kind, at))
                && (api.alone ==> r.value.name !in old(api.jobs)
                                  && api.jobs == old(api.jobs)[r.value.name := r.value])
      ensures !r.Ok? ==> api.created == old(api.created) && (api.alone ==> api.jobs == old(api.jobs))
      ensures if r.Ok? then api.uncreated == old(api.uncreated)
              else |api.uncreated| == |old(api.uncreated)| + 1 && api.uncreated[|old(api.uncreated)|].kind == kind
                   && api.uncreated[|old(api.uncreated)|].node == node.spec.kubernetesName
      ensures old(NameFree(kind)) ==> r.Ok?
    {
      var act := api.Others();
      var job := Job(JobName(node.name, kind, api.now), node.spec.kubernetesName, kind, 0, 0);
      act := api.Others();
      r := api.CreateJob(job);
    }

    /** The annotations are those that the given commit left. */
    ghost predicate StillAsLeftBy(c: Commit)
      reads api
    {
      c.after.Some? && api.obj.Some? && api.obj.value.annotations == c.after.value.annotations
    }

    /** With nobody else around, the stored node is as an operation that took the lock by `c` has left it: the lock in
        place, and the progress of the state persisted if requests do not fail. */
    ghost predicate InPlace(c: Commit)
      reads this, api
    {
      && (api.alone ==> StillAsLeftBy(c))
      && (api.alone && api.reliable ==> synced && api.obj == Some(node))
    }

    ghost function Here(): Mark
      reads this, api
    {
      Mark(current, history, backoff, synced, node, api.mine, api.statuses, api.created, api.uncreated, api.requests,
           api.book, api.now)
    }

    /** A power operation that got under way since `m`: opened, with one new job of the right type. */
    ghost predicate Started(event: Event, m: Mark)
      reads this, api
    {
      && Opened(event, m, Here(), locks.owner) && api.uncreated == m.uncreated
      && api.created == m.created + [Job(currentJob, node.spec.kubernetesName, JobKind(event), 0, 0)]
      && api.mine[|m.mine|].at <= jobStartTime <= api.now
      && InPlace(api.mine[|m.mine|])
    }

    /** Why an opening event was refused: the table has no entry, or the lock was not to be had. */
    ghost predicate Refused(cause: EventReply, m: Mark)
      reads api
    {
      match cause
      case Accepted => false
      case InvalidEvent => api.requests == m.requests && api.book == m.book
      case Canceled(reply) =>
        && reply != Done(true)
        && Explained(reply, m.node, m.requests, m.book, api.requests, api.book, locks.owner)
    }

    // With nobody else around and requests that do not fail, a release has taken effect.
    ghost predicate LockDropped()
      reads this, api
    {
      api.alone && api.reliable && locks.owner != BLANK ==> !Holds(locks.owner, api.obj)
    }

    /** The three outcomes of a power operation; if it got so far, it was open at the moment `midway`. */
    ghost predicate Outcome(event: Event, r: OpReply, m: Mark, midway: Mark)
      reads this, api
    {
      match r
      case Initiated => Started(event, m)
      case TransitionFailed(cause) => Refused(cause, m) && Untouched(m, Here())
      case JobNotCreated => RolledBack(event, m, midway, Here(), locks.owner) && LockDropped()
    }

    /** With nobody else around, the jobs are `before`, with the new job if there is one. */
    ghost predicate JobsAre(before: map<string, Job>, r: OpReply, event: Event)
      reads this, api
    {
      if r == Initiated then
        && currentJob !in before
        && api.jobs == before[currentJob := Job(currentJob, node.spec.kubernetesName, JobKind(event), 0, 0)]
      else api.jobs == before
    }

    // Creates the job of the operation and keeps track of it.
    method Launch(kind: JobType) returns (ok: bool)
      requires Valid() && InStep()
      modifies this`currentJob, this`jobStartTime
      modifies api`obj, api`kube, api`jobs, api`rev, api`now, api`created, api`uncreated
      ensures Valid() && InStep() && api.OnlyJobs() && Unmoved(old(Here()), Here())
      ensures ok ==> api.created == old(api.created) + [Job(currentJob, node.spec.kubernetesName, kind, 0, 0)]
                     && old(api.now) <= jobStartTime <= api.now
      ensures ok && api.alone ==>
                && currentJob !in old(api.jobs)
                && api.jobs == old(api.jobs)[currentJob := Job(currentJob, node.spec.kubernetesName, kind, 0, 0)]
      ensures !ok ==> api.created == old(api.created) && (api.alone ==> api.jobs == old(api.jobs))
      ensures if ok then api.uncreated == old(api.uncreated)
              else |api.uncreated| == |old(api.uncreated)| + 1 && api.uncreated[|old(api.uncreated)|].kind == kind
      ensures old(NameFree(kind)) ==> ok
    {
      var made := CreatePowerJob(kind);
      ok := made.Ok?;
      if ok {
        currentJob := made.value.name;
        jobStartTime := api.now;
      }
    }

    // The opening event of an operation.
    method Open(event: Event) returns (r: EventReply)
      requires Valid() && InStep() && Opens(event)
      modifies this`node, this`current, this`backoff, this`history, this`synced, locks
      modifies api`obj, api`kube, api`jobs, api`rev, api`now, api`mine, api`statuses
      modifies api`requests, api`book, api`kubeReads, api`kubeWrites, api`naps
      ensures Valid() && InStep() && api.Later() && (api.alone && old(Aligned()) ==> Aligned())
      ensures KubeQuiet()
      ensures api.alone ==> api.jobs == old(api.jobs) && api.kube == old(api.kube)
      ensures if r == Accepted then Opened(event, old(Here()), Here(), locks.owner)
              else Refused(r, old(Here())) && Untouched(old(Here()), Here())
      ensures r == Accepted ==> InPlace(api.mine[|old(api.mine)|])
      ensures old(LockFree()) && Next(old(current), event).Some? ==> r == Accepted
      ensures api.alone && api.reliable && old(api.obj).Some? && old(synced) ==> synced
    {
      r := Fire(event);
    }

    // Takes the operation back when its job could not be created; it was opened at `t`.
    method GiveUp(event: Event, ghost m: Mark, ghost t: Mark)
      requires Valid() && InStep() && Opens(event) && Opened(event, m, t, locks.owner)
      requires t.created == m.created && t.uncreated == m.uncreated && Unmoved(t, Here()) && t.now <= api.now
      requires api.created == t.created
      requires |api.uncreated| == |t.uncreated| + 1 && api.uncreated[|t.uncreated|].kind == JobKind(event)
      requires api.alone ==> StillAsLeftBy(t.mine[|m.mine|])
      modifies this`node, this`current, this`backoff, this`history, this`synced, locks
      modifies api`obj, api`kube, api`jobs, api`rev, api`now, api`mine, api`statuses
      modifies api`requests, api`book, api`kubeReads, api`kubeWrites, api`naps
      ensures Valid() && InStep() && api.Later() && (api.alone && old(Aligned()) ==> Aligned())
      ensures KubeQuiet()
      ensures api.alone ==> api.jobs == old(api.jobs) && api.kube == old(api.kube)
      ensures RolledBack(event, m, t, Here(), locks.owner) && LockDropped()
      ensures api.alone && api.reliable && old(api.obj).Some? && old(synced) ==> synced
    {
      var fired := Fire(JobFailed);
      assert TakenBack(JobKind(event), t, Here(), locks.owner);
    }

    // From the opened operation on: the job, or rollback.
    method Proceed(event: Event, ghost m: Mark) returns (r: OpReply, ghost t: Mark)
      requires Valid() && InStep() && Opens(event) && Opened(event, m, Here(), locks.owner)
      requires api.created == m.created && api.uncreated == m.uncreated
      requires InPlace(api.mine[|m.mine|])
      modifies this`node, this`current, this`backoff, this`history, this`synced, locks
      modifies this`currentJob, this`jobStartTime
      modifies api`obj, api`kube, api`jobs, api`rev, api`now, api`mine, api`statuses, api`created, api`uncreated
      modifies api`requests, api`book, api`kubeReads, api`kubeWrites, api`naps
      ensures Valid() && InStep() && api.Later() && (api.alone && old(Aligned()) ==> Aligned())
      ensures KubeQuiet()
      ensures api.alone && api.reliable && old(api.obj).Some? && old(synced) ==> synced
      ensures !r.TransitionFailed? && Outcome(event, r, m, t)
      ensures api.alone ==> JobsAre(old(api.jobs), r, event) && api.kube == old(api.kube)
      ensures old(NameFree(JobKind(event))) ==> r == Initiated
    {
      t := Here();
      var launched := Launch(if event == Event.StartNode then StartupJob else ShutdownJob);
      if launched {
        OpenedSince(event, m, t, Here(), locks.owner);
        return Initiated, t;
      }
      GiveUp(event, m, t);
      r := JobNotCreated;
    }

    // The part that both power operations share.
    method Operate(event: Event) returns (r: OpReply, ghost midway: Mark)
      requires Valid() && InStep() && Opens(event)
      modifies this`node, this`current, this`backoff, this`history, this`synced, locks
      modifies this`currentJob, this`jobStartTime
      modifies api`obj, api`kube, api`jobs, api`rev, api`now, api`mine, api`statuses, api`created, api`uncreated
      modifies api`requests, api`book, api`kubeReads, api`kubeWrites, api`naps
      ensures Valid() && InStep() && api.Later() && (api.alone && old(Aligned()) ==> Aligned())
      ensures KubeQuiet()
      ensures Outcome(event, r, old(Here()), midway)
      ensures api.alone ==> JobsAre(old(api.jobs), r, event) && api.kube == old(api.kube)
      ensures old(NameFree(JobKind(event)) && LockFree()) && Next(old(current), event).Some? ==> r == Initiated
      ensures old(LockFree()) && Next(old(current), event).Some? ==> !r.TransitionFailed?
      ensures api.alone && api.reliable && old(api.obj).Some? && old(synced) ==> synced
    {
      var reply := Open(event);
      if reply != Accepted {
        return TransitionFailed(reply), Here();
      }
      r, midway := Proceed(event, old(Here()));
    }

    /** What both power operations promise, given the jobs `cleaned` that their cleanup left of `jobs`. */
    ghost predicate Operated(event: Event, r: OpReply, m: Mark, midway: Mark, jobs: map<string, Job>, name: string,
                             cleaned: map<string, Job>)
      reads this, api
    {
      Outcome(event, r, m, midway) && LeftBy(jobs, cleaned, name) && (api.alone ==> JobsAre(cleaned, r, event))
    }

    /** What a cleanup may leave: with nobody else around, `jobs` without some of the pending ones of the named node,
        and without all of them if no request fails. */
    ghost predicate LeftBy(jobs: map<string, Job>, cleaned: map<string, Job>, name: string) {
      && (api.alone ==> Thinned(jobs, cleaned, name))
      && (api.alone && name == "" ==> cleaned == jobs)
      && (api.alone && api.reliable && name != "" ==> cleaned == Pruned(jobs, name))
    }

    /** The unfinished power jobs of the named node are the new one, or none if there is no new one. */
    ghost predicate OnlyNewPending(r: OpReply, name: string)
      reads this, api
    {
      forall n :: n in api.jobs && Pending(api.jobs[n], name) <==> r == Initiated && n == currentJob
    }

    // An outcome since a later moment is one since an earlier one if only time has passed in between.
    lemma OutcomeSince(event: Event, r: OpReply, m: Mark, earlier: Mark, midway: Mark)
      requires Outcome(event, r, m, midway) && earlier.now <= m.now
      requires Unmoved(earlier, m) && earlier.created == m.created && earlier.uncreated == m.uncreated
      ensures Outcome(event, r, earlier, midway)
    {
    }

    lemma PrunedHasOnlyNew(event: Event, r: OpReply, before: map<string, Job>, name: string)
      requires JobsAre(Pruned(before, name), r, event) && Opens(event) && node.spec.kubernetesName == name
      ensures OnlyNewPending(r, name)
    {
    }

    // Since `prior` there was a cleanup and at most one write to the Kubernetes node, without a pause.
    ghost predicate Prepared(prior: Prior)
      reads api
    {
      && Cleaned(prior.listings, api.listings, prior.deletions, api.deletions, prior.name)
      && AtMostOneWrite(prior.kubeWrites, api.kubeWrites) && api.naps == prior.naps
    }

    // An operation after its cleanup; `m` and `prior` tell how things stood before that.
    method OperateSince(event: Event, ghost m: Mark, ghost prior: Prior, ghost cleaned: map<string, Job>)
      returns (r: OpReply, ghost midway: Mark)
      requires Valid() && InStep() && Opens(event) && m.now <= api.now
      requires Unmoved(m, Here()) && api.created == m.created && api.uncreated == m.uncreated
      requires LeftBy(prior.jobs, cleaned, prior.name) && (api.alone ==> api.jobs == cleaned)
      requires node.spec.kubernetesName == prior.name && (api.alone && prior.aligned ==> Aligned())
      requires Prepared(prior)
      modifies this`node, this`current, this`backoff, this`history, this`synced, locks
      modifies this`currentJob, this`jobStartTime
      modifies api`obj, api`kube, api`jobs, api`rev, api`now, api`mine, api`statuses, api`created, api`uncreated
      modifies api`requests, api`book, api`kubeReads, api`kubeWrites, api`naps
      ensures Valid() && InStep() && api.Later() && (api.alone && old(Aligned()) ==> Aligned())
      ensures KubeQuiet() && Operated(event, r, m, midway, prior.jobs, prior.name, cleaned)
      ensures Prepared(prior)
      ensures api.alone ==> api.kube == old(api.kube)
      ensures old(NameFree(JobKind(event)) && LockFree()) && Next(old(current), event).Some? ==> r == Initiated
      ensures old(LockFree()) && Next(old(current), event).Some? ==> !r.TransitionFailed?
      ensures api.alone && api.reliable && old(api.obj).Some? && old(synced) ==> synced
      ensures api.alone && api.reliable && prior.aligned && prior.name != "" ==> OnlyNewPending(r, prior.name)
    {
      ghost var earlier := Here();
      r, midway := Operate(event);
      OutcomeSince(event, r, earlier, m, midway);
      if api.alone && api.reliable && prior.aligned && prior.name != "" {
        PrunedHasOnlyNew(event, r, prior.jobs, prior.name);
      }
    }

    // What comes before the opening event: cleanup, and the taint of the autoscaler.
    method PrepareStart(name: string) returns (ghost cleaned: map<string, Job>)
      requires Valid() && InStep()
      modifies api`obj, api`kube, api`jobs, api`rev, api`now
      modifies api`kubeReads, api`kubeWrites, api`listings, api`deletions
      ensures Valid() && InStep() && api.Later() && (api.alone && old(Aligned()) ==> Aligned())
      ensures Cleaned(old(api.listings), api.listings, old(api.deletions), api.deletions, name)
      ensures AtMostOneWrite(old(api.kubeWrites), api.kubeWrites)
      ensures api.kubeWrites != old(api.kubeWrites) ==>
                var w := api.kubeWrites[|old(api.kubeWrites)|]; Untainted(Some(w.after), w.before)
      ensures LeftBy(old(api.jobs), cleaned, name) && (api.alone ==> api.obj == old(api.obj) && api.jobs == cleaned)
      ensures api.alone && api.reliable && name != "" && old(api.kube).Some? ==>
                Untainted(api.kube, old(api.kube).value)
    {
      var _ := CleanupPendingJobs(name);
      cleaned := api.jobs;
      var _ := kubes.RemoveClusterAutoscalerTaint(name);
    }

    // What comes before the opening event: cleanup, and the cordon.
    method PrepareShutdown(name: string) returns (ghost cleaned: map<string, Job>)
      requires Valid() && InStep()
      modifies api`obj, api`kube, api`jobs, api`rev, api`now
      modifies api`kubeReads, api`kubeWrites, api`listings, api`deletions
      ensures Valid() && InStep() && api.Later() && (api.alone && old(Aligned()) ==> Aligned())
      ensures Cleaned(old(api.listings), api.listings, old(api.deletions), api.deletions, name)
      ensures AtMostOneWrite(old(api.kubeWrites), api.kubeWrites)
      ensures api.kubeWrites != old(api.kubeWrites) ==>
                var w := api.kubeWrites[|old(api.kubeWrites)|]; Cordoned(Some(w.after), w.before)
      ensures LeftBy(old(api.jobs), cleaned, name) && (api.alone ==> api.obj == old(api.obj) && api.jobs == cleaned)
      ensures api.alone && api.reliable && name != "" && old(api.kube).Some? ==>
                Cordoned(api.kube, old(api.kube).value)
    {
      var _ := CleanupPendingJobs(name);
      cleaned := api.jobs;
      var _ := kubes.SetNodeUnschedulable(name);
    }

    /** At most one unfinished power job: with writes succeeding and nobody else around, after StartNode the
        unfinished power jobs of the named Kubernetes node are the new one, whatever was there before. */
    method StartNode() returns (r: OpReply, ghost cleaned: map<string, Job>, ghost midway: Mark)
      requires Valid() && InStep()
      modifies this`node, this`current, this`backoff, this`history, this`synced, locks
      modifies this`currentJob, this`jobStartTime
      modifies api`obj, api`kube, api`jobs, api`rev, api`now, api`mine, api`statuses, api`created, api`uncreated
      modifies api`requests, api`book, api`kubeReads, api`kubeWrites, api`naps, api`listings, api`deletions
      ensures Valid() && InStep() && api.Later() && (api.alone && old(Aligned()) ==> Aligned())
      ensures Operated(Event.StartNode, r, old(Here()), midway, old(api.jobs), old(node.spec.kubernetesName), cleaned)
      ensures old(NameFree(StartupJob) && LockFree() && CanTransition(Event.StartNode)) ==> r == Initiated
      ensures old(LockFree() && CanTransition(Event.StartNode)) ==> !r.TransitionFailed?
      ensures api.alone && api.reliable && old(api.obj).Some? && old(synced) ==> synced
      ensures api.alone && api.reliable && old(Aligned()) && old(node.spec.kubernetesName) != "" ==>
                OnlyNewPending(r, old(node.spec.kubernetesName))
      ensures Cleaned(old(api.listings), api.listings, old(api.deletions), api.deletions,
                      old(node.spec.kubernetesName))
      ensures AtMostOneWrite(old(api.kubeWrites), api.kubeWrites) && api.naps == old(api.naps)
      ensures api.kubeWrites != old(api.kubeWrites) ==>
                var w := api.kubeWrites[|old(api.kubeWrites)|]; Untainted(Some(w.after), w.before)
      ensures api.alone && api.reliable && old(node.spec.kubernetesName) != "" && old(api.kube).Some? ==>
                Untainted(api.kube, old(api.kube).value)
    {
      var name := node.spec.kubernetesName;
      ghost var prior := Prior(api.jobs, api.listings, api.deletions, api.kubeWrites, api.naps, name, Aligned());
      cleaned := PrepareStart(name);
      r, midway := OperateSince(Event.StartNode, old(Here()), prior, cleaned);
    }

    method ShutdownNode() returns (r: OpReply, ghost cleaned: map<string, Job>, ghost midway: Mark)
      requires Valid() && InStep()
      modifies this`node, this`current, this`backoff, this`history, this`synced, locks
      modifies this`currentJob, this`jobStartTime
      modifies api`obj, api`kube, api`jobs, api`rev, api`now, api`mine, api`statuses, api`created, api`uncreated
      modifies api`requests, api`book, api`kubeReads, api`kubeWrites, api`naps, api`listings, api`deletions
      ensures Valid() && InStep() && api.Later() && (api.alone && old(Aligned()) ==> Aligned())
      ensures Operated(Event.ShutdownNode, r, old(Here()), midway, old(api.jobs), old(node.spec.kubernetesName),
                       cleaned)
      ensures old(NameFree(ShutdownJob) && LockFree() && CanTransition(Event.ShutdownNode)) ==> r == Initiated
      ensures old(LockFree() && CanTransition(Event.ShutdownNode)) ==> !r.TransitionFailed?
      ensures api.alone && api.reliable && old(api.obj).Some? && old(synced) ==> synced
      ensures api.alone && api.reliable && old(Aligned()) && old(node.spec.kubernetesName) != "" ==>
                OnlyNewPending(r, old(node.spec.kubernetesName))
      ensures Cleaned(old(api.listings), api.listings, old(api.deletions), api.deletions,
                      old(node.spec.kubernetesName))
      ensures AtMostOneWrite(old(api.kubeWrites), api.kubeWrites) && api.naps == old(api.naps)
      ensures api.kubeWrites != old(api.kubeWrites) ==>
                var w := api.kubeWrites[|old(api.kubeWrites)|]; Cordoned(Some(w.after), w.before)
      ensures api.alone && api.reliable && old(node.spec.kubernetesName) != "" && old(api.kube).Some? ==>
                Cordoned(api.kube, old(api.kube).value)
    {
      var name := node.spec.kubernetesName;
      ghost var prior := Prior(api.jobs, api.listings, api.deletions, api.kubeWrites, api.naps, name, Aligned());
      cleaned := PrepareShutdown(name);
      r, midway := OperateSince(Event.ShutdownNode, old(Here()), prior, cleaned);
    }

    // ---------------------------------------------------------------- job monitoring

    // One look at the job; past the deadline the request may fail in any surroundings.
    method Look(jobName: string, deadline: nat) returns (look: Option<Job>)
      requires Valid() && InStep()
      modifies api`obj, api`kube, api`jobs, api`rev, api`now, api`looks
      ensures Valid() && InStep() && api.OnlyJobs()
      ensures api.alone ==> api.jobs == old(api.jobs)
      ensures LookedOnce(old(api.looks), api.looks, look, jobName, deadline, api.reliable)
      ensures api.looks[|old(api.looks)|].stored == api.Stored(jobName)
      ensures api.looks[|old(api.looks)|].at == api.now && api.looks[|old(api.looks)|].naps == |api.naps|
    {
      var act := api.Others();
      var got := api.GetJob(jobName, api.now >= deadline);
      look := Shown(got);
    }

    // Another goroutine may force a cleanup of this machine.
    method Interleave()
      requires Valid() && InStep()
      modifies this`node, this`current, this`backoff, this`history, this`synced, this`forced, locks
      modifies api`obj, api`kube, api`jobs, api`rev, api`now, api`mine, api`statuses
      modifies api`requests, api`book, api`kubeReads, api`kubeWrites, api`naps
      ensures Valid() && InStep() && api.Later() && ForcedSince(old(Now())) && KubeQuiet()
    {
      var force: bool := *;
      if force {
        var fired := Fire(ForceCleanup);
        if fired == Accepted {
          forced := forced + 1;
        }
      }
    }

    ghost function Now(): Origin
      reads this, api
    {
      Origin(current, history, synced, forced, node, api.mine, api.statuses, api.obj, api.jobs)
    }

    // Since `o` nothing happened to the machine, or somebody else has cleaned up its open operation.
    ghost predicate ForcedSince(o: Origin)
      reads this, api
    {
      && (api.alone ==> api.jobs == o.jobs)
      && (if forced == o.forced then
            && current == o.current && history == o.history && synced == o.synced && node == o.node
            && api.mine == o.mine && api.statuses == o.statuses && (api.alone ==> api.obj == o.obj)
          else
            && IsTransitional(o.current) && forced == o.forced + 1
            && history == o.history + [ForceCleanup] && current == Shutdown)
    }

    // Sleeps until the ticker or the deadline, whichever is first.
    method Await(nextTick: nat, deadline: nat, ghost longest: nat)
      requires Valid() && InStep() && nextTick <= api.now + longest
      modifies this`node, this`current, this`backoff, this`history, this`synced, this`forced, locks
      modifies api`obj, api`kube, api`jobs, api`rev, api`now, api`mine, api`statuses
      modifies api`requests, api`book, api`kubeReads, api`kubeWrites, api`naps
      ensures Valid() && InStep() && api.Later() && ForcedSince(old(Now()))
      ensures api.now >= nextTick || api.now >= deadline
      ensures Dozed(old(api.naps), api.naps, longest) && |api.naps| <= |old(api.naps)| + 1
    {
      var wake := if nextTick < deadline then nextTick else deadline;
      if api.now < wake {
        api.Sleep(wake - api.now);
      }
      Interleave();
    }

    // The ticker after `now`; ticks that were missed are dropped.
    function TickAfter(nextTick: nat, now: nat, interval: nat): (t: nat)
      requires interval > 0
      ensures t > now && exists k :: IsTick(nextTick, interval, t, k)
      ensures if nextTick > now then t == nextTick else t <= now + interval
    {
      if nextTick > now then
        assert IsTick(nextTick, interval, nextTick, 0);
        nextTick
      else
        var next := now + interval - (now - nextTick) % interval;
        assert IsTick(nextTick, interval, next, (now - nextTick) / interval + 1);
        next
    }

    // What makes the loop end: time before the deadline, patience after it, and the wait for a tick.
    predicate Nearer(now: nat, tick: nat, left: nat, now': nat, tick': nat, left': nat, deadline: nat) {
      var rest, rest' := if now < deadline then deadline - now else 0, if now' < deadline then deadline - now' else 0;
      || rest' < rest
      || (rest' == rest && left' < left)
      || (rest' == rest && left' == left && now >= tick && now' < tick')
    }

    // One turn of the select loop: the deadline, or a look at a tick. When both are due either may be taken.
    method Poll(jobName: string, tick: nat, left: nat, deadline: nat, interval: nat)
      returns (timedOut: bool, look: Option<Job>, tick': nat, left': nat)
      requires Valid() && InStep() && interval > 0 && tick <= api.now + interval
      modifies this`node, this`current, this`backoff, this`history, this`synced, this`forced, locks
      modifies api`obj, api`kube, api`jobs, api`rev, api`now, api`mine, api`statuses
      modifies api`requests, api`book, api`kubeReads, api`kubeWrites, api`naps, api`looks
      ensures Valid() && InStep() && api.Later() && ForcedSince(old(Now()))
      ensures Dozed(old(api.naps), api.naps, interval) && |api.naps| <= |old(api.naps)| + 1
      ensures timedOut ==> api.now >= deadline && api.looks == old(api.looks)
      ensures !timedOut ==>
                && Nearer(old(api.now), tick, left, api.now, tick', left', deadline) && tick' <= api.now + interval
                && LookedOnce(old(api.looks), api.looks, look, jobName, deadline, api.reliable)
                && api.looks[|old(api.looks)|].stored == api.Stored(jobName)
    {
      look, tick', left' := None, tick, left;
      Await(tick, deadline, interval);
      timedOut := api.now >= deadline && (api.now < tick || left == 0);
      if !timedOut {
        if api.now >= deadline {
          left' := left - 1;
        }
        tick' := TickAfter(tick, api.now, interval);
        look := Look(jobName, deadline);
      }
    }

    function PollInterval(): (interval: nat)
      ensures 0 < interval <= 30 * SECOND
    {
      if jobTimeout < 5 * SECOND then SECOND / 10 else 30 * SECOND
    }

    // A monitor that began with the logs `looks` and `naps` is on its way; the last look was `look`.
    ghost predicate OnWatch(looks: seq<Look>, naps: seq<nat>, look: Option<Job>, jobName: string, deadline: int)
      reads api
    {
      && Watching(looks, api.looks, look, jobName, |naps|, deadline, api.reliable)
      && Dozed(naps, api.naps, PollInterval()) && |api.naps| - |naps| < |api.looks| - |looks|
    }

    // A turn of the monitor, the last one if it times out.
    method Turn(jobName: string, tick: nat, left: nat, deadline: nat, ghost looks: seq<Look>, ghost naps: seq<nat>,
                ghost previous: Option<Job>, ghost o: Origin)
      returns (timedOut: bool, look: Option<Job>, tick': nat, left': nat)
      requires Valid() && InStep() && tick <= api.now + PollInterval() && ForcedSince(o)
      requires OnWatch(looks, naps, previous, jobName, deadline) && Judged(previous).None?
      modifies this`node, this`current, this`backoff, this`history, this`synced, this`forced, locks
      modifies api`obj, api`kube, api`jobs, api`rev, api`now, api`mine, api`statuses
      modifies api`requests, api`book, api`kubeReads, api`kubeWrites, api`naps, api`looks
      ensures Valid() && InStep() && api.Later() && ForcedSince(o)
      ensures timedOut ==>
                && api.now >= deadline && api.looks == old(api.looks) && Verdict(api.looks, |looks|, JobTimeout)
                && (AllStored(api.looks, |looks|, StoredIn(o.jobs, jobName)) ==>
                      Foreseen(api.looks, |looks|, JobTimeout, StoredIn(o.jobs, jobName), deadline, api.reliable))
                && Dozed(naps, api.naps, PollInterval()) && |api.naps| - |naps| <= |api.looks| - |looks|
      ensures !timedOut ==>
                && Nearer(old(api.now), tick, left, api.now, tick', left', deadline)
                && tick' <= api.now + PollInterval() && OnWatch(looks, naps, look, jobName, deadline)
      ensures !timedOut && api.alone && AllStored(old(api.looks), |looks|, StoredIn(o.jobs, jobName)) ==>
                AllStored(api.looks, |looks|, StoredIn(o.jobs, jobName))
    {
      timedOut, look, tick', left' := Poll(jobName, tick, left, deadline, PollInterval());
      DozedOn(naps, old(api.naps), api.naps, PollInterval());
      if timedOut {
        WatchOver(looks, api.looks, previous, jobName, |naps|, deadline, api.reliable, JobTimeout,
                  StoredIn(o.jobs, jobName));
      } else {
        WatchOn(looks, old(api.looks), api.looks, previous, look, jobName, |naps|, deadline, api.reliable,
                StoredIn(o.jobs, jobName));
      }
    }

    // The loop of the monitor, after a first look.
    method KeepWatching(jobName: string, first: Option<Job>, ticks: nat, deadline: nat, patience: nat,
                        ghost looks: seq<Look>, ghost naps: seq<nat>)
      returns (verdict: Event)
      requires Valid() && InStep() && ticks <= api.now + PollInterval()
      requires OnWatch(looks, naps, first, jobName, deadline)
      modifies this`node, this`current, this`backoff, this`history, this`synced, this`forced, locks
      modifies api`obj, api`kube, api`jobs, api`rev, api`now, api`mine, api`statuses
      modifies api`requests, api`book, api`kubeReads, api`kubeWrites, api`naps, api`looks
      ensures Valid() && InStep() && api.Later() && ForcedSince(old(Now()))
      ensures verdict in {JobCompleted, JobFailed, JobTimeout} && Verdict(api.looks, |looks|, verdict)
      ensures Watched(looks, api.looks, jobName, |naps|, deadline, api.reliable)
      ensures Dozed(naps, api.naps, PollInterval()) && |api.naps| - |naps| <= |api.looks| - |looks|
      ensures verdict == JobTimeout ==> api.now >= deadline
      ensures api.alone && AllStored(old(api.looks), |looks|, old(api.Stored(jobName))) ==>
                Foreseen(api.looks, |looks|, verdict, old(api.Stored(jobName)), deadline, api.reliable)
    {
      var look, tick: nat, left: nat := first, ticks, patience;
      ghost var o := Now();
      while Judged(look).None?
        invariant Valid() && InStep() && api.Later() && ForcedSince(o) && tick <= api.now + PollInterval()
        invariant OnWatch(looks, naps, look, jobName, deadline)
        invariant api.alone && AllStored(old(api.looks), |looks|, StoredIn(o.jobs, jobName)) ==>
                    AllStored(api.looks, |looks|, StoredIn(o.jobs, jobName))
        decreases if api.now < deadline then deadline - api.now else 0, left, if api.now < tick then 0 else 1
      {
        ghost var previous := look;
        var timedOut;
        timedOut, look, tick, left := Turn(jobName, tick, left, deadline, looks, naps, previous, o);
        if timedOut {
          return JobTimeout;
        }
      }
      verdict := Judged(look).value;
      WatchOver(looks, api.looks, look, jobName, |naps|, deadline, api.reliable, verdict, StoredIn(o.jobs, jobName));
    }

    /** Looks at the job right away and then at every tick until a look says something or the deadline has passed;
        the verdict is what the log of looks calls for. `patience` is how often the tick is taken although the
        deadline has passed. With nobody else around that is the event of a finished job, or the timeout. */
    method Watch(jobName: string, patience: nat) returns (verdict: Event)
      requires Valid() && InStep()
      modifies this`node, this`current, this`backoff, this`history, this`synced, this`forced, locks
      modifies api`obj, api`kube, api`jobs, api`rev, api`now, api`mine, api`statuses
      modifies api`requests, api`book, api`kubeReads, api`kubeWrites, api`naps, api`looks
      ensures Valid() && InStep() && api.Later() && ForcedSince(old(Now()))
      ensures verdict in {JobCompleted, JobFailed, JobTimeout} && Verdict(api.looks, |old(api.looks)|, verdict)
      ensures Watched(old(api.looks), api.looks, jobName, |old(api.naps)|, old(api.now) + jobTimeout, api.reliable)
      ensures Dozed(old(api.naps), api.naps, PollInterval())
      ensures PollInterval() == if jobTimeout < 5_000_000_000 then 100_000_000 else 30_000_000_000
      ensures |api.naps| - |old(api.naps)| <= |api.looks| - |old(api.looks)|
      ensures verdict == JobTimeout ==> api.now >= old(api.now) + jobTimeout
      ensures api.alone ==>
                Foreseen(api.looks, |old(api.looks)|, verdict, old(api.Stored(jobName)), old(api.now) + jobTimeout,
                         api.reliable)
    {
      var deadline: nat, tick: nat := api.now + jobTimeout, api.now + PollInterval();
      var look := Look(jobName, deadline);
      verdict := KeepWatching(jobName, look, tick, deadline, patience, old(api.looks), old(api.naps));
    }

    /** The monitor ends for every sequence of looks, fires exactly the event they call for, and leaves
        the machine in a stable state even if a forced cleanup came first and the event was rejected. */
    method MonitorJobCompletion(jobName: string, patience: nat)
      returns (verdict: Event, ghost fired: nat, r: EventReply)
      requires Valid() && InStep()
      modifies this`node, this`current, this`backoff, this`history, this`synced, this`forced, locks
      modifies api`obj, api`kube, api`jobs, api`rev, api`now, api`mine, api`statuses
      modifies api`requests, api`book, api`kubeReads, api`kubeWrites, api`naps, api`looks
      ensures Valid() && InStep() && api.Later()
      ensures verdict in {JobCompleted, JobFailed, JobTimeout} && Verdict(api.looks, |old(api.looks)|, verdict)
      ensures Watched(old(api.looks), api.looks, jobName, |old(api.naps)|, old(api.now) + jobTimeout, api.reliable)
      ensures api.alone ==>
                Foreseen(api.looks, |old(api.looks)|, verdict, old(api.Stored(jobName)), old(api.now) + jobTimeout,
                         api.reliable)
      ensures old(api.now) <= fired <= api.now
      ensures verdict == JobTimeout ==> fired >= old(api.now) + jobTimeout
      ensures !IsTransitional(current)
      ensures old(forced) <= forced && (r == Accepted <==> IsTransitional(old(current)) && forced == old(forced))
      ensures history == if !IsTransitional(old(current)) then old(history)
                         else old(history) + [if forced == old(forced) then verdict else ForceCleanup]
      ensures r == Accepted ==> Next(old(current), verdict) == Some(current)
      ensures r == Accepted ==> Persists(ProgressOf(current), synced, 2)
      ensures r == Accepted && verdict == JobTimeout ==> api.mine == old(api.mine) && LockKept()
      ensures api.alone ==> api.jobs == old(api.jobs)
    {
      verdict := Watch(jobName, patience);
      fired := api.now;
      VerdictsClose(current, verdict);
      r := Fire(verdict);
    }

    // With nobody else around the annotations are as they were, in the local copy too if writes succeed.
    twostate predicate LockKept()
      reads this, api
    {
      && (api.alone && old(api.obj).Some? ==>
            api.obj.Some? && api.obj.value.annotations == old(api.obj.value.annotations))
      && (api.alone && api.reliable && old(api.obj).Some? ==> api.obj == Some(node))
    }

    /** The operation since `m` has timed out: nothing has released the lock that it took, but that lock has
        expired at every instant after the timeout fired. */
    ghost predicate TimedOut(m: Mark, fired: nat, lock: Lock)
      reads this, api
    {
      && |api.mine| == |m.mine| + 1 && Legal(api.mine[|m.mine|]) && api.mine[|m.mine|].who.Acquirer?
      && lock == Term(api.mine[|m.mine|].who)
      && (api.alone ==> StillAsLeftBy(api.mine[|m.mine|]))
      && (api.alone && api.reliable ==> api.obj == Some(node))
      && fired <= api.now && forall t :: t > fired ==> IsLockExpired(lock, t)
    }

    /** An operation that got under way since `m` was followed to its end: the machine is stable again, through the
        event that the looks at its job call for, unless somebody else's forced cleanup came first: `before` is how
        many such cleanups there had been. */
    ghost predicate Followed(event: Event, verdict: Event, m: Mark, looks: seq<Look>, naps: seq<nat>, before: nat)
      reads this, api
    {
      && !IsTransitional(current) && before <= forced
      && history == m.history + [event, if forced == before then verdict else ForceCleanup]
      && Verdict(api.looks, |looks|, verdict)
      && Watched(looks, api.looks, currentJob, |naps|, jobStartTime + jobTimeout, api.reliable)
      && (api.alone ==> verdict == JobTimeout)
    }

    // The monitor of an operation that has just got under way; the logs were `looks` and `naps` so far.
    method Finish(event: Event, patience: nat, ghost m: Mark, ghost looks: seq<Look>, ghost naps: seq<nat>,
                  ghost before: nat)
      returns (verdict: Event, ghost fired: nat, ghost lock: Lock)
      requires Valid() && InStep() && Opens(event) && Started(event, m) && jobTimeout == DEFAULT_JOB_TIMEOUT
      requires api.looks == looks && api.naps == naps && forced == before
      requires api.alone ==> Unfinished(api.Stored(currentJob))
      modifies this`node, this`current, this`backoff, this`history, this`synced, this`forced, locks
      modifies api`obj, api`kube, api`jobs, api`rev, api`now, api`mine, api`statuses
      modifies api`requests, api`book, api`kubeReads, api`kubeWrites, api`naps, api`looks
      ensures Valid() && InStep() && api.Later() && Followed(event, verdict, m, looks, naps, before)
      ensures forced == before && verdict == JobTimeout ==>
                TimedOut(m, fired, lock) && current == if event == Event.StartNode then Shutdown else Ready
    {
      ghost var who := api.mine[|m.mine|].who;
      lock := Term(who);
      var reply;
      verdict, fired, reply := MonitorJobCompletion(currentJob, patience);
      ghost var last := if forced == before then verdict else ForceCleanup;
      assert m.history + [event] + [last] == m.history + [event, last];
      if verdict == JobTimeout {
        TermExpires(who, fired);
      }
    }

    /** A startup with its monitor run to the end: the operation is closed by the monitor's verdict on its job or
        by a forced cleanup, and a timeout cannot wedge the lock. (With nobody else around no job ever finishes.) */
    method StartAndMonitor(patience: nat)
      returns (r: OpReply, verdict: Option<Event>, ghost fired: nat, ghost lock: Lock)
      requires Valid() && InStep() && jobTimeout == DEFAULT_JOB_TIMEOUT
      modifies this`node, this`current, this`backoff, this`history, this`synced, this`forced, locks
      modifies this`currentJob, this`jobStartTime
      modifies api`obj, api`kube, api`jobs, api`rev, api`now, api`mine, api`statuses, api`created, api`uncreated
      modifies api`requests, api`book, api`kubeReads, api`kubeWrites, api`naps, api`listings, api`deletions, api`looks
      ensures Valid() && InStep() && api.Later()
      ensures r == Initiated <==> verdict.Some?
      ensures verdict.Some? ==>
                Followed(Event.StartNode, verdict.value, old(Here()), old(api.looks), old(api.naps), old(forced))
      ensures verdict == Some(JobTimeout) && forced == old(forced) ==>
                TimedOut(old(Here()), fired, lock) && current == Shutdown
    {
      fired, lock, verdict := api.now, Lock(BLANK, BLANK, 0, 0), None;
      ghost var cleaned, midway;
      r, cleaned, midway := StartNode();
      if r == Initiated {
        var event;
        event, fired, lock :=
          Finish(Event.StartNode, patience, old(Here()), old(api.looks), old(api.naps), old(forced));
        verdict := Some(event);
      }
    }

    /** The same for a shutdown. */
    method ShutdownAndMonitor(patience: nat)
      returns (r: OpReply, verdict: Option<Event>, ghost fired: nat, ghost lock: Lock)
      requires Valid() && InStep() && jobTimeout == DEFAULT_JOB_TIMEOUT
      modifies this`node, this`current, this`backoff, this`history, this`synced, this`forced, locks
      modifies this`currentJob, this`jobStartTime
      modifies api`obj, api`kube, api`jobs, api`rev, api`now, api`mine, api`statuses, api`created, api`uncreated
      modifies api`requests, api`book, api`kubeReads, api`kubeWrites, api`naps, api`listings, api`deletions, api`looks
      ensures Valid() && InStep() && api.Later()
      ensures r == Initiated <==> verdict.Some?
      ensures verdict.Some? ==>
                Followed(Event.ShutdownNode, verdict.value, old(Here()), old(api.looks), old(api.naps), old(forced))
      ensures verdict == Some(JobTimeout) && forced == old(forced) ==>
                TimedOut(old(Here()), fired, lock) && current == Ready
    {
      fired, lock, verdict := api.now, Lock(BLANK, BLANK, 0, 0), None;
      ghost var cleaned, midway;
      r, cleaned, midway := ShutdownNode();
      if r == Initiated {
        var event;
        event, fired, lock :=
          Finish(Event.ShutdownNode, patience, old(Here()), old(api.looks), old(api.naps), old(forced));
        verdict := Some(event);
      }
    }

    // ---------------------------------------------------------------- backoff and stuck transitions

    /** The requeue delay. Without a backoff record it is one minute; with one it follows the schedule,
        and at an age beyond it the open operation is cleaned up by force. */
    method CalculateBackoff() returns (delay: nat, ghost age: int)
      requires Valid() && InStep()
      modifies this`node, this`current, this`backoff, this`history, this`synced, locks
      modifies api`obj, api`kube, api`jobs, api`rev, api`now, api`mine, api`statuses
      modifies api`requests, api`book, api`kubeReads, api`kubeWrites, api`naps
      ensures Valid() && InStep() && api.Later()
      ensures old(backoff).None? ==> delay == MINUTE && unchanged(api)
      ensures old(backoff).Some? ==>
                && delay == (if Phase(age).Some? then Phase(age).value else 0)
                && old(api.now) - old(backoff).value <= age <= api.now - old(backoff).value
      ensures delay > 0 ==> history == old(history) && current == old(current) && api.mine == old(api.mine)
                            && api.statuses == old(api.statuses)
      ensures delay == 0 ==>
                && history == old(history) + [ForceCleanup] && current == Shutdown
                && Booked(LoopsOf(ForceCleanup, locks.owner)) && Persists(ProgressShutdown, synced, 2)
    {
      if backoff.None? {
        return MINUTE, 0;
      }
      var act := api.Others();
      var elapsed := api.now - backoff.value;
      age := elapsed;
      if elapsed <= 2 * MINUTE {
        delay := 30 * SECOND;
      } else if elapsed <= 10 * MINUTE {
        delay := 2 * MINUTE;
      } else if elapsed <= 15 * MINUTE {
        delay := 5 * MINUTE;
      } else {
        var fired := Fire(ForceCleanup);
        delay := 0;
      }
    }

    /** Cleans up an open operation that is older than 15 minutes; a machine without a backoff record is left alone. */
    method CheckStuckState() returns (ghost age: int)
      requires Valid() && InStep()
      modifies this`node, this`current, this`backoff, this`history, this`synced, locks
      modifies api`obj, api`kube, api`jobs, api`rev, api`now, api`mine, api`statuses
      modifies api`requests, api`book, api`kubeReads, api`kubeWrites, api`naps
      ensures Valid() && InStep() && api.Later()
      ensures old(backoff).Some? && age > STUCK ==>
                && history == old(history) + [ForceCleanup] && current == Shutdown
                && Booked(LoopsOf(ForceCleanup, locks.owner)) && Persists(ProgressShutdown, synced, 2)
      ensures old(backoff).None? || age <= STUCK ==>
                && history == old(history) && current == old(current) && backoff == old(backoff)
                && api.mine == old(api.mine) && api.statuses == old(api.statuses)
      ensures old(backoff).None? ==> unchanged(api)
      ensures old(backoff).Some? ==> old(api.now) - old(backoff).value <= age <= api.now - old(backoff).value
    {
      if backoff.None? {
        return 0;
      }
      var act := api.Others();
      age := api.now - backoff.value;
      if api.now - backoff.value > 15 * MINUTE {
        var fired := Fire(ForceCleanup);
      }
    }
  }

  /** Restart transparency: between events, with the last progress write through and no other writer of
      progress, a machine rebuilt from the stored node is in the same state. */
  method Rebuild(machine: NodeStateMachine) returns (again: NodeStateMachine)
    requires machine.Valid() && machine.InStep() && machine.synced && machine.api.steady
    modifies machine.api`obj, machine.api`kube, machine.api`jobs, machine.api`rev, machine.api`now
    ensures machine.api.obj.Some? && again.node == machine.api.obj.value
    ensures again.Valid() && again.InStep() && again.current == machine.current
  {
    var act := machine.api.Others();
    again := new NodeStateMachine(machine.api.obj.value, machine.api, machine.locks);
  }
}
