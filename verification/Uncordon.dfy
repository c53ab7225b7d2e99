/** Cordoning and uncordoning of the Kubernetes node behind a node resource. */
module Uncordon {
  import opened Objects
  import opened ApiServers

  const UNSCHEDULABLE_TAINT := "node.kubernetes.io/unschedulable"
  const AUTOSCALER_TAINT := "ToBeDeletedByClusterAutoscaler"
  const FIRST_INTERVAL := 2 * SECOND
  const MAX_INTERVAL := 10 * SECOND

  /** The taints with another key, in order. */
  function Without(taints: seq<Taint>, key: string): seq<Taint> {
    if taints == [] then []
    else
      var last := taints[|taints| - 1];
      Without(taints[..|taints| - 1], key) + if last.key == key then [] else [last]
  }

  /** The taints without the first one of that key, if there is one. */
  function WithoutFirst(taints: seq<Taint>, key: string): seq<Taint> {
    if taints == [] then []
    else if taints[0].key == key then taints[1..]
    else [taints[0]] + WithoutFirst(taints[1..], key)
  }

  lemma {:induction false} WithoutHas(taints: seq<Taint>, key: string, t: Taint)
    ensures t in Without(taints, key) <==> t in taints && t.key != key
  {
    if taints != [] {
      var front, last := taints[..|taints| - 1], taints[|taints| - 1];
      WithoutHas(front, key, t);
      assert taints == front + [last];
    }
  }

  lemma {:induction false} WithoutNone(taints: seq<Taint>, key: string)
    requires forall i :: 0 <= i < |taints| ==> taints[i].key != key
    ensures Without(taints, key) == taints
  {
    if taints != [] {
      var front, last := taints[..|taints| - 1], taints[|taints| - 1];
      WithoutNone(front, key);
      assert taints == front + [last];
    }
  }

  // Filtering drops exactly the taints of that key, and does nothing when there are none.
  lemma {:induction false} WithoutKeepsOthers(taints: seq<Taint>, key: string)
    ensures forall t :: t in Without(taints, key) <==> t in taints && t.key != key
    ensures (forall t :: t in taints ==> t.key != key) ==> Without(taints, key) == taints
  {
    forall t
      ensures t in Without(taints, key) <==> t in taints && t.key != key
    {
      WithoutHas(taints, key, t);
    }
    if forall t :: t in taints ==> t.key != key {
      WithoutNone(taints, key);
    }
  }

  /** Filtering keeps the order: it commutes with cutting the list anywhere. */
  lemma {:induction false} WithoutKeepsOrder(left: seq<Taint>, right: seq<Taint>, key: string)
    ensures Without(left + right, key) == Without(left, key) + Without(right, key)
  {
    if right == [] {
      assert left + right == left;
    } else {
      var front := right[..|right| - 1];
      WithoutKeepsOrder(left, front, key);
      assert (left + right)[..|left + right| - 1] == left + front;
      assert (left + right)[|left + right| - 1] == right[|right| - 1];
    }
  }

  // The readiness that the retry loop looks at: the first condition of type Ready decides.
  function FirstReady(conditions: seq<KubeCondition>): bool {
    if conditions == [] then false
    else if conditions[0].kind == "Ready" then conditions[0].status == "True"
    else FirstReady(conditions[1..])
  }

  // The pause after the n-th attempt, and the total after n attempts.
  function Interval(n: nat): nat {
    if n == 0 then FIRST_INTERVAL
    else if 2 * Interval(n - 1) > MAX_INTERVAL then MAX_INTERVAL else 2 * Interval(n - 1)
  }

  function Total(n: nat): nat {
    if n == 0 then 0 else Total(n - 1) + Interval(n - 1)
  }

  lemma {:induction false} IntervalStays(n: nat)
    ensures 2 * SECOND <= Interval(n) <= 10 * SECOND
    ensures n < 3 ==> Interval(n) == [2 * SECOND, 4 * SECOND, 8 * SECOND][n]
    ensures n >= 3 ==> Interval(n) == 10 * SECOND
  {
    if n > 3 {
      IntervalStays(n - 1);
    } else {
      assert Interval(0) == 2 * SECOND && Interval(1) == 4 * SECOND && Interval(2) == 8 * SECOND;
    }
  }

  lemma {:induction false} TotalGrows(n: nat)
    requires n >= 3
    ensures Total(n) == 14 * SECOND + (n - 3) * MAX_INTERVAL
  {
    if n > 3 {
      TotalGrows(n - 1);
      IntervalStays(n - 1);
    } else {
      assert Interval(0) == 2 * SECOND && Interval(1) == 4 * SECOND && Interval(2) == 8 * SECOND;
      assert Total(1) == 2 * SECOND && Total(2) == 6 * SECOND;
    }
  }

  /** The first n pauses. */
  function Pauses(n: nat): (p: seq<nat>)
    ensures |p| == n
  {
    if n == 0 then [] else Pauses(n - 1) + [Interval(n - 1)]
  }

  function Sum(naps: seq<nat>): nat {
    if naps == [] then 0 else Sum(naps[..|naps| - 1]) + naps[|naps| - 1]
  }

  lemma {:induction false} PausesSumUp(n: nat)
    ensures Sum(Pauses(n)) == Total(n)
    ensures forall i :: 0 <= i < n ==> 2 * SECOND <= Pauses(n)[i] <= 10 * SECOND
  {
    if n > 0 {
      PausesSumUp(n - 1);
      IntervalStays(n - 1);
    }
  }

  // The last attempt began before the timeout.
  predicate InBudget(attempts: nat, timeout: nat) {
    && (attempts > 0 ==> Total(attempts - 1) < timeout)
    && Total(attempts) < timeout + MAX_INTERVAL
  }

  /** The pauses between two states of the log are the first of the schedule, one for each failed attempt; `last`
      attempts came after them; each attempt has read once or twice; and all of that fits the timeout. */
  ghost predicate Paced(before: seq<nat>, after: seq<nat>, looked: int, last: nat, timeout: nat) {
    && |before| <= |after|
    && var failed := |after| - |before|;
    && after == before + Pauses(failed) && InBudget(failed + last, timeout)
    && failed + 2 * last <= looked <= 2 * failed + 2 * last
  }

  // One more attempt, with a pause after it.
  lemma PacedOn(before: seq<nat>, after: seq<nat>, looked: int, looked': int, timeout: nat)
    requires Paced(before, after, looked, 0, timeout) && Total(|after| - |before|) < timeout
    requires looked < looked' <= looked + 2
    ensures Paced(before, after + [Interval(|after| - |before|)], looked', 0, timeout)
  {
  }

  // The last attempt.
  lemma PacedOut(before: seq<nat>, after: seq<nat>, looked: int, timeout: nat)
    requires Paced(before, after, looked, 0, timeout) && Total(|after| - |before|) < timeout
    ensures Paced(before, after, looked + 2, 1, timeout)
  {
  }

  /** With the default of 90 seconds at most eleven attempts fit. */
  lemma AtMostElevenAttempts(attempts: nat)
    requires InBudget(attempts, 90 * SECOND)
    ensures attempts <= 11
  {
    if attempts > 11 {
      TotalGrows(attempts - 1);
    }
  }

  /** The Kubernetes node is schedulable, has no unschedulable taint, and is otherwise as it was seen. */
  ghost predicate Uncordoned(kube: Option<KubeNode>, seen: KubeNode) {
    && kube.Some?
    && kube.value == seen.(version := kube.value.version, unschedulable := false,
                           taints := Without(seen.taints, "node.kubernetes.io/unschedulable"))
  }

  /** The first taint of the autoscaler is gone and nothing else has changed. */
  ghost predicate Untainted(kube: Option<KubeNode>, seen: KubeNode) {
    && kube.Some?
    && kube.value == seen.(version := kube.value.version,
                           taints := WithoutFirst(seen.taints, "ToBeDeletedByClusterAutoscaler"))
  }

  /** The node is unschedulable and otherwise as it was. */
  ghost predicate Cordoned(kube: Option<KubeNode>, seen: KubeNode) {
    kube.Some? && kube.value == seen.(version := kube.value.version, unschedulable := true)
  }

  /** A read that shows a node whose first Ready condition is true. */
  predicate SawReady(read: Reply<KubeNode>) {
    read.Ok? && FirstReady(read.value.conditions)
  }

  // The log has grown by no more than one write.
  ghost predicate AtMostOneWrite(before: seq<KubeWrite>, after: seq<KubeWrite>) {
    after == before || (|after| == |before| + 1 && after[..|before|] == before)
  }

  /** Every new write has uncordoned the node that it replaced, and changed nothing else of it. */
  ghost predicate OnlyUncordons(before: seq<KubeWrite>, after: seq<KubeWrite>) {
    && |after| >= |before| && after[..|before|] == before
    && forall i :: |before| <= i < |after| ==> Uncordoned(Some(after[i].after), after[i].before)
  }

  lemma UncordonsAddUp(before: seq<KubeWrite>, mid: seq<KubeWrite>, after: seq<KubeWrite>)
    requires OnlyUncordons(before, mid) && OnlyUncordons(mid, after)
    ensures OnlyUncordons(before, after)
  {
  }

  /** Where a loop of attempts began. */
  datatype Since = Since(naps: seq<nat>, looked: nat, writes: seq<KubeWrite>, start: nat, timeout: nat)

  class KubeNodes {
    const api: ApiServer

    constructor (api: ApiServer)
      ensures this.api == api
    {
      this.api := api;
    }

    /** Whatever happens meanwhile: at most one write, and it only cordons the node that it replaces. */
    method SetNodeUnschedulable(nodeName: string) returns (ok: bool)
      requires api.Valid()
      modifies api`obj, api`kube, api`jobs, api`rev, api`now, api`kubeReads, api`kubeWrites
      ensures api.OnlyKube()
      ensures ok && api.reliable && nodeName != "" ==> api.kube.None? || api.kube.value.unschedulable
      ensures AtMostOneWrite(old(api.kubeWrites), api.kubeWrites)
      ensures api.kubeWrites != old(api.kubeWrites) ==>
                var w := api.kubeWrites[|old(api.kubeWrites)|]; ok && Cordoned(Some(w.after), w.before)
      ensures api.reliable && api.alone ==> ok
      ensures api.reliable && api.alone && nodeName != "" && old(api.kube).Some? ==>
                Cordoned(api.kube, old(api.kube).value)
      ensures nodeName == "" ==> ok && api.kubeReads == old(api.kubeReads) && api.kubeWrites == old(api.kubeWrites)
      ensures nodeName != "" ==>
                && |api.kubeReads| == |old(api.kubeReads)| + 1
                && var seen := Shown(api.kubeReads[|old(api.kubeReads)|]);
                if seen.None? || seen.value.unschedulable then ok && api.kubeWrites == old(api.kubeWrites)
                else ok <==> api.kubeWrites != old(api.kubeWrites)
    {
      if nodeName == "" {
        return true;
      }
      var act := api.Others();
      var got := api.GetKube();
      if !got.Ok? {
        return true;
      }
      var kube := got.value;
      if kube.unschedulable {
        return true;
      }
      ok := PutKube(kube, kube.(unschedulable := true));
    }

    // Writes a changed copy of the node as it was just read.
    method PutKube(seen: KubeNode, copy: KubeNode) returns (ok: bool)
      requires api.Valid() && api.kube == Some(seen) && copy.version == seen.version
      modifies api`obj, api`kube, api`jobs, api`rev, api`now, api`kubeWrites
      ensures api.OnlyKube() && (api.alone && api.reliable ==> ok) && (api.alone && !ok ==> api.kube == old(api.kube))
      ensures ok ==>
                && api.kube == Some(copy.(version := api.rev))
                && api.kubeWrites == old(api.kubeWrites) + [KubeWrite(seen, copy.(version := api.rev))]
      ensures !ok ==> api.kubeWrites == old(api.kubeWrites)
    {
      var act := api.Others();
      var put := api.UpdateKube(copy);
      ok := put.Ok?;
    }

    /** Whatever happens meanwhile: at most one write, and it only takes the first taint of the autoscaler off
        the node that it replaces. */
    method RemoveClusterAutoscalerTaint(nodeName: string) returns (ok: bool)
      requires api.Valid()
      modifies api`obj, api`kube, api`jobs, api`rev, api`now, api`kubeReads, api`kubeWrites
      ensures api.OnlyKube()
      ensures AtMostOneWrite(old(api.kubeWrites), api.kubeWrites)
      ensures api.kubeWrites != old(api.kubeWrites) ==>
                var w := api.kubeWrites[|old(api.kubeWrites)|]; ok && Untainted(Some(w.after), w.before)
      ensures api.reliable && api.alone ==> ok
      ensures api.reliable && api.alone && nodeName != "" && old(api.kube).Some? ==>
                Untainted(api.kube, old(api.kube).value)
      ensures nodeName == "" ==> ok && api.kubeReads == old(api.kubeReads) && api.kubeWrites == old(api.kubeWrites)
      ensures nodeName != "" ==>
                && |api.kubeReads| == |old(api.kubeReads)| + 1
                && var seen := Shown(api.kubeReads[|old(api.kubeReads)|]);
                if seen.None? || (forall t :: t in seen.value.taints ==> t.key != AUTOSCALER_TAINT)
                then ok && api.kubeWrites == old(api.kubeWrites)
                else ok <==> api.kubeWrites != old(api.kubeWrites)
    {
      if nodeName == "" {
        return true;
      }
      var act := api.Others();
      var got := api.GetKube();
      if !got.Ok? {
        return true;
      }
      var kube := got.value;
      var index := FindTaint(kube.taints, AUTOSCALER_TAINT);
      if index == |kube.taints| {
        return true;
      }
      ok := PutKube(kube, kube.(taints := kube.taints[..index] + kube.taints[index + 1..]));
    }

    // The position of the first taint with that key; the length if there is none.
    method FindTaint(taints: seq<Taint>, key: string) returns (index: nat)
      ensures index <= |taints|
      ensures if index < |taints| then WithoutFirst(taints, key) == taints[..index] + taints[index + 1..]
              else WithoutFirst(taints, key) == taints
      ensures index < |taints| <==> exists t :: t in taints && t.key == key
      ensures index < |taints| ==> taints[index].key == key && forall i :: 0 <= i < index ==> taints[i].key != key
    {
      index := 0;
      while index < |taints| && taints[index].key != key
        invariant index <= |taints|
        invariant forall t :: t in taints[..index] ==> t.key != key
        invariant WithoutFirst(taints, key) == taints[..index] + WithoutFirst(taints[index..], key)
      {
        assert taints[index..][1..] == taints[index + 1..];
        index := index + 1;
      }
      assert index < |taints| ==> taints[index..][1..] == taints[index + 1..];
    }

    // Drops every taint with that key.
    method FilterTaints(taints: seq<Taint>, key: string) returns (kept: seq<Taint>)
      ensures kept == Without(taints, key)
    {
      kept := [];
      for i := 0 to |taints|
        invariant kept == Without(taints[..i], key)
      {
        if taints[i].key != key {
          kept := kept + [taints[i]];
        }
        assert taints[..i + 1][..i] == taints[..i];
      }
      assert taints[..|taints|] == taints;
    }

    /** One read, and at most one write that uncordons the node it replaces, the one that was read. Success
        means that the node is open and otherwise as it was read, or that the read found nothing. */
    method SetNodeSchedulableInternal(nodeName: string) returns (ok: bool)
      requires api.Valid()
      modifies api`obj, api`kube, api`jobs, api`rev, api`now, api`kubeReads, api`kubeWrites
      ensures api.OnlyKube() && OnlyUncordons(old(api.kubeWrites), api.kubeWrites)
      ensures nodeName == "" ==> ok && api.kubeReads == old(api.kubeReads) && api.kubeWrites == old(api.kubeWrites)
      ensures nodeName != "" ==>
                && |api.kubeReads| == |old(api.kubeReads)| + 1
                && api.kubeReads[..|old(api.kubeReads)|] == old(api.kubeReads)
                && var seen := Shown(api.kubeReads[|old(api.kubeReads)|]);
                && (ok && seen.Some? ==> Uncordoned(api.kube, seen.value))
                && (seen.None? ==> ok && api.kubeWrites == old(api.kubeWrites))
                && (api.reliable && seen.None? ==> api.kube.None?)
                && (api.alone ==> if seen.Some? then seen == old(api.kube) else api.kube == old(api.kube))
      ensures api.alone && !ok ==> api.kube == old(api.kube)
      ensures api.alone && api.reliable ==> ok
    {
      if nodeName == "" {
        return true;
      }
      var act := api.Others();
      var got := api.GetKube();
      if !got.Ok? {
        return true;
      }
      ok := OpenSeen(got.value);
    }

    // Uncordons the node as it was just read.
    method OpenSeen(kube: KubeNode) returns (ok: bool)
      requires api.Valid() && api.kube == Some(kube)
      modifies api`obj, api`kube, api`jobs, api`rev, api`now, api`kubeWrites
      ensures api.OnlyKube() && (ok ==> Uncordoned(api.kube, kube))
      ensures OnlyUncordons(old(api.kubeWrites), api.kubeWrites)
      ensures api.alone && !ok ==> api.kube == old(api.kube)
      ensures api.alone && api.reliable ==> ok
    {
      var copy, needed := OpenCopy(kube);
      ok := true;
      if needed {
        ok := PutKube(kube, copy);
      }
    }

    // The copy to write in order to uncordon, and whether it differs at all.
    method OpenCopy(kube: KubeNode) returns (copy: KubeNode, needed: bool)
      ensures copy == kube.(unschedulable := false, taints := Without(kube.taints, UNSCHEDULABLE_TAINT))
      ensures !needed ==> copy == kube
    {
      WithoutKeepsOthers(kube.taints, UNSCHEDULABLE_TAINT);
      var index := FindTaint(kube.taints, UNSCHEDULABLE_TAINT);
      var needsTaintRemoval := index < |kube.taints|;
      needed := kube.unschedulable || needsTaintRemoval;
      copy := kube.(unschedulable := false);
      if needsTaintRemoval {
        var kept := FilterTaints(kube.taints, UNSCHEDULABLE_TAINT);
        copy := copy.(taints := kept);
      }
    }

    // Whether the Kubernetes node exists and its first Ready condition is true, by one read.
    method SeesReady() returns (ready: bool)
      requires api.Valid()
      modifies api`obj, api`kube, api`jobs, api`rev, api`now, api`kubeReads
      ensures api.OnlyKube() && (api.alone ==> api.kube == old(api.kube))
      ensures |api.kubeReads| == |old(api.kubeReads)| + 1 && api.kubeReads[..|old(api.kubeReads)|] == old(api.kubeReads)
      ensures ready <==> SawReady(api.kubeReads[|old(api.kubeReads)|])
      ensures Shown(api.kubeReads[|old(api.kubeReads)|]).Some? || api.reliable ==>
                Shown(api.kubeReads[|old(api.kubeReads)|]) == api.kube
    {
      var act := api.Others();
      var got := api.GetKube();
      if !got.Ok? {
        return false;
      }
      var conditions := got.value.conditions;
      var i := 0;
      while i < |conditions| && conditions[i].kind != READY
        invariant i <= |conditions|
        invariant FirstReady(conditions) == FirstReady(conditions[i..])
      {
        assert conditions[i..][1..] == conditions[i + 1..];
        i := i + 1;
      }
      ready := i < |conditions| && conditions[i].status == TRUE;
    }

    /** Success by the last two reads: the first showed a ready node, and the node is open as the second
        showed it, unless that one found nothing. */
    ghost predicate OpenedAsRead()
      reads api
    {
      && |api.kubeReads| >= 2 && SawReady(api.kubeReads[|api.kubeReads| - 2])
      && var seen := Shown(api.kubeReads[|api.kubeReads| - 1]);
      && if seen.Some? then Uncordoned(api.kube, seen.value) else api.reliable ==> api.kube.None?
    }

    ghost predicate Ready(kube: Option<KubeNode>) {
      kube.Some? && FirstReady(kube.value.conditions)
    }

    // One attempt: wait for readiness, then uncordon.
    method TryUncordon(nodeName: string) returns (ok: bool)
      requires api.Valid() && nodeName != ""
      modifies api`obj, api`kube, api`jobs, api`rev, api`now, api`kubeReads, api`kubeWrites
      ensures api.OnlyKube() && OnlyUncordons(old(api.kubeWrites), api.kubeWrites)
      ensures |old(api.kubeReads)| < |api.kubeReads| <= |old(api.kubeReads)| + 2
      ensures ok ==> OpenedAsRead() && |api.kubeReads| == |old(api.kubeReads)| + 2
      ensures api.alone ==> if ok then Ready(old(api.kube)) else api.kube == old(api.kube)
      ensures api.alone && api.reliable ==>
                (ok <==> Ready(old(api.kube))) && (ok ==> Uncordoned(api.kube, old(api.kube).value))
    {
      ok := false;
      var ready := SeesReady();
      if ready {
        ok := SetNodeSchedulableInternal(nodeName);
      }
    }

    // Waits, and doubles the interval up to its maximum.
    method Pause(interval: nat, ghost attempts: nat) returns (next: nat)
      requires api.Valid() && interval == Interval(attempts)
      modifies api`obj, api`kube, api`jobs, api`rev, api`now, api`naps
      ensures api.OnlyKube() && api.now >= old(api.now) + interval && (api.alone ==> api.kube == old(api.kube))
      ensures api.naps == old(api.naps) + [interval]
      ensures next == Interval(attempts + 1) && interval > 0
    {
      IntervalStays(attempts);
      api.Sleep(interval);
      next := if 2 * interval > MAX_INTERVAL then MAX_INTERVAL else 2 * interval;
    }

    // A loop of attempts that began with the logs as in `b` is on its way, with `interval` as the next pause.
    ghost predicate OnTrack(b: Since, interval: nat)
      reads api
    {
      && Paced(b.naps, api.naps, |api.kubeReads| - b.looked, 0, b.timeout)
      && OnlyUncordons(b.writes, api.kubeWrites)
      && var failed := |api.naps| - |b.naps|;
      && interval == Interval(failed) && b.start + Total(failed) <= api.now
      && (failed == 0 ==> api.now == b.start && api.naps == b.naps)
    }

    // An attempt, with the pause after it if it failed.
    method TryAndPause(nodeName: string, interval: nat, ghost b: Since) returns (ok: bool, next: nat)
      requires api.Valid() && nodeName != "" && OnTrack(b, interval) && api.now < b.start + b.timeout
      modifies api`obj, api`kube, api`jobs, api`rev, api`now, api`kubeReads, api`kubeWrites, api`naps
      ensures api.OnlyKube() && OnlyUncordons(b.writes, api.kubeWrites)
      ensures if ok then OpenedAsRead() && Paced(b.naps, api.naps, |api.kubeReads| - b.looked, 1, b.timeout)
              else OnTrack(b, next)
      ensures if ok then api.naps == old(api.naps) else api.now > old(api.now) && |api.naps| > |b.naps|
      ensures api.alone ==> if ok then Ready(old(api.kube)) else api.kube == old(api.kube)
      ensures api.alone && api.reliable ==>
                (ok <==> Ready(old(api.kube))) && (ok ==> Uncordoned(api.kube, old(api.kube).value))
    {
      next := interval;
      ok := TryUncordon(nodeName);
      UncordonsAddUp(b.writes, old(api.kubeWrites), api.kubeWrites);
      if ok {
        PacedOut(b.naps, api.naps, old(|api.kubeReads|) - b.looked, b.timeout);
      } else {
        next := PauseOn(interval, b, old(|api.kubeReads|) - b.looked);
      }
    }

    // The pause of a failed attempt, before which the loop had read `looked` times.
    method PauseOn(interval: nat, ghost b: Since, ghost looked: int) returns (next: nat)
      requires api.Valid() && Paced(b.naps, api.naps, looked, 0, b.timeout)
      requires looked < |api.kubeReads| - b.looked <= looked + 2
      requires interval == Interval(|api.naps| - |b.naps|)
      requires Total(|api.naps| - |b.naps|) < b.timeout && b.start + Total(|api.naps| - |b.naps|) <= api.now
      requires OnlyUncordons(b.writes, api.kubeWrites)
      modifies api`obj, api`kube, api`jobs, api`rev, api`now, api`naps
      ensures api.OnlyKube() && (api.alone ==> api.kube == old(api.kube))
      ensures OnTrack(b, next) && api.now > old(api.now) && |api.naps| > |b.naps|
    {
      next := Pause(interval, |api.naps| - |b.naps|);
      PacedOn(b.naps, old(api.naps), looked, |api.kubeReads| - b.looked, b.timeout);
    }

    // The loop of attempts, from now on.
    method Attempts(nodeName: string, timeout: nat) returns (ok: bool)
      requires api.Valid() && nodeName != ""
      modifies api`obj, api`kube, api`jobs, api`rev, api`now, api`kubeReads, api`kubeWrites, api`naps
      ensures api.OnlyKube() && OnlyUncordons(old(api.kubeWrites), api.kubeWrites)
      ensures if ok then OpenedAsRead() else api.now >= old(api.now) + timeout
      ensures Paced(old(api.naps), api.naps, |api.kubeReads| - |old(api.kubeReads)|, if ok then 1 else 0, timeout)
      ensures api.alone ==> if ok then Ready(old(api.kube)) else api.kube == old(api.kube)
      ensures api.alone && api.reliable && timeout > 0 ==> ok == Ready(old(api.kube))
      ensures api.alone && api.reliable && ok ==>
                Uncordoned(api.kube, old(api.kube).value) && api.naps == old(api.naps)
    {
      var start := api.now;
      var retryInterval: nat := FIRST_INTERVAL;
      ghost var b := Since(api.naps, |api.kubeReads|, api.kubeWrites, start, timeout);
      while true
        invariant api.OnlyKube() && (api.alone ==> api.kube == old(api.kube))
        invariant OnTrack(b, retryInterval)
        invariant api.alone && api.reliable && |api.naps| > |b.naps| ==> !Ready(old(api.kube))
        decreases start + timeout - api.now
      {
        if api.now - start >= timeout {
          return false;
        }
        ok, retryInterval := TryAndPause(nodeName, retryInterval, b);
        if ok {
          return;
        }
      }
    }

    /** Retries until the timeout. Success means that a read showed the node ready and that it is then open as the
        next read showed it, unless that read found nothing. The pauses follow the schedule, within the time. */
    method SetNodeSchedulableWithRetry(nodeName: string, timeout: nat) returns (ok: bool)
      requires api.Valid()
      modifies api`obj, api`kube, api`jobs, api`rev, api`now, api`kubeReads, api`kubeWrites, api`naps
      ensures api.OnlyKube() && OnlyUncordons(old(api.kubeWrites), api.kubeWrites)
      ensures nodeName == "" ==>
                && ok && api.kubeReads == old(api.kubeReads) && api.kubeWrites == old(api.kubeWrites)
                && api.naps == old(api.naps)
      ensures nodeName != "" ==> if ok then OpenedAsRead() else api.now >= old(api.now) + timeout
      ensures nodeName != "" ==>
                Paced(old(api.naps), api.naps, |api.kubeReads| - |old(api.kubeReads)|, if ok then 1 else 0, timeout)
      ensures api.alone && nodeName != "" ==> if ok then Ready(old(api.kube)) else api.kube == old(api.kube)
      ensures api.alone && api.reliable && nodeName != "" && timeout > 0 ==> ok == Ready(old(api.kube))
      ensures api.alone && api.reliable && nodeName != "" && ok ==>
                Uncordoned(api.kube, old(api.kube).value) && api.naps == old(api.naps)
    {
      if nodeName == "" {
        return true;
      }
      var act := api.Others();
      ok := Attempts(nodeName, timeout);
    }
  }
}
