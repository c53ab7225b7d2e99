/** The stored objects: node custom resources, power jobs and Kubernetes nodes,
    and what the API server does with a write. */
module Objects {

  datatype Option<+T> = None | Some(value: T)

  // Instants and durations are counted in nanoseconds.
  const SECOND := 1_000_000_000
  const MINUTE := 60 * SECOND

  /** A string, seen through the two parsers that lock annotations go through:
      one that reads as an RFC 3339 time, one that reads as a number, or neither. */
  datatype Value = Text(text: string) | Instant(at: int) | Number(amount: real)

  const BLANK := Text("")

  datatype Key = OperationLock | LockOwner | LockTimestamp | LockTimeout | OtherKey(name: string)

  datatype PowerState = PowerOn | PowerOff | PowerOther(text: string)

  datatype Progress =
    | ProgressShutdown
    | ProgressStartingUp
    | ProgressReady
    | ProgressShuttingDown
    | ProgressOther(text: string)

  predicate InTransition(p: Progress) {
    p == ProgressStartingUp || p == ProgressShuttingDown
  }

  datatype Spec = Spec(desired: PowerState, kubernetesName: string)

  datatype Status = Status(power: PowerState, progress: Progress,
                           lastStartup: Option<int>, lastShutdown: Option<int>)

  /** A node custom resource. `version` is its resourceVersion; an annotation map
      that is nil in the program is the empty map here. */
  datatype Node = Node(name: string, version: nat, group: Option<string>, owned: bool, deleting: bool,
                       annotations: map<Key, Value>, spec: Spec, status: Status)

  /** A write to the main resource leaves the stored status alone. */
  function MainWritten(stored: Node, sent: Node, version: nat): Node {
    sent.(status := stored.status, version := version)
  }

  /** A write to the status subresource leaves everything else alone. */
  function StatusWritten(stored: Node, sent: Node, version: nat): Node {
    stored.(status := sent.status, version := version)
  }

  /** So a write of the one kind and a write of the other do not get in each other's way. */
  lemma WritesCommute(stored: Node, main: Node, status: Node, version: nat)
    ensures StatusWritten(MainWritten(stored, main, version), status, version + 1)
            == MainWritten(StatusWritten(stored, status, version), main, version + 1)
  {
  }

  datatype JobType = StartupJob | ShutdownJob | OtherJob(text: string)

  datatype Job = Job(name: string, node: string, kind: JobType, succeeded: nat, failed: nat)

  datatype Taint = Taint(key: string, effect: string)

  datatype KubeCondition = KubeCondition(kind: string, status: string)

  datatype KubeNode = KubeNode(version: nat, node: Option<string>, unschedulable: bool, taints: seq<Taint>,
                               conditions: seq<KubeCondition>)

  const READY := "Ready"
  const TRUE := "True"
}
