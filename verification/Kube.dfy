/** The cluster objects both controllers read and patch: labels, nodes, pods and Jobs. */
module Kube {

  datatype Option<+T> = None | Some(value: T)

  /** Label keys the operator gives a meaning to; every other key is a `UserLabel`. */
  datatype LabelKey =
    | OwnerCR
    | UpgradeState
    | FWVersion
    | FirmwareSkip
    | Present
    | DriverSkip
    | InstallMode
    | KMDVersion
    | UserLabel(name: string)

  type Labels = map<LabelKey, string>

  /** Reading a missing key yields the empty string, as a Go map does. */
  function Get(labels: Labels, key: LabelKey): string {
    if key in labels then labels[key] else ""
  }

  /** The cordoned-at annotation: absent, not a timestamp, or a time in seconds. */
  datatype Stamp = NoStamp | Garbled | At(seconds: int)

  /** One controller's pair of cordon annotations; an empty `owner` is a missing annotation. */
  datatype CordonMark = CordonMark(owner: string, at: Stamp)

  /** A flash Job's identity. The name it is hashed to is taken to be injective. */
  datatype JobId = JobId(cr: string, node: string, version: string)

  datatype Node = Node(
    labels: Labels,
    unschedulable: bool,
    cordon: CordonMark,
    currentVersion: string,
    desiredVersion: string,
    lastFlashJob: Option<JobId>)

  /** A patch is applied, refused, or applied with its response lost. */
  datatype PatchAnswer = Applied | Rejected | Lost

  datatype Volume = HostPath(path: string) | EmptyDir | OtherVolume

  datatype PodPhase = PodPending | PodRunning | PodSucceeded | PodFailed | PodUnknown

  datatype PodId = PodId(ns: string, name: string)

  datatype Pod = Pod(
    id: PodId,
    node: string,
    phase: PodPhase,
    volumes: seq<Volume>,
    ownerKinds: seq<string>,
    labels: Labels)

  datatype ConditionKind = Complete | SuccessCriteriaMet | FailedCondition | OtherCondition

  datatype JobCondition = JobCondition(kind: ConditionKind, isTrue: bool)

  datatype Job = Job(conditions: seq<JobCondition>)

  datatype JobOutcome = Running | Succeeded | JobFailed

  /** What the first true terminal condition says; no such condition means still running. */
  function OutcomeFrom(conditions: seq<JobCondition>): JobOutcome {
    if conditions == [] then Running
    else if !conditions[0].isTrue then OutcomeFrom(conditions[1..])
    else match conditions[0].kind
      case Complete => Succeeded
      case SuccessCriteriaMet => Succeeded
      case FailedCondition => JobFailed
      case OtherCondition => OutcomeFrom(conditions[1..])
  }

  function Outcome(job: Job): JobOutcome {
    OutcomeFrom(job.conditions)
  }

  /** A condition that ends a Job, one way or the other. */
  predicate Terminal(c: JobCondition) {
    c.isTrue && c.kind in {Complete, SuccessCriteriaMet, FailedCondition}
  }

  /** The earliest terminal condition of a Job stands at `i`. */
  predicate FirstTerminal(conditions: seq<JobCondition>, i: int) {
    0 <= i < |conditions| && Terminal(conditions[i]) && forall j | 0 <= j < i :: !Terminal(conditions[j])
  }

  /** A Job has succeeded exactly when its earliest terminal condition is Complete or SuccessCriteriaMet, failed
      exactly when it is Failed, and runs exactly when it has none. */
  lemma {:induction false} OutcomeMeans(conditions: seq<JobCondition>)
    ensures OutcomeFrom(conditions).Succeeded? <==>
              exists i :: FirstTerminal(conditions, i) && conditions[i].kind in {Complete, SuccessCriteriaMet}
    ensures OutcomeFrom(conditions).JobFailed? <==>
              exists i :: FirstTerminal(conditions, i) && conditions[i].kind == FailedCondition
    ensures OutcomeFrom(conditions).Running? <==> forall i | 0 <= i < |conditions| :: !Terminal(conditions[i])
  {
    if conditions != [] {
      var rest := conditions[1..];
      OutcomeMeans(rest);
      if Terminal(conditions[0]) {
        assert FirstTerminal(conditions, 0);
      } else {
        forall i
          ensures FirstTerminal(rest, i) <==> FirstTerminal(conditions, i + 1)
        {
          assert forall j | 0 <= j < |rest| :: rest[j] == conditions[j + 1];
        }
        assert forall i :: FirstTerminal(conditions, i) ==> i > 0 && FirstTerminal(rest, i - 1);
      }
    }
  }
}
