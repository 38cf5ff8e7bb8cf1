/**
 The API objects the controllers read and write, as values, and the outcome of a call to an API server.
 */
module Api {

  datatype Option<+T> = None | Some(value: T)

  /** A Get or List call: the object, a NotFound error, or any other error. */
  datatype Reply<+T> = Got(value: T) | Missing | Error(message: string)

  const CARE_INSTRUCTION_LABEL := "shoot-grafter.cloudoperators.dev/careinstruction"
  const RECONCILE_ANNOTATION := "shoot-grafter.cloudoperators.dev/reconcile"
  const AUTH_CONFIG_MAP_KEY := "config.yaml"

  /** Go's m[k] on a map[string]string: the empty string for an absent key. */
  function Lookup(m: map<string, string>, k: string): string {
    if k in m then m[k] else ""
  }

  datatype ShootSelector = ShootSelector(matchLabels: map<string, string>, expression: string)

  datatype CareInstructionSpec = CareInstructionSpec(
    gardenClusterKubeConfigSecretName: string,
    gardenClusterName: string,
    gardenNamespace: string,
    shootSelector: Option<ShootSelector>,
    propagateLabels: seq<string>,
    additionalLabels: map<string, string>,
    additionalAnnotations: map<string, string>,
    enableRBAC: bool,
    authenticationConfigMapName: string)

  datatype ConditionType = GardenClusterAccessReady | ShootControllerStarted | ShootsReconciled | Ready | Delete

  datatype ConditionStatus = CondTrue | CondFalse | CondUnknown

  datatype Condition = Condition(status: ConditionStatus, reason: string, message: string)

  datatype ShootState = Onboarded | Failed | Excluded

  datatype ShootStatus = ShootStatus(name: string, status: ShootState, message: string)

  datatype CareInstructionStatus = CareInstructionStatus(
    conditions: map<ConditionType, Condition>,
    shoots: seq<ShootStatus>,
    totalTargetShoots: nat,
    createdClusters: nat,
    failedClusters: nat,
    restartCount: nat)

  const EMPTY_STATUS := CareInstructionStatus(map[], [], 0, 0, 0, 0)

  datatype CareInstruction = CareInstruction(
    namespace: string,
    name: string,
    annotations: map<string, string>,
    spec: CareInstructionSpec,
    status: CareInstructionStatus)

  predicate IsTrue(status: CareInstructionStatus, kind: ConditionType) {
    kind in status.conditions && status.conditions[kind].status == CondTrue
  }

  function SetCondition(ci: CareInstruction, kind: ConditionType, c: Condition): CareInstruction {
    ci.(status := ci.status.(conditions := ci.status.conditions[kind := c]))
  }

  datatype ConfigMap = ConfigMap(
    labels: map<string, string>,
    annotations: map<string, string>,
    data: map<string, string>)

  /** A Greenhouse Cluster; readyMessage is empty when the Ready condition is absent. */
  datatype Cluster = Cluster(
    name: string,
    labels: map<string, string>,
    annotations: map<string, string>,
    ready: bool,
    readyMessage: string)
}
