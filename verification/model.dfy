/** The entities of the operator: the EphemeralEnv resource, the cluster objects the operator
    manages for it, and the names under which it keeps them. */
module Model {

  datatype Option<+T> = None | Some(value: T)

  /** Seconds on the cluster clock, and durations in seconds. */
  type Time = int

  // ---------------------------------------------------------------- specification

  datatype Chart = Chart(repository: string, name: string, version: string)

  /** One chart to deploy. `valuesParse` says whether the raw JSON values unmarshal into a map. */
  datatype Component = Component(name: string, chart: Chart, valuesParse: bool, primary: bool)

  datatype HelmSpec = HelmSpec(chart: Chart, valuesParse: bool)

  datatype TemplateRef = TemplateRef(name: string, namespace: string)

  datatype Gateway = Gateway(name: string, namespace: string, domainPrefix: string, serviceName: string, targetPort: int)

  /** The TTL string: absent, not a Go duration, or a duration in whole seconds. */
  datatype Ttl = NoTtl | BadTtl | Lasting(seconds: nat)

  datatype Spec = Spec(
    helm: Option<HelmSpec>, components: seq<Component>, templateRef: Option<TemplateRef>,
    ttl: Ttl, isolation: Option<bool>, servicePort: Option<int>, gateway: Gateway)

  const DEFAULT_TTL: Time := 24 * 3600

  function GetTtl(spec: Spec): Time {
    match spec.ttl
    case Lasting(s) => s
    case _ => DEFAULT_TTL
  }

  predicate IsolationEnabled(spec: Spec) {
    spec.isolation.None? || spec.isolation.value
  }

  // ---------------------------------------------------------------- status

  datatype Phase = Unset | Pending | Active | Failed | Expired

  /** Which of its fixed texts the operator last wrote into the message field. */
  datatype Message =
    | NoMessage | ActiveMessage | StepMessage(step: CreateStep) | HelmMessage
    | WaitingMessage | ExpiredMessage | CleanupFailedMessage

  /** The steps of the create path whose failure is reported with a text of its own. */
  datatype CreateStep = NamespaceStep | RbacStep | PolicyStep | GrantStep | RouteStep

  datatype ConditionType = NamespaceReady | NetworkPolicyApplied | HelmDeployed | HTTPRouteReady | EnvironmentExpired

  datatype Condition = Condition(status: bool, since: Time)

  datatype DeployNote = AlreadyInstalled | Installed(at: Time)

  datatype ComponentStatus = ComponentStatus(name: string, releaseName: string, note: DeployNote)

  datatype Status = Status(
    phase: Phase, activeNamespace: string, accessURL: string, adminURL: string,
    expirationTime: Option<Time>, helmRelease: string, components: seq<ComponentStatus>,
    lastReconcile: Option<Time>, message: Message, conditions: map<ConditionType, Condition>)

  const EmptyStatus := Status(Unset, "", "", "", None, "", [], None, NoMessage, map[])

  /** A condition keeps its transition time as long as its truth value stays the same. */
  function SetCondition(s: Status, t: ConditionType, value: bool, now: Time): Status {
    var since := if t in s.conditions && s.conditions[t].status == value then s.conditions[t].since else now;
    s.(conditions := s.conditions[t := Condition(value, since)])
  }

  /** The custom resource as the API server stores it. */
  datatype EphemeralEnv = EphemeralEnv(
    uid: nat, resourceVersion: nat, namespace: string, created: Time, deleting: bool,
    finalizers: set<string>, spec: Spec, status: Status)

  const FINALIZER := "ephemeral.ephemeralenv.io/finalizer"

  function CalculateExpirationTime(env: EphemeralEnv): Time {
    env.created + GetTtl(env.spec)
  }

  predicate IsExpired(env: EphemeralEnv, now: Time) {
    env.status.expirationTime.Some? && now > env.status.expirationTime.value
  }

  // ---------------------------------------------------------------- cluster objects

  datatype Kind = ServiceAccount | Role | RoleBinding | NetworkPolicy | ReferenceGrant | HTTPRoute

  datatype Key = Key(kind: Kind, namespace: string, name: string)

  /** The part of an object's content that matters here; `Foreign` is anything somebody else wrote. */
  datatype Body =
    | Bare
    | FullAccess
    | BindsDeveloper(subjectNamespace: string)
    | DenyAll
    | GrantFrom(routeNamespace: string)
    | RouteTo(gateway: string, gatewayNamespace: string, host: string, service: string, serviceNamespace: string, port: int)
    | Foreign(content: int)

  datatype Obj = Obj(labels: map<string, string>, body: Body)

  datatype Namespace = Namespace(labels: map<string, string>, terminating: bool)

  datatype Service = Service(name: string, headless: bool, externalName: bool, ports: seq<int>)

  datatype ReleaseKey = ReleaseKey(namespace: string, name: string)

  // ---------------------------------------------------------------- names and labels

  const ENV_PREFIX := "env-"
  const BASE_DOMAIN := "preview.example.com"

  function NsName(x: string): string { ENV_PREFIX + x }
  function RouteName(x: string): string { "route-" + x }
  function AdminRouteName(x: string): string { "admin-route-" + x }
  function GrantName(x: string): string { "grant-" + x }

  predicate EnvPrefixed(n: string) { |n| >= 4 && n[..4] == ENV_PREFIX }

  function OwnerLabels(x: string): map<string, string> {
    map["app.kubernetes.io/managed-by" := "ephemeral-operator", "ephemeral.ephemeralenv.io/owner" := x]
  }

  function AdminLabels(x: string): map<string, string> {
    OwnerLabels(x) + map["ephemeral.ephemeralenv.io/route-type" := "admin"]
  }

  lemma NsNameInjective(x: string, y: string)
    ensures NsName(x) == NsName(y) <==> x == y
  {
    assert NsName(x)[4..] == x && NsName(y)[4..] == y;
  }

  lemma NsNamePrefixed(x: string)
    ensures EnvPrefixed(NsName(x)) && NsName(x) != ""
  {
    assert NsName(x)[..4] == ENV_PREFIX;
  }

  /** No app or admin route name of one environment is a route name of another. */
  lemma RouteNamesDisjoint(x: string, y: string)
    ensures RouteName(x) == RouteName(y) <==> x == y
    ensures AdminRouteName(x) == AdminRouteName(y) <==> x == y
    ensures RouteName(x) != AdminRouteName(y)
  {
    assert RouteName(x)[6..] == x && RouteName(y)[6..] == y;
    assert AdminRouteName(x)[12..] == x && AdminRouteName(y)[12..] == y;
    assert RouteName(x)[0] == 'r' && AdminRouteName(y)[0] == 'a';
  }
}
