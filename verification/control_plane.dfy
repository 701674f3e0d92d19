/** The remote state the deploy script provisions (deploy.py), abstracted
    from the Lambda, API Gateway v1/v2 and IAM-policy services: what exists,
    under which names and ids. Listing calls return these sequences in order,
    so "the first match" is the first element with the wanted name. Every
    mutating request the script issues is recorded as a `Call`. */
module ControlPlane {
  import opened Options
  import opened Seqs

  /** An id the services issue; never empty, so Python's `if not api_id`
      means exactly "nothing found yet". */
  type Id = s: string | s != "" witness "x"

  /** A Lambda function's configuration. */
  datatype LambdaFn = LambdaFn(image: string, role: string, timeout: int, memory: int, arn: string)

  datatype Api = Api(name: string, id: Id)
  datatype ApiKey = ApiKey(name: string, id: Id, value: Id)
  datatype Integration = Integration(uri: string, id: Id)

  /** One statement of a function's resource policy: the principal's
      `Service` and the `AWS:SourceArn` of its `ArnLike` condition. */
  datatype Statement = Statement(service: Option<string>, sourceArn: Option<string>)

  datatype UsagePlan = UsagePlan(
    name: string, id: Id, description: string,
    quotaLimit: nat, quotaPeriod: string, burstLimit: nat, rateLimit: nat,
    apiStages: set<string>, keyIds: set<Id>)

  datatype Plane = Plane(
    functions: map<string, LambdaFn>,
    apis: seq<Api>,
    keys: seq<ApiKey>,
    integrations: map<Id, seq<Integration>>,
    routes: map<Id, set<string>>,
    stages: set<(Id, string)>,
    plans: seq<UsagePlan>,
    policies: map<string, seq<Statement>>)

  /** The mutating requests, whether or not the service accepted them. */
  datatype Call =
    | CreateFunction(functionName: string, image: string, role: string, timeout: int, memory: int)
    | UpdateFunctionCode(functionName: string, image: string)
    | UpdateFunctionConfiguration(functionName: string, timeout: int, memory: int)
    | CreateApi(apiName: string)
    | CreateApiKey(keyName: string, value: Id)
    | CreateIntegration(apiId: Id, uri: string)
    | CreateRoute(apiId: Id, routeKey: string, target: string)
    | AddPermission(functionName: string, sourceArn: string)
    | CreateStage(apiId: Id, stageName: string)
    | CreateUsagePlan(planName: string)
    | AttachStage(planId: Id, apiStage: string)
    | AttachKey(planId: Id, keyId: Id)

  function ApiNamed(name: string): Api -> bool {
    (a: Api) => a.name == name
  }

  function KeyNamed(name: string): ApiKey -> bool {
    (k: ApiKey) => k.name == name
  }

  function IntegrationFor(uri: string): Integration -> bool {
    (i: Integration) => i.uri == uri
  }

  function PlanNamed(name: string): UsagePlan -> bool {
    (u: UsagePlan) => u.name == name
  }

  /** The id of the first API called `name`. */
  function LookupApi(apis: seq<Api>, name: string): (r: Option<Id>)
    ensures r.None? <==> forall k :: 0 <= k < |apis| ==> apis[k].name != name
    ensures r.Some? ==> exists k :: FirstAt(apis, ApiNamed(name), k) && apis[k].id == r.value
  {
    match FirstIndex(apis, ApiNamed(name))
    case Some(k) => Some(apis[k].id)
    case None => None
  }

  /** The id of the first API key called `name`. */
  function LookupKey(keys: seq<ApiKey>, name: string): (r: Option<Id>)
    ensures r.None? <==> forall k :: 0 <= k < |keys| ==> keys[k].name != name
    ensures r.Some? ==> exists k :: FirstAt(keys, KeyNamed(name), k) && keys[k].id == r.value
  {
    match FirstIndex(keys, KeyNamed(name))
    case Some(k) => Some(keys[k].id)
    case None => None
  }

  /** The id of the first integration of an API that targets `uri`. */
  function LookupIntegration(ints: seq<Integration>, uri: string): (r: Option<Id>)
    ensures r.None? <==> forall k :: 0 <= k < |ints| ==> ints[k].uri != uri
    ensures r.Some? ==> exists k :: FirstAt(ints, IntegrationFor(uri), k) && ints[k].id == r.value
  {
    match FirstIndex(ints, IntegrationFor(uri))
    case Some(k) => Some(ints[k].id)
    case None => None
  }

  /** Position of the first usage plan called `name`. */
  function LookupPlan(plans: seq<UsagePlan>, name: string): (r: Option<nat>)
    ensures r.None? <==> forall k :: 0 <= k < |plans| ==> plans[k].name != name
    ensures r.Some? ==> FirstAt(plans, PlanNamed(name), r.value)
  {
    FirstIndex(plans, PlanNamed(name))
  }

  function IntegrationsOf(p: Plane, apiId: Id): seq<Integration> {
    if apiId in p.integrations then p.integrations[apiId] else []
  }

  function RoutesOf(p: Plane, apiId: Id): set<string> {
    if apiId in p.routes then p.routes[apiId] else {}
  }

  function PolicyOf(p: Plane, functionName: string): seq<Statement> {
    if functionName in p.policies then p.policies[functionName] else []
  }

  /** Appending a differently named API keeps every lookup. */
  lemma LookupApiAppend(apis: seq<Api>, a: Api, name: string)
    ensures LookupApi(apis + [a], name) ==
              if LookupApi(apis, name).Some? then LookupApi(apis, name)
              else if a.name == name then Some(a.id) else None
  {
    FirstIndexAppend(apis, a, ApiNamed(name));
  }

  lemma LookupKeyAppend(keys: seq<ApiKey>, k: ApiKey, name: string)
    ensures LookupKey(keys + [k], name) ==
              if LookupKey(keys, name).Some? then LookupKey(keys, name)
              else if k.name == name then Some(k.id) else None
  {
    FirstIndexAppend(keys, k, KeyNamed(name));
  }

  lemma LookupIntegrationAppend(ints: seq<Integration>, i: Integration, uri: string)
    ensures LookupIntegration(ints + [i], uri) ==
              if LookupIntegration(ints, uri).Some? then LookupIntegration(ints, uri)
              else if i.uri == uri then Some(i.id) else None
  {
    FirstIndexAppend(ints, i, IntegrationFor(uri));
  }

  lemma LookupPlanAppend(plans: seq<UsagePlan>, u: UsagePlan, name: string)
    ensures LookupPlan(plans + [u], name) ==
              if LookupPlan(plans, name).Some? then LookupPlan(plans, name)
              else if u.name == name then Some(|plans|) else None
  {
    FirstIndexAppend(plans, u, PlanNamed(name));
  }

  /** Changing a plan's associations keeps its position in the lookup. */
  lemma LookupPlanUpdate(plans: seq<UsagePlan>, k: nat, u: UsagePlan, name: string)
    requires k < |plans| && u.name == plans[k].name
    ensures LookupPlan(plans[k := u], name) == LookupPlan(plans, name)
  {
    FirstIndexSame(plans, plans[k := u], PlanNamed(name));
  }
}
