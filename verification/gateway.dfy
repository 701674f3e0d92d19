/** `deploy_api_gateway` (deploy.py:224-517): seven find-or-create steps
    against the control plane, each either reusing what a listing shows or
    creating it. Which remote calls fail, and the ids and key value the
    services hand out, come from a `GatewayOracle`; the script's printed
    URL and key value are returned as a `Report`. */
module Gateway {
  import opened Options
  import opened Text
  import opened Seqs
  import opened ControlPlane

  datatype GatewayConfig = GatewayConfig(
    functionName: string, functionArn: string, region: string,
    apiName: Option<string>, stageName: string)

  /** How reading the function's resource policy goes: as stored, as an
      unparsable document or one missing its `Policy` (handled like "no
      permission yet"), or failing otherwise (fatal). */
  datatype PolicyRead = PolicyAsStored | PolicyUnparsable | PolicyReadFails

  datatype GatewayOracle = GatewayOracle(
    listApisFails: bool, createApiFails: bool, newApiId: Id,
    listKeysFails: bool, createKeyFails: bool, newKeyId: Id, newKeyValue: Id,
    listIntegrationsFails: bool, createIntegrationFails: bool, newIntegrationId: Id,
    listRoutesFails: nat -> bool, createRouteFails: nat -> bool,
    accountId: Option<string>, policyRead: PolicyRead, addPermissionFails: bool,
    getStageFails: bool, createStageFails: bool,
    listPlansFails: bool, createPlanFails: bool, newPlanId: Id,
    attachStageFails: bool, attachKeyFails: bool)

  /** A history in which no remote call fails. */
  predicate Faultless(o: GatewayOracle) {
    && !o.listApisFails && !o.createApiFails
    && !o.listKeysFails && !o.createKeyFails
    && !o.listIntegrationsFails && !o.createIntegrationFails
    && (forall i: nat | i < |RouteKeys| :: !o.listRoutesFails(i) && !o.createRouteFails(i))
    && o.accountId.Some? && o.policyRead == PolicyAsStored && !o.addPermissionFails
    && !o.getStageFails && !o.createStageFails
    && !o.listPlansFails && !o.createPlanFails
    && !o.attachStageFails && !o.attachKeyFails
  }

  /** The outcome of one step: the plane afterwards, the requests issued, and
      the step's value; or a failure the script answers with `return False`. */
  datatype Step<T> = Done(plane: Plane, calls: seq<Call>, value: T) | Fatal(calls: seq<Call>)

  // ---------------------------------------------------------------------------
  // Names

  /** `api_name`, defaulting to `"{function_name}-api"` only when none was
      given. */
  function ApiNameOf(cfg: GatewayConfig): (name: string)
    ensures cfg.apiName.Some? ==> name == cfg.apiName.value
    ensures cfg.apiName.None? ==> name == cfg.functionName + "-api"
  {
    match cfg.apiName
    case Some(n) => n
    case None => cfg.functionName + "-api"
  }

  function KeyName(apiName: string): string {
    apiName + "-key"
  }

  function PlanName(apiName: string): string {
    apiName + "-usage-plan"
  }

  const InvokePrincipal := "apigateway.amazonaws.com"

  /** The `SourceArn` the permission grants. */
  function SourceArn(region: string, accountId: string, apiId: Id): string {
    "arn:aws:execute-api:" + region + ":" + accountId + ":" + apiId + "/*/*"
  }

  /** The printed API URL. */
  function EndpointUrl(apiId: Id, region: string, stageName: string): string {
    "https://" + apiId + ".execute-api." + region + ".amazonaws.com/" + stageName
  }

  /** `"{api_id}:{stage_name}"`, the usage plan's API stage. */
  function ApiStage(apiId: Id, stageName: string): string {
    apiId + ":" + stageName
  }

  /** The four route keys, in order. */
  const RouteKeys: seq<string> := ["GET /", "GET /docs", "GET /{proxy+}", "POST /{proxy+}"]

  const QuotaLimit: nat := 1000
  const QuotaPeriod := "MONTH"
  const BurstLimit: nat := 10
  const RateLimit: nat := 5

  // ---------------------------------------------------------------------------
  // Step 1: the API

  /** A failed listing is only logged and leads to a create; creation failing
      is fatal. */
  function EnsureApi(p: Plane, name: string, o: GatewayOracle): (r: Step<Id>)
    ensures var found := if o.listApisFails then None else LookupApi(p.apis, name);
            && (found.Some? ==> r == Done(p, [], found.value))
            && (found.None? ==> r.calls == [CreateApi(name)])
            && (found.None? && !o.createApiFails ==>
                  r == Done(p.(apis := p.apis + [Api(name, o.newApiId)]), [CreateApi(name)], o.newApiId))
            && (r.Fatal? <==> found.None? && o.createApiFails)
  {
    var found := if o.listApisFails then None else LookupApi(p.apis, name);
    match found
    case Some(id) => Done(p, [], id)
    case None =>
      if o.createApiFails then Fatal([CreateApi(name)])
      else Done(p.(apis := p.apis + [Api(name, o.newApiId)]), [CreateApi(name)], o.newApiId)
  }

  // ---------------------------------------------------------------------------
  // Step 2: the API key

  /** The key's id and, when this step created it, its value. Any failure,
      listing included, is fatal. */
  function EnsureApiKey(p: Plane, keyName: string, o: GatewayOracle): (r: Step<(Id, Option<Id>)>)
    ensures o.listKeysFails ==> r == Fatal([])
    ensures !o.listKeysFails && LookupKey(p.keys, keyName).Some? ==>
              r == Done(p, [], (LookupKey(p.keys, keyName).value, None))
    ensures !o.listKeysFails && LookupKey(p.keys, keyName).None? ==>
              && r.calls == [CreateApiKey(keyName, o.newKeyValue)]
              && (r.Fatal? <==> o.createKeyFails)
              && (r.Done? ==>
                    r.plane == p.(keys := p.keys + [ApiKey(keyName, o.newKeyId, o.newKeyValue)])
                    && r.value == (o.newKeyId, Some(o.newKeyValue)))
  {
    if o.listKeysFails then Fatal([])
    else match LookupKey(p.keys, keyName)
      case Some(id) => Done(p, [], (id, None))
      case None =>
        var call := CreateApiKey(keyName, o.newKeyValue);
        if o.createKeyFails then Fatal([call])
        else Done(p.(keys := p.keys + [ApiKey(keyName, o.newKeyId, o.newKeyValue)]), [call], (o.newKeyId, Some(o.newKeyValue)))
  }

  // ---------------------------------------------------------------------------
  // Step 3: the Lambda integration

  function EnsureIntegration(p: Plane, apiId: Id, arn: string, o: GatewayOracle): (r: Step<Id>)
    ensures o.listIntegrationsFails ==> r == Fatal([])
    ensures !o.listIntegrationsFails && LookupIntegration(IntegrationsOf(p, apiId), arn).Some? ==>
              r == Done(p, [], LookupIntegration(IntegrationsOf(p, apiId), arn).value)
    ensures !o.listIntegrationsFails && LookupIntegration(IntegrationsOf(p, apiId), arn).None? ==>
              && r.calls == [CreateIntegration(apiId, arn)]
              && (r.Fatal? <==> o.createIntegrationFails)
              && (r.Done? ==>
                    r.value == o.newIntegrationId
                    && r.plane == p.(integrations := p.integrations[apiId := IntegrationsOf(p, apiId) + [Integration(arn, o.newIntegrationId)]]))
  {
    if o.listIntegrationsFails then Fatal([])
    else match LookupIntegration(IntegrationsOf(p, apiId), arn)
      case Some(id) => Done(p, [], id)
      case None =>
        var call := CreateIntegration(apiId, arn);
        if o.createIntegrationFails then Fatal([call])
        else
          var added := IntegrationsOf(p, apiId) + [Integration(arn, o.newIntegrationId)];
          Done(p.(integrations := p.integrations[apiId := added]), [call], o.newIntegrationId)
  }

  // ---------------------------------------------------------------------------
  // Step 4: the routes

  /** Whether the route listing for the `i`-th route key shows it. */
  predicate RouteSeen(p: Plane, apiId: Id, key: string, i: nat, o: GatewayOracle) {
    !o.listRoutesFails(i) && key in RoutesOf(p, apiId)
  }

  /** Whether the create request for the `i`-th route key takes effect; the
      service refuses a key the API already has. */
  predicate RouteCreated(p: Plane, apiId: Id, key: string, i: nat, o: GatewayOracle) {
    !RouteSeen(p, apiId, key, i, o) && !o.createRouteFails(i) && key !in RoutesOf(p, apiId)
  }

  // The route keys are distinct, so whether one of them is already present
  // does not depend on the routes created earlier in the same loop.

  /** The requests for the route keys `keys`, the first of which is the
      `from`-th of the loop. Every failure is logged and the loop goes on. */
  function RouteCalls(p: Plane, apiId: Id, target: string, keys: seq<string>, from: nat, o: GatewayOracle): seq<Call>
  {
    if keys == [] then []
    else
      (if RouteSeen(p, apiId, keys[0], from, o) then [] else [CreateRoute(apiId, keys[0], target)])
      + RouteCalls(p, apiId, target, keys[1..], from + 1, o)
  }

  /** The route keys of `keys` that the loop adds. */
  function AddedRoutes(p: Plane, apiId: Id, keys: seq<string>, from: nat, o: GatewayOracle): (added: set<string>)
    ensures forall k :: k in added ==> k !in RoutesOf(p, apiId)
    ensures forall j :: 0 <= j < |keys| && RouteCreated(p, apiId, keys[j], from + j, o) ==> keys[j] in added
    ensures forall k :: k in added ==> exists j :: 0 <= j < |keys| && keys[j] == k && RouteCreated(p, apiId, k, from + j, o)
  {
    if keys == [] then {}
    else
      var rest := AddedRoutes(p, apiId, keys[1..], from + 1, o);
      assert forall j :: 1 <= j < |keys| ==> keys[j] == keys[1..][j - 1];
      if RouteCreated(p, apiId, keys[0], from, o) then {keys[0]} + rest else rest
  }

  /** Step 4: the API's routes afterwards. */
  function EnsureRoutes(p: Plane, apiId: Id, integrationId: Id, o: GatewayOracle): (r: (Plane, seq<Call>))
    ensures r.0 == p.(routes := p.routes[apiId := RoutesOf(p, apiId) + AddedRoutes(p, apiId, RouteKeys, 0, o)])
    ensures r.1 == RouteCalls(p, apiId, "integrations/" + integrationId, RouteKeys, 0, o)
  {
    var added := AddedRoutes(p, apiId, RouteKeys, 0, o);
    (p.(routes := p.routes[apiId := RoutesOf(p, apiId) + added]),
     RouteCalls(p, apiId, "integrations/" + integrationId, RouteKeys, 0, o))
  }

  /** A create request is issued for exactly the route keys the listing did
      not show, and only for those. */
  lemma {:induction false} RouteCallsForUnseen(p: Plane, apiId: Id, target: string, keys: seq<string>, from: nat, o: GatewayOracle)
    ensures forall c :: c in RouteCalls(p, apiId, target, keys, from, o) ==>
              c.CreateRoute? && c.apiId == apiId && c.target == target
              && exists j :: 0 <= j < |keys| && keys[j] == c.routeKey && !RouteSeen(p, apiId, keys[j], from + j, o)
    ensures forall j :: 0 <= j < |keys| && !RouteSeen(p, apiId, keys[j], from + j, o) ==>
              CreateRoute(apiId, keys[j], target) in RouteCalls(p, apiId, target, keys, from, o)
  {
    if keys != [] {
      RouteCallsForUnseen(p, apiId, target, keys[1..], from + 1, o);
      assert forall j :: 1 <= j < |keys| ==> keys[j] == keys[1..][j - 1];
      var head := if RouteSeen(p, apiId, keys[0], from, o) then [] else [CreateRoute(apiId, keys[0], target)];
      assert RouteCalls(p, apiId, target, keys, from, o) == head + RouteCalls(p, apiId, target, keys[1..], from + 1, o);
      forall c | c in RouteCalls(p, apiId, target, keys, from, o)
        ensures c.CreateRoute? && c.apiId == apiId && c.target == target
        ensures exists j :: 0 <= j < |keys| && keys[j] == c.routeKey && !RouteSeen(p, apiId, keys[j], from + j, o)
      {
        if c in head {
          assert keys[0] == c.routeKey && !RouteSeen(p, apiId, keys[0], from + 0, o);
        } else {
          var j :| 0 <= j < |keys[1..]| && keys[1..][j] == c.routeKey && !RouteSeen(p, apiId, keys[1..][j], from + 1 + j, o);
          assert keys[j + 1] == c.routeKey && !RouteSeen(p, apiId, keys[j + 1], from + (j + 1), o);
        }
      }
    }
  }

  /** Existing routes are never removed, and no other API's routes change. */
  lemma RoutesOnlyGrow(p: Plane, apiId: Id, integrationId: Id, o: GatewayOracle)
    ensures var q := EnsureRoutes(p, apiId, integrationId, o).0;
            && q.(routes := p.routes) == p
            && (forall a :: RoutesOf(p, a) <= RoutesOf(q, a))
            && (forall a :: a != apiId ==> RoutesOf(q, a) == RoutesOf(p, a))
  {
  }

  /** With no route request failing, the API ends up with all four keys. */
  lemma {:induction false} FaultlessRoutes(p: Plane, apiId: Id, integrationId: Id, o: GatewayOracle)
    requires forall i: nat | i < |RouteKeys| :: !o.listRoutesFails(i) && !o.createRouteFails(i)
    ensures RoutesOf(EnsureRoutes(p, apiId, integrationId, o).0, apiId) == RoutesOf(p, apiId) + set k | k in RouteKeys
  {
    var added := AddedRoutes(p, apiId, RouteKeys, 0, o);
    forall k | k in RouteKeys && k !in RoutesOf(p, apiId)
      ensures k in added
    {
      var j :| 0 <= j < |RouteKeys| && RouteKeys[j] == k;
      assert RouteCreated(p, apiId, RouteKeys[j], 0 + j, o);
    }
  }

  /** A failure on one route key does not stop the others: keys whose own
      requests succeed are added whatever happened to the rest. */
  lemma RouteFailuresIsolated(p: Plane, apiId: Id, integrationId: Id, o: GatewayOracle, j: nat)
    requires j < |RouteKeys| && !o.listRoutesFails(j) && !o.createRouteFails(j)
    ensures RouteKeys[j] in RoutesOf(EnsureRoutes(p, apiId, integrationId, o).0, apiId)
  {
    if RouteKeys[j] !in RoutesOf(p, apiId) {
      assert RouteCreated(p, apiId, RouteKeys[j], 0 + j, o);
    }
  }

  // ---------------------------------------------------------------------------
  // Step 5: the invoke permission

  /** A policy statement that already lets API Gateway invoke the function
      for this API. */
  predicate GrantsApi(st: Statement, apiId: Id) {
    st.service == Some(InvokePrincipal) && st.sourceArn.Some? && Contains(st.sourceArn.value, ":" + apiId + "/")
  }

  function Grants(apiId: Id): Statement -> bool {
    (st: Statement) => GrantsApi(st, apiId)
  }

  /** Whether the policy check finds an existing grant. */
  predicate PermissionFound(p: Plane, functionName: string, apiId: Id, o: GatewayOracle) {
    o.policyRead == PolicyAsStored && FirstIndex(PolicyOf(p, functionName), Grants(apiId)).Some?
  }

  /** Whether `get_policy` returns a policy that parses: the function has a
      policy and it reads as stored. Without a policy, `get_policy` raises
      `ResourceNotFoundException`. */
  predicate PolicyShown(p: Plane, functionName: string, o: GatewayOracle) {
    o.policyRead == PolicyAsStored && functionName in p.policies
  }

  /** Step 5 as the script is written. The account id comes first; an
      unexpected policy-read failure and a refused `add_permission` are
      fatal. A missing or unparsable policy leads to `add_permission`. A
      policy that parses but grants nothing for this API is fatal too: the
      script then builds the client's `ResourceNotFoundException` from a
      message alone, and since botocore's error classes are constructed
      from an error response and an operation name, that raises `TypeError`
      instead, which the inner handler does not catch and the
      outer one answers with `return False`. */
  function EnsurePermission(p: Plane, functionName: string, region: string, apiId: Id, o: GatewayOracle): (r: Step<()>)
    ensures o.accountId.None? || o.policyRead == PolicyReadFails ==> r == Fatal([])
    ensures PolicyShown(p, functionName, o) && !PermissionFound(p, functionName, apiId, o) ==> r == Fatal([])
    ensures o.accountId.Some? && o.policyRead != PolicyReadFails ==>
              var arn := SourceArn(region, o.accountId.value, apiId);
              && (PermissionFound(p, functionName, apiId, o) ==> r == Done(p, [], ()))
              && (!PolicyShown(p, functionName, o) ==>
                    && r.calls == [AddPermission(functionName, arn)]
                    && (r.Fatal? <==> o.addPermissionFails)
                    && (r.Done? ==> r.plane == p.(policies := p.policies[functionName :=
                          PolicyOf(p, functionName) + [Statement(Some(InvokePrincipal), Some(arn))]])))
  {
    match o.accountId
    case None => Fatal([])
    case Some(account) =>
      if o.policyRead == PolicyReadFails then Fatal([])
      else if PermissionFound(p, functionName, apiId, o) then Done(p, [], ())
      else if PolicyShown(p, functionName, o) then Fatal([])
      else AddInvokePermission(p, functionName, region, account, apiId, o)
  }

  /** Step 5 as evidently intended: the `raise` is meant to reach the
      handler that adds the permission, so a readable policy without a
      grant is handled like a missing one. */
  function EnsurePermissionIntended(p: Plane, functionName: string, region: string, apiId: Id, o: GatewayOracle): (r: Step<()>)
    ensures o.accountId.None? || o.policyRead == PolicyReadFails ==> r == Fatal([])
    ensures o.accountId.Some? && o.policyRead != PolicyReadFails ==>
              var arn := SourceArn(region, o.accountId.value, apiId);
              && (PermissionFound(p, functionName, apiId, o) ==> r == Done(p, [], ()))
              && (!PermissionFound(p, functionName, apiId, o) ==>
                    && r.calls == [AddPermission(functionName, arn)]
                    && (r.Fatal? <==> o.addPermissionFails)
                    && (r.Done? ==> r.plane == p.(policies := p.policies[functionName :=
                          PolicyOf(p, functionName) + [Statement(Some(InvokePrincipal), Some(arn))]])))
  {
    match o.accountId
    case None => Fatal([])
    case Some(account) =>
      if o.policyRead == PolicyReadFails then Fatal([])
      else if PermissionFound(p, functionName, apiId, o) then Done(p, [], ())
      else AddInvokePermission(p, functionName, region, account, apiId, o)
  }

  /** `add_permission` for API Gateway with this API's source ARN. */
  function AddInvokePermission(p: Plane, functionName: string, region: string, account: string, apiId: Id,
                               o: GatewayOracle): Step<()>
  {
    var arn := SourceArn(region, account, apiId);
    var call := AddPermission(functionName, arn);
    if o.addPermissionFails then Fatal([call])
    else
      var st := Statement(Some(InvokePrincipal), Some(arn));
      Done(p.(policies := p.policies[functionName := PolicyOf(p, functionName) + [st]]), [call], ())
  }

  /** The two agree except on a readable policy without a grant for this
      API, where the script as written fails and the intended step adds the
      permission. */
  lemma PermissionDiverges(p: Plane, functionName: string, region: string, apiId: Id, o: GatewayOracle)
    ensures !(PolicyShown(p, functionName, o) && !PermissionFound(p, functionName, apiId, o)) ==>
              EnsurePermission(p, functionName, region, apiId, o) == EnsurePermissionIntended(p, functionName, region, apiId, o)
    ensures o.accountId.Some? && !o.addPermissionFails
            && PolicyShown(p, functionName, o) && !PermissionFound(p, functionName, apiId, o) ==>
              && EnsurePermission(p, functionName, region, apiId, o) == Fatal([])
              && EnsurePermissionIntended(p, functionName, region, apiId, o).Done?
  {
  }

  /** A function whose policy only lets EventBridge invoke it: the script as
      written fails step 5, the intended step adds the permission. */
  lemma ForeignPolicyExample(p: Plane, functionName: string, region: string, apiId: Id, o: GatewayOracle)
    requires p.policies == map[functionName := [Statement(Some("events.amazonaws.com"), None)]]
    requires o.accountId == Some("123456789012") && o.policyRead == PolicyAsStored && !o.addPermissionFails
    ensures EnsurePermission(p, functionName, region, apiId, o) == Fatal([])
    ensures EnsurePermissionIntended(p, functionName, region, apiId, o).Done?
  {
    var policy := [Statement(Some("events.amazonaws.com"), None)];
    assert !GrantsApi(policy[0], apiId) by {
      assert "events.amazonaws.com"[0] == 'e';
    }
    assert FirstIndex(policy, Grants(apiId)).None?;
  }

  /** After a faultless intended step 5 the policy grants the API, whatever
      the policy held before. */
  lemma IntendedPermissionProvisions(p: Plane, cfg: GatewayConfig, o: GatewayOracle, apiId: Id)
    requires Faultless(o)
    ensures var r := EnsurePermissionIntended(p, cfg.functionName, cfg.region, apiId, o);
            r.Done? && FirstIndex(PolicyOf(r.plane, cfg.functionName), Grants(apiId)).Some?
  {
    if !PermissionFound(p, cfg.functionName, apiId, o) {
      var st := Statement(Some(InvokePrincipal), Some(SourceArn(cfg.region, o.accountId.value, apiId)));
      AddedStatementGrants(cfg.region, o.accountId.value, apiId);
      FirstIndexAppend(PolicyOf(p, cfg.functionName), st, Grants(apiId));
    }
  }

  /** The statement the step adds is one the next check recognises. */
  lemma AddedStatementGrants(region: string, accountId: string, apiId: Id)
    ensures GrantsApi(Statement(Some(InvokePrincipal), Some(SourceArn(region, accountId, apiId))), apiId)
  {
    var pre := "arn:aws:execute-api:" + region + ":" + accountId;
    assert SourceArn(region, accountId, apiId) == pre + (":" + apiId + "/") + "*/*";
    ContainsMiddle(pre, ":" + apiId + "/", "*/*");
  }

  // ---------------------------------------------------------------------------
  // Step 6: the stage

  /** `get_stage` raising anything but NotFound, or `create_stage` failing,
      is fatal. */
  function EnsureStage(p: Plane, apiId: Id, stageName: string, o: GatewayOracle): (r: Step<()>)
    ensures o.getStageFails ==> r == Fatal([])
    ensures !o.getStageFails && (apiId, stageName) in p.stages ==> r == Done(p, [], ())
    ensures !o.getStageFails && (apiId, stageName) !in p.stages ==>
              && r.calls == [CreateStage(apiId, stageName)]
              && (r.Fatal? <==> o.createStageFails)
              && (r.Done? ==> r.plane == p.(stages := p.stages + {(apiId, stageName)}))
  {
    if o.getStageFails then Fatal([])
    else if (apiId, stageName) in p.stages then Done(p, [], ())
    else if o.createStageFails then Fatal([CreateStage(apiId, stageName)])
    else Done(p.(stages := p.stages + {(apiId, stageName)}), [CreateStage(apiId, stageName)], ())
  }

  // ---------------------------------------------------------------------------
  // Step 7: the usage plan

  /** A newly created usage plan: 1000 requests a month, burst 10, rate 5. */
  function NewPlan(apiName: string, id: Id): (u: UsagePlan)
    ensures u.name == PlanName(apiName) && u.id == id
    ensures u.quotaLimit == 1000 && u.quotaPeriod == "MONTH" && u.burstLimit == 10 && u.rateLimit == 5
    ensures u.apiStages == {} && u.keyIds == {}
  {
    UsagePlan(PlanName(apiName), id, "Usage plan for " + apiName,
              QuotaLimit, QuotaPeriod, BurstLimit, RateLimit, {}, {})
  }

  /** Attaching the stage and the key to the plan at position `k`; failures
      are only logged, and an already attached key is a conflict that is
      reported as such. */
  function AttachPlan(p: Plane, k: nat, apiStage: string, keyId: Id, o: GatewayOracle): (q: Plane)
    requires k < |p.plans|
    ensures |q.plans| == |p.plans| && q == p.(plans := q.plans)
    ensures q.plans[k].(apiStages := p.plans[k].apiStages, keyIds := p.plans[k].keyIds) == p.plans[k]
    ensures forall j :: 0 <= j < |p.plans| && j != k ==> q.plans[j] == p.plans[j]
    ensures q.plans[k].apiStages == p.plans[k].apiStages + (if o.attachStageFails then {} else {apiStage})
    ensures q.plans[k].keyIds == p.plans[k].keyIds + (if o.attachKeyFails then {} else {keyId})
  {
    var u := p.plans[k];
    var stages := if o.attachStageFails then u.apiStages else u.apiStages + {apiStage};
    var keys := if keyId in u.keyIds || o.attachKeyFails then u.keyIds else u.keyIds + {keyId};
    p.(plans := p.plans[k := u.(apiStages := stages, keyIds := keys)])
  }

  /** A failed listing is only logged and leads to a create; creating the
      plan failing is fatal; the associations never are. */
  function EnsureUsagePlan(p: Plane, apiName: string, apiId: Id, stageName: string, keyId: Id, o: GatewayOracle): (r: Step<Id>)
    ensures var found := if o.listPlansFails then None else LookupPlan(p.plans, PlanName(apiName));
            && (r.Fatal? <==> found.None? && o.createPlanFails)
            && (found.Some? ==> r.Done? && r.value == p.plans[found.value].id
                                && r.plane == AttachPlan(p, found.value, ApiStage(apiId, stageName), keyId, o))
            && (found.None? && !o.createPlanFails ==>
                  var q := p.(plans := p.plans + [NewPlan(apiName, o.newPlanId)]);
                  r.Done? && r.value == o.newPlanId
                  && r.plane == AttachPlan(q, |p.plans|, ApiStage(apiId, stageName), keyId, o))
  {
    var found := if o.listPlansFails then None else LookupPlan(p.plans, PlanName(apiName));
    match found
    case Some(k) =>
      var id := p.plans[k].id;
      Done(AttachPlan(p, k, ApiStage(apiId, stageName), keyId, o),
           [AttachStage(id, ApiStage(apiId, stageName)), AttachKey(id, keyId)], id)
    case None =>
      if o.createPlanFails then Fatal([CreateUsagePlan(PlanName(apiName))])
      else
        var q := p.(plans := p.plans + [NewPlan(apiName, o.newPlanId)]);
        Done(AttachPlan(q, |p.plans|, ApiStage(apiId, stageName), keyId, o),
             [CreateUsagePlan(PlanName(apiName)), AttachStage(o.newPlanId, ApiStage(apiId, stageName)), AttachKey(o.newPlanId, keyId)],
             o.newPlanId)
  }

  // ---------------------------------------------------------------------------
  // The whole deployment

  /** What the script prints on success: the URL, and the key value only
      when the key was created in this run. */
  datatype Report = Report(url: string, keyValue: Option<Id>)

  /** The result (`True` or `False`), the plane afterwards, the requests
      issued, and the report when the run succeeded. */
  datatype GatewayRun = GatewayRun(ok: bool, plane: Plane, calls: seq<Call>, report: Option<Report>)

  function Failed(p: Plane, calls: seq<Call>): GatewayRun {
    GatewayRun(false, p, calls, None)
  }

  /** The plan position the usage-plan listing shows, if any. */
  function FoundPlan(p: Plane, apiName: string, o: GatewayOracle): Option<nat> {
    if o.listPlansFails then None else LookupPlan(p.plans, PlanName(apiName))
  }

  /** Steps 5 to 7 succeed exactly when none of their fatal faults happens. */
  predicate FinishSucceeds(p: Plane, cfg: GatewayConfig, o: GatewayOracle, apiId: Id) {
    && o.accountId.Some? && o.policyRead != PolicyReadFails
    && (PermissionFound(p, cfg.functionName, apiId, o)
        || (!PolicyShown(p, cfg.functionName, o) && !o.addPermissionFails))
    && !o.getStageFails && ((apiId, cfg.stageName) in p.stages || !o.createStageFails)
    && (FoundPlan(p, ApiNameOf(cfg), o).Some? || !o.createPlanFails)
  }

  /** Steps 5 to 7: permission, stage, usage plan, then the report. */
  function Finish(p: Plane, cfg: GatewayConfig, o: GatewayOracle, apiId: Id,
                  keyId: Id, keyValue: Option<Id>, calls: seq<Call>): (r: GatewayRun)
    ensures r.ok <==> FinishSucceeds(p, cfg, o, apiId)
    ensures r.ok <==> r.report.Some?
    ensures r.ok ==> r.report.value == Report(EndpointUrl(apiId, cfg.region, cfg.stageName), keyValue)
    ensures && r.plane.functions == p.functions && r.plane.apis == p.apis && r.plane.keys == p.keys
            && r.plane.integrations == p.integrations && r.plane.routes == p.routes
  {
    match EnsurePermission(p, cfg.functionName, cfg.region, apiId, o)
    case Fatal(c) => Failed(p, calls + c)
    case Done(p5, c5, _) =>
      assert FoundPlan(p5, ApiNameOf(cfg), o) == FoundPlan(p, ApiNameOf(cfg), o);
      StageAndPlan(p5, cfg, o, apiId, keyId, keyValue, calls + c5)
  }

  /** Steps 6 and 7, then the report. */
  function StageAndPlan(p: Plane, cfg: GatewayConfig, o: GatewayOracle, apiId: Id,
                        keyId: Id, keyValue: Option<Id>, calls: seq<Call>): (r: GatewayRun)
    ensures r.ok <==> && !o.getStageFails && ((apiId, cfg.stageName) in p.stages || !o.createStageFails)
                      && (FoundPlan(p, ApiNameOf(cfg), o).Some? || !o.createPlanFails)
    ensures r.ok <==> r.report.Some?
    ensures r.ok ==> r.report.value == Report(EndpointUrl(apiId, cfg.region, cfg.stageName), keyValue)
    ensures && r.plane.functions == p.functions && r.plane.apis == p.apis && r.plane.keys == p.keys
            && r.plane.integrations == p.integrations && r.plane.routes == p.routes
            && r.plane.policies == p.policies
  {
    match EnsureStage(p, apiId, cfg.stageName, o)
    case Fatal(c) => Failed(p, calls + c)
    case Done(p6, c6, _) =>
      assert FoundPlan(p6, ApiNameOf(cfg), o) == FoundPlan(p, ApiNameOf(cfg), o);
      match EnsureUsagePlan(p6, ApiNameOf(cfg), apiId, cfg.stageName, keyId, o)
      case Fatal(c) => Failed(p6, calls + c6 + c)
      case Done(p7, c7, _) =>
        GatewayRun(true, p7, calls + c6 + c7,
                   Some(Report(EndpointUrl(apiId, cfg.region, cfg.stageName), keyValue)))
  }

  /** Whether steps 3 to 7 succeed, from the plane after step 2. */
  predicate AfterKeySucceeds(p: Plane, cfg: GatewayConfig, o: GatewayOracle, apiId: Id) {
    && !o.listIntegrationsFails
    && (LookupIntegration(IntegrationsOf(p, apiId), cfg.functionArn).Some? || !o.createIntegrationFails)
    && FinishSucceeds(p, cfg, o, apiId)
  }

  /** Steps 3 and 4, then the rest. */
  function AfterKey(p: Plane, cfg: GatewayConfig, o: GatewayOracle, apiId: Id,
                    keyId: Id, keyValue: Option<Id>, calls: seq<Call>): (r: GatewayRun)
    ensures r.ok <==> AfterKeySucceeds(p, cfg, o, apiId)
    ensures r.ok <==> r.report.Some?
    ensures r.ok ==> r.report.value == Report(EndpointUrl(apiId, cfg.region, cfg.stageName), keyValue)
    ensures r.plane.functions == p.functions && r.plane.apis == p.apis && r.plane.keys == p.keys
  {
    match EnsureIntegration(p, apiId, cfg.functionArn, o)
    case Fatal(c) => Failed(p, calls + c)
    case Done(p3, c3, integrationId) =>
      var (p4, c4) := EnsureRoutes(p3, apiId, integrationId, o);
      assert p4.policies == p.policies && p4.stages == p.stages && p4.plans == p.plans;
      assert FoundPlan(p4, ApiNameOf(cfg), o) == FoundPlan(p, ApiNameOf(cfg), o);
      Finish(p4, cfg, o, apiId, keyId, keyValue, calls + c3 + c4)
  }

  /** Whether steps 2 to 7 succeed, from the plane after step 1. */
  predicate AfterApiSucceeds(p: Plane, cfg: GatewayConfig, o: GatewayOracle, apiId: Id) {
    && !o.listKeysFails && (LookupKey(p.keys, KeyName(ApiNameOf(cfg))).Some? || !o.createKeyFails)
    && AfterKeySucceeds(p, cfg, o, apiId)
  }

  /** Step 2, then the rest. */
  function AfterApi(p: Plane, cfg: GatewayConfig, o: GatewayOracle, apiId: Id, calls: seq<Call>): (r: GatewayRun)
    ensures r.ok <==> AfterApiSucceeds(p, cfg, o, apiId)
    ensures r.ok <==> r.report.Some?
    ensures r.ok ==> r.report.value.url == EndpointUrl(apiId, cfg.region, cfg.stageName)
    ensures r.ok ==> (r.report.value.keyValue.Some? <==> LookupKey(p.keys, KeyName(ApiNameOf(cfg))).None?)
    ensures r.plane.functions == p.functions && r.plane.apis == p.apis
  {
    match EnsureApiKey(p, KeyName(ApiNameOf(cfg)), o)
    case Fatal(c) => Failed(p, calls + c)
    case Done(p2, c2, key) =>
      assert IntegrationsOf(p2, apiId) == IntegrationsOf(p, apiId);
      assert FoundPlan(p2, ApiNameOf(cfg), o) == FoundPlan(p, ApiNameOf(cfg), o);
      AfterKey(p2, cfg, o, apiId, key.0, key.1, calls + c2)
  }

  /** The API id step 1 settles on: the first match the listing shows, or the
      new one. */
  function ChosenApi(p: Plane, cfg: GatewayConfig, o: GatewayOracle): Id {
    var found := if o.listApisFails then None else LookupApi(p.apis, ApiNameOf(cfg));
    found.GetOr(o.newApiId)
  }

  /** The whole run succeeds exactly when none of the fatal faults happens:
      creating the API (needed when no API is found), reading or creating the
      key, reading or creating the integration, and the faults of steps 5-7.
      Route failures and the two usage-plan associations do not appear. */
  predicate NoFatalFault(p: Plane, cfg: GatewayConfig, o: GatewayOracle) {
    && ((!o.listApisFails && LookupApi(p.apis, ApiNameOf(cfg)).Some?) || !o.createApiFails)
    && AfterApiSucceeds(p, cfg, o, ChosenApi(p, cfg, o))
  }

  /** `deploy_api_gateway`. */
  function DeployApiGateway(p: Plane, cfg: GatewayConfig, o: GatewayOracle): (r: GatewayRun)
    ensures r.ok <==> NoFatalFault(p, cfg, o)
    ensures r.ok <==> r.report.Some?
    ensures r.ok ==> r.report.value.url == EndpointUrl(ChosenApi(p, cfg, o), cfg.region, cfg.stageName)
    ensures r.ok ==> Api(ApiNameOf(cfg), ChosenApi(p, cfg, o)) in r.plane.apis
    ensures r.ok ==> (r.report.value.keyValue.Some? <==> LookupKey(p.keys, KeyName(ApiNameOf(cfg))).None?)
    ensures r.plane.functions == p.functions
  {
    var name := ApiNameOf(cfg);
    match EnsureApi(p, name, o)
    case Fatal(c) => Failed(p, c)
    case Done(p1, c1, apiId) =>
      assert Api(name, apiId) in p1.apis by {
        if !o.listApisFails && LookupApi(p.apis, name).Some? {
          var k :| FirstAt(p.apis, ApiNamed(name), k) && p.apis[k].id == apiId;
          assert p.apis[k] == Api(name, apiId);
        } else {
          assert p1.apis[|p.apis|] == Api(name, apiId);
        }
      }
      assert AfterApiSucceeds(p1, cfg, o, apiId) == AfterApiSucceeds(p, cfg, o, apiId) by {
        assert IntegrationsOf(p1, apiId) == IntegrationsOf(p, apiId);
        assert FoundPlan(p1, name, o) == FoundPlan(p, name, o);
      }
      AfterApi(p1, cfg, o, apiId, c1)
  }

  /** Route failures and failed usage-plan associations are only logged:
      whatever they are, the run's verdict is the same. */
  lemma ToleratedFaults(p: Plane, cfg: GatewayConfig, o: GatewayOracle,
                        listRoutesFails: nat -> bool, createRouteFails: nat -> bool,
                        attachStageFails: bool, attachKeyFails: bool)
    ensures var o' := o.(listRoutesFails := listRoutesFails, createRouteFails := createRouteFails,
                         attachStageFails := attachStageFails, attachKeyFails := attachKeyFails);
            DeployApiGateway(p, cfg, o').ok == DeployApiGateway(p, cfg, o).ok
  {
    var o' := o.(listRoutesFails := listRoutesFails, createRouteFails := createRouteFails,
                 attachStageFails := attachStageFails, attachKeyFails := attachKeyFails);
    var a := ChosenApi(p, cfg, o);
    assert ChosenApi(p, cfg, o') == a;
    assert PermissionFound(p, cfg.functionName, a, o') == PermissionFound(p, cfg.functionName, a, o);
    assert FoundPlan(p, ApiNameOf(cfg), o') == FoundPlan(p, ApiNameOf(cfg), o);
    assert FinishSucceeds(p, cfg, o', a) == FinishSucceeds(p, cfg, o, a);
    assert AfterKeySucceeds(p, cfg, o', a) == AfterKeySucceeds(p, cfg, o, a);
    assert AfterApiSucceeds(p, cfg, o', a) == AfterApiSucceeds(p, cfg, o, a);
    assert NoFatalFault(p, cfg, o') == NoFatalFault(p, cfg, o);
  }

  // ---------------------------------------------------------------------------
  // Convergence

  /** What steps 5 to 7 leave in place for API `apiId` and key `keyId`. */
  predicate FinishInPlace(p: Plane, cfg: GatewayConfig, apiId: Id, keyId: Id) {
    && FirstIndex(PolicyOf(p, cfg.functionName), Grants(apiId)).Some?
    && (apiId, cfg.stageName) in p.stages
    && LookupPlan(p.plans, PlanName(ApiNameOf(cfg))).Some?
    && var u := p.plans[LookupPlan(p.plans, PlanName(ApiNameOf(cfg))).value];
       ApiStage(apiId, cfg.stageName) in u.apiStages && keyId in u.keyIds
  }

  /** What steps 3 to 7 leave in place. */
  predicate AfterKeyInPlace(p: Plane, cfg: GatewayConfig, apiId: Id, keyId: Id) {
    && LookupIntegration(IntegrationsOf(p, apiId), cfg.functionArn).Some?
    && (forall k | k in RouteKeys :: k in RoutesOf(p, apiId))
    && FinishInPlace(p, cfg, apiId, keyId)
  }

  /** Everything the deployment needs exists: the first API and key of the
      derived names, the integration and the four routes of that API, the
      invoke permission, the stage, and a usage plan holding the stage and
      the key. */
  predicate Provisioned(p: Plane, cfg: GatewayConfig) {
    && LookupApi(p.apis, ApiNameOf(cfg)).Some?
    && LookupKey(p.keys, KeyName(ApiNameOf(cfg))).Some?
    && AfterKeyInPlace(p, cfg, LookupApi(p.apis, ApiNameOf(cfg)).value, LookupKey(p.keys, KeyName(ApiNameOf(cfg))).value)
  }

  /** The function has no policy yet, or its policy already grants the
      API: the planes on which the script's step 5 can succeed. */
  predicate PermissionCheckPasses(p: Plane, functionName: string, apiId: Id) {
    functionName !in p.policies || FirstIndex(p.policies[functionName], Grants(apiId)).Some?
  }

  /** After a faultless step 5 on a plane where the function has no policy
      or already grants the API, the policy grants the API. */
  lemma PermissionProvisions(p: Plane, cfg: GatewayConfig, o: GatewayOracle, apiId: Id)
    requires Faultless(o) && PermissionCheckPasses(p, cfg.functionName, apiId)
    ensures var r := EnsurePermission(p, cfg.functionName, cfg.region, apiId, o);
            r.Done? && FirstIndex(PolicyOf(r.plane, cfg.functionName), Grants(apiId)).Some?
  {
    if !PermissionFound(p, cfg.functionName, apiId, o) {
      var st := Statement(Some(InvokePrincipal), Some(SourceArn(cfg.region, o.accountId.value, apiId)));
      AddedStatementGrants(cfg.region, o.accountId.value, apiId);
      FirstIndexAppend(PolicyOf(p, cfg.functionName), st, Grants(apiId));
    }
  }

  /** After a faultless step 7 the first plan of the derived name holds the
      stage and the key. */
  lemma UsagePlanProvisions(p: Plane, cfg: GatewayConfig, o: GatewayOracle, apiId: Id, keyId: Id)
    requires Faultless(o)
    ensures var r := EnsureUsagePlan(p, ApiNameOf(cfg), apiId, cfg.stageName, keyId, o);
            && r.Done? && r.plane.(plans := p.plans) == p
            && LookupPlan(r.plane.plans, PlanName(ApiNameOf(cfg))).Some?
            && var u := r.plane.plans[LookupPlan(r.plane.plans, PlanName(ApiNameOf(cfg))).value];
               ApiStage(apiId, cfg.stageName) in u.apiStages && keyId in u.keyIds
  {
    var name := ApiNameOf(cfg);
    var q := if LookupPlan(p.plans, PlanName(name)).Some? then p
             else p.(plans := p.plans + [NewPlan(name, o.newPlanId)]);
    LookupPlanAppend(p.plans, NewPlan(name, o.newPlanId), PlanName(name));
    var k := LookupPlan(q.plans, PlanName(name)).value;
    var p7 := AttachPlan(q, k, ApiStage(apiId, cfg.stageName), keyId, o);
    assert EnsureUsagePlan(p, name, apiId, cfg.stageName, keyId, o).plane == p7;
    LookupPlanUpdate(q.plans, k, p7.plans[k], PlanName(name));
    assert p7.plans == q.plans[k := p7.plans[k]];
  }

  lemma FinishProvisions(p: Plane, cfg: GatewayConfig, o: GatewayOracle, apiId: Id,
                         keyId: Id, keyValue: Option<Id>, calls: seq<Call>)
    requires Faultless(o) && PermissionCheckPasses(p, cfg.functionName, apiId)
    ensures var r := Finish(p, cfg, o, apiId, keyId, keyValue, calls);
            r.ok && FinishInPlace(r.plane, cfg, apiId, keyId)
  {
    PermissionProvisions(p, cfg, o, apiId);
    var p5 := EnsurePermission(p, cfg.functionName, cfg.region, apiId, o).plane;
    var p6 := EnsureStage(p5, apiId, cfg.stageName, o).plane;
    UsagePlanProvisions(p6, cfg, o, apiId, keyId);
    var p7 := EnsureUsagePlan(p6, ApiNameOf(cfg), apiId, cfg.stageName, keyId, o).plane;
    assert Finish(p, cfg, o, apiId, keyId, keyValue, calls).plane == p7;
    assert PolicyOf(p7, cfg.functionName) == PolicyOf(p5, cfg.functionName);
  }

  lemma AfterKeyProvisions(p: Plane, cfg: GatewayConfig, o: GatewayOracle, apiId: Id,
                           keyId: Id, keyValue: Option<Id>, calls: seq<Call>)
    requires Faultless(o) && PermissionCheckPasses(p, cfg.functionName, apiId)
    ensures var r := AfterKey(p, cfg, o, apiId, keyId, keyValue, calls);
            r.ok && AfterKeyInPlace(r.plane, cfg, apiId, keyId)
  {
    var s3 := EnsureIntegration(p, apiId, cfg.functionArn, o);
    var p3 := s3.plane;
    assert LookupIntegration(IntegrationsOf(p3, apiId), cfg.functionArn).Some? by {
      if LookupIntegration(IntegrationsOf(p, apiId), cfg.functionArn).None? {
        LookupIntegrationAppend(IntegrationsOf(p, apiId), Integration(cfg.functionArn, o.newIntegrationId), cfg.functionArn);
      }
    }
    var p4 := EnsureRoutes(p3, apiId, s3.value, o).0;
    FaultlessRoutes(p3, apiId, s3.value, o);
    assert IntegrationsOf(p4, apiId) == IntegrationsOf(p3, apiId);
    FinishProvisions(p4, cfg, o, apiId, keyId, keyValue, calls + s3.calls + EnsureRoutes(p3, apiId, s3.value, o).1);
  }

  /** A run in which nothing fails, on a plane where the function has no
      policy or already grants the API the run settles on, succeeds and
      leaves everything in place. */
  lemma FaultlessRunProvisions(p: Plane, cfg: GatewayConfig, o: GatewayOracle)
    requires Faultless(o) && PermissionCheckPasses(p, cfg.functionName, ChosenApi(p, cfg, o))
    ensures DeployApiGateway(p, cfg, o).ok && Provisioned(DeployApiGateway(p, cfg, o).plane, cfg)
  {
    var name := ApiNameOf(cfg);
    var s1 := EnsureApi(p, name, o);
    var p1 := s1.plane;
    LookupApiAppend(p.apis, Api(name, o.newApiId), name);
    assert LookupApi(p1.apis, name) == Some(s1.value);
    var s2 := EnsureApiKey(p1, KeyName(name), o);
    var p2 := s2.plane;
    LookupKeyAppend(p1.keys, ApiKey(KeyName(name), o.newKeyId, o.newKeyValue), KeyName(name));
    assert LookupKey(p2.keys, KeyName(name)) == Some(s2.value.0);
    assert p2.policies == p.policies;
    AfterKeyProvisions(p2, cfg, o, s1.value, s2.value.0, s2.value.1, s1.calls + s2.calls);
  }

  /** A run in which nothing fails, on a plane where the function already
      has a policy that does not grant the API the run settles on, fails:
      the script's step 5 raises instead of adding the permission. */
  lemma ForeignPolicyFails(p: Plane, cfg: GatewayConfig, o: GatewayOracle)
    requires Faultless(o) && !PermissionCheckPasses(p, cfg.functionName, ChosenApi(p, cfg, o))
    ensures !DeployApiGateway(p, cfg, o).ok
  {
    assert !FinishSucceeds(p, cfg, o, ChosenApi(p, cfg, o));
  }

  lemma FinishRerun(p: Plane, cfg: GatewayConfig, o: GatewayOracle, apiId: Id,
                    keyId: Id, keyValue: Option<Id>, calls: seq<Call>)
    requires Faultless(o) && FinishInPlace(p, cfg, apiId, keyId)
    ensures Finish(p, cfg, o, apiId, keyId, keyValue, calls).plane == p
  {
    var name := ApiNameOf(cfg);
    var k := LookupPlan(p.plans, PlanName(name)).value;
    var p7 := AttachPlan(p, k, ApiStage(apiId, cfg.stageName), keyId, o);
    assert p7.plans[k] == p.plans[k];
    assert p7.plans == p.plans;
  }

  lemma AfterKeyRerun(p: Plane, cfg: GatewayConfig, o: GatewayOracle, apiId: Id,
                      keyId: Id, keyValue: Option<Id>, calls: seq<Call>)
    requires Faultless(o) && AfterKeyInPlace(p, cfg, apiId, keyId)
    ensures AfterKey(p, cfg, o, apiId, keyId, keyValue, calls).plane == p
  {
    var integrationId := LookupIntegration(IntegrationsOf(p, apiId), cfg.functionArn).value;
    var (p4, c4) := EnsureRoutes(p, apiId, integrationId, o);
    assert AddedRoutes(p, apiId, RouteKeys, 0, o) == {};
    assert apiId in p.routes by {
      assert "GET /" in RouteKeys;
    }
    assert RoutesOf(p, apiId) + {} == p.routes[apiId];
    assert p4.routes == p.routes;
    FinishRerun(p4, cfg, o, apiId, keyId, keyValue, calls + c4);
  }

  /** Running the deployment again, with nothing failing, on a plane that
      already has everything: it succeeds with the same API's URL, creates
      and changes nothing, and shows no key value. */
  lemma RerunChangesNothing(p: Plane, cfg: GatewayConfig, o: GatewayOracle)
    requires Faultless(o) && Provisioned(p, cfg)
    ensures var r := DeployApiGateway(p, cfg, o);
            && r.ok && r.plane == p
            && r.report == Some(Report(EndpointUrl(LookupApi(p.apis, ApiNameOf(cfg)).value, cfg.region, cfg.stageName), None))
  {
    var name := ApiNameOf(cfg);
    var apiId := LookupApi(p.apis, name).value;
    var keyId := LookupKey(p.keys, KeyName(name)).value;
    AfterKeyRerun(p, cfg, o, apiId, keyId, None, []);
    FaultlessRunProvisions(p, cfg, o);
  }

  /** Deploying twice with nothing failing: the second run finds everything
      the first one left, so it reports the same URL, changes nothing and
      shows no key value. */
  lemma DeployTwice(p: Plane, cfg: GatewayConfig, o1: GatewayOracle, o2: GatewayOracle)
    requires Faultless(o1) && Faultless(o2) && PermissionCheckPasses(p, cfg.functionName, ChosenApi(p, cfg, o1))
    ensures var r1 := DeployApiGateway(p, cfg, o1);
            var r2 := DeployApiGateway(r1.plane, cfg, o2);
            && r1.ok && r2.ok && r2.plane == r1.plane
            && r2.report.value.url == r1.report.value.url && r2.report.value.keyValue.None?
  {
    var r1 := DeployApiGateway(p, cfg, o1);
    FaultlessRunProvisions(p, cfg, o1);
    RerunChangesNothing(r1.plane, cfg, o2);
    var name := ApiNameOf(cfg);
    assert LookupApi(r1.plane.apis, name) == Some(ChosenApi(p, cfg, o1)) by {
      LookupApiAppend(p.apis, Api(name, o1.newApiId), name);
      var s1 := EnsureApi(p, name, o1);
      assert LookupApi(s1.plane.apis, name) == Some(s1.value);
      assert r1.plane.apis == s1.plane.apis;
    }
  }
}
