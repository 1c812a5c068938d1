/** The deploy function (functions/s2s-deploy/main.go): an HTTP endpoint that
    reports, creates or deletes the site-to-site CloudFormation stack.

    CloudFormation is abstracted into the answers it gives to the three
    requests the function can make; `Handle` maps a request and those answers
    to the response, the error, and the requests actually made. */
module Deploy {
  import opened Common

  const TemplateUrl := "https://site-to-site.s3-eu-west-1.amazonaws.com/site-to-site.yaml"

  datatype Request = Request(httpMethod: string, body: string)

  datatype Response = Response(statusCode: int, body: string)

  /** Go's zero value of the response, returned beside an error. */
  const EmptyResponse := Response(0, "")

  datatype Stack = Stack(stackStatus: string)

  datatype Parameter = Parameter(key: string, value: string)

  datatype CreateStackInput = CreateStackInput(
    templateUrl: string,
    stackName: string,
    parameters: seq<Parameter>,
    notificationArns: Option<seq<string>>   // None: never set
  )

  /** A request sent to CloudFormation. */
  datatype CfnCall = DescribeStacks(stackName: string) | CreateStack(input: CreateStackInput) | DeleteStack(stackName: string)

  /** What DescribeStacks, CreateStack (the new stack's id) and DeleteStack answer. */
  datatype CfnAnswers = CfnAnswers(describe: Result<seq<Stack>>, create: Result<string>, delete: Option<string>)

  /** The handler's two results, and the CloudFormation requests it made. */
  datatype Reply = Reply(response: Response, err: Option<string>, calls: seq<CfnCall>)

  // ---------------------------------------------------------------------------
  // Environment

  function DeployVars(env: Env): (vars: seq<(string, string)>)
  {
    [("VPC_ID", env.vpcId), ("PREFIX", env.prefix), ("ROUTE_TABLE_ID", env.routeTableId), ("HOME_IP", env.homeIp)]
  }

  /** validateEnv: collects the names of the empty variables in the order
      VPC_ID, PREFIX, ROUTE_TABLE_ID, HOME_IP. */
  method ValidateEnv(env: Env) returns (err: Option<string>)
    ensures err == EnvError(MissingNames(DeployVars(env)))
  {
    var missing: seq<string> := [];
    if env.vpcId == "" {
      missing := missing + ["VPC_ID"];
    }
    assert missing == (if env.vpcId == "" then ["VPC_ID"] else []);
    if env.prefix == "" {
      missing := missing + ["PREFIX"];
    }
    assert missing == (if env.vpcId == "" then ["VPC_ID"] else []) + (if env.prefix == "" then ["PREFIX"] else []);
    if env.routeTableId == "" {
      missing := missing + ["ROUTE_TABLE_ID"];
    }
    assert missing == (if env.vpcId == "" then ["VPC_ID"] else []) + (if env.prefix == "" then ["PREFIX"] else []) + (if env.routeTableId == "" then ["ROUTE_TABLE_ID"] else []);
    if env.homeIp == "" {
      missing := missing + ["HOME_IP"];
    }
    DeployMissingNames(env);
    assert missing == MissingNames(DeployVars(env));
    err := None;
    if |missing| != 0 {
      err := Some(EnvErrorPrefix + Join(missing, ", "));
    }
  }

  lemma DeployMissingNames(env: Env)
    ensures MissingNames(DeployVars(env)) ==
      (if env.vpcId == "" then ["VPC_ID"] else []) + (if env.prefix == "" then ["PREFIX"] else []) +
      (if env.routeTableId == "" then ["ROUTE_TABLE_ID"] else []) + (if env.homeIp == "" then ["HOME_IP"] else [])
  {
    var vars := DeployVars(env);
    MissingNamesSingle(vars[0]);
    MissingNamesSingle(vars[1]);
    MissingNamesSingle(vars[2]);
    MissingNamesSingle(vars[3]);
    assert vars == [vars[0]] + [vars[1]] + [vars[2]] + [vars[3]];
    MissingNamesAppend([vars[0]] + [vars[1]] + [vars[2]], [vars[3]]);
    MissingNamesAppend([vars[0]] + [vars[1]], [vars[2]]);
    MissingNamesAppend([vars[0]], [vars[1]]);
  }

  /** The check fails exactly when one of the four variables is empty, and a
      name is reported exactly when its variable is empty. */
  lemma ValidateEnvReportsMissing(env: Env)
    ensures EnvError(MissingNames(DeployVars(env))).None? <==>
      env.vpcId != "" && env.prefix != "" && env.routeTableId != "" && env.homeIp != ""
    ensures var missing := MissingNames(DeployVars(env));
      ("VPC_ID" in missing <==> env.vpcId == "") && ("PREFIX" in missing <==> env.prefix == "") &&
      ("ROUTE_TABLE_ID" in missing <==> env.routeTableId == "") && ("HOME_IP" in missing <==> env.homeIp == "")
  {
    DeployMissingNames(env);
  }

  /** With nothing set, all four names are reported in their order. */
  lemma ValidateEnvAllMissing(env: Env)
    requires env.vpcId == "" && env.prefix == "" && env.routeTableId == "" && env.homeIp == ""
    ensures EnvError(MissingNames(DeployVars(env))) ==
      Some(EnvErrorPrefix + "VPC_ID, PREFIX, ROUTE_TABLE_ID, HOME_IP")
  {
    DeployMissingNames(env);
    assert MissingNames(DeployVars(env)) == ["VPC_ID", "PREFIX", "ROUTE_TABLE_ID", "HOME_IP"];
    JoinAllDeployNames();
  }

  lemma JoinAllDeployNames()
    ensures Join(["VPC_ID", "PREFIX", "ROUTE_TABLE_ID", "HOME_IP"], ", ") == "VPC_ID, PREFIX, ROUTE_TABLE_ID, HOME_IP"
  {
    JoinFour("VPC_ID", "PREFIX", "ROUTE_TABLE_ID", "HOME_IP", ", ");
  }

  lemma JoinFour(a: string, b: string, c: string, d: string, sep: string)
    ensures Join([a, b, c, d], sep) == a + sep + b + sep + c + sep + d
  {
    assert Join([d], sep) == d;
    JoinCons(c, [d], sep);
    assert [c] + [d] == [c, d];
    JoinCons(b, [c, d], sep);
    assert [b] + [c, d] == [b, c, d];
    JoinCons(a, [b, c, d], sep);
    assert [a] + [b, c, d] == [a, b, c, d];
  }

  // ---------------------------------------------------------------------------
  // CloudFormation requests

  /** getStackByName: the one stack with that name. */
  function GetStackByName(name: string, described: Result<seq<Stack>>): (r: Result<Stack>)
    ensures described.Err? ==> r == Err(described.msg)
    ensures described.Ok? && |described.value| == 0 ==> r.Err? && Contains(r.msg, "does not exist")
    ensures described.Ok? && |described.value| == 1 ==> r == Ok(described.value[0])
    ensures described.Ok? && |described.value| > 1 ==> r.Err? && StartsWith(r.msg, "More than 1 stack")
  {
    match described
    case Err(e) => Err(e)
    case Ok(stacks) =>
      if |stacks| == 0 then
        ContainsInfix("stack with name " + name + " ", "does not exist", "");
        assert "stack with name " + name + " does not exist" == "stack with name " + name + " " + "does not exist" + "";
        Err("stack with name " + name + " does not exist")
      else if |stacks| == 1 then Ok(stacks[0])
      else
        assert ("More than 1 stack found for " + name)[..17] == "More than 1 stack";
        Err("More than 1 stack found for " + name)
  }

  /** The template parameters createStack passes, in order. */
  const TemplateParameters := ["VPCID", "RouteTableID", "Prefix", "HomeIP"]

  /** The configuration value each template parameter is taken from. */
  function ParameterSource(env: Env, key: string): (value: string)
  {
    match key
    case "VPCID" => env.vpcId
    case "RouteTableID" => env.routeTableId
    case "Prefix" => env.prefix
    case "HomeIP" => env.homeIp
    case _ => ""
  }

  /** The request createStack sends. */
  function CreateStackRequest(env: Env, url: string, name: string): (input: CreateStackInput)
  {
    CreateStackInput(url, name,
      [Parameter("VPCID", env.vpcId), Parameter("RouteTableID", env.routeTableId),
       Parameter("Prefix", env.prefix), Parameter("HomeIP", env.homeIp)],
      if env.snsTopic != "" then Some([env.snsTopic]) else None)
  }

  /** createStack's construction of its request: the parameter list, then the
      notification topic when one is configured. */
  method BuildCreateStackInput(env: Env, url: string, name: string) returns (input: CreateStackInput)
    ensures input == CreateStackRequest(env, url, name)
    ensures |input.parameters| == |TemplateParameters|
    ensures forall i :: 0 <= i < |input.parameters| ==>
      input.parameters[i].key == TemplateParameters[i] &&
      input.parameters[i].value == ParameterSource(env, TemplateParameters[i])
    ensures input.notificationArns.Some? <==> env.snsTopic != ""
  {
    var params := [Parameter("VPCID", env.vpcId), Parameter("RouteTableID", env.routeTableId),
                   Parameter("Prefix", env.prefix), Parameter("HomeIP", env.homeIp)];
    input := CreateStackInput(url, name, params, None);
    if env.snsTopic != "" {
      input := input.(notificationArns := Some([env.snsTopic]));
    }
  }

  // ---------------------------------------------------------------------------
  // The handler

  function Handle(env: Env, req: Request, cfn: CfnAnswers): (reply: Reply)
  {
    match EnvError(MissingNames(DeployVars(env)))
    case Some(e) => Reply(Response(500, e), None, [])
    case None =>
      var stackName := env.prefix;
      if req.httpMethod == "GET" then
        var calls := [DescribeStacks(stackName)];
        match GetStackByName(stackName, cfn.describe)
        case Err(e) =>
          if Contains(e, "does not exist") then Reply(Response(404, "stack not found"), None, calls)
          else Reply(EmptyResponse, Some(e), calls)
        case Ok(stack) => Reply(Response(200, stack.stackStatus), None, calls)
      else if req.httpMethod == "POST" then
        if req.body == "ON" then
          var calls := [CreateStack(CreateStackRequest(env, TemplateUrl, stackName))];
          match cfn.create
          case Err(e) =>
            if Contains(e, "already exists") then Reply(Response(409, e), None, calls)
            else Reply(EmptyResponse, Some(e), calls)
          case Ok(id) => Reply(Response(201, id), None, calls)
        else if req.body == "OFF" then
          var calls := [DeleteStack(stackName)];
          match cfn.delete
          case Some(e) => Reply(EmptyResponse, Some(e), calls)
          case None => Reply(Response(200, ""), None, calls)
        else
          Reply(Response(400, "post body not supported: " + req.body), None, [])
      else
        Reply(Response(405, "405 Method Not Allowed"), None, [])
  }

  predicate EnvValid(env: Env)
  {
    env.vpcId != "" && env.prefix != "" && env.routeTableId != "" && env.homeIp != ""
  }

  /** Either an error is returned beside an empty response, or the response
      has one of the seven codes the function uses. */
  lemma HandleStatusCodes(env: Env, req: Request, cfn: CfnAnswers)
    ensures var r := Handle(env, req, cfn);
      (r.err.Some? && r.response == EmptyResponse) ||
      (r.err.None? && r.response.statusCode in {200, 201, 400, 404, 405, 409, 500})
    ensures |Handle(env, req, cfn).calls| <= 1
  {
  }

  /** A misconfigured function answers 500 with validateEnv's message, which
      names the missing variables in order, for any method and before any
      CloudFormation request. */
  lemma InvalidEnvIs500(env: Env, req: Request, cfn: CfnAnswers)
    requires !EnvValid(env)
    ensures EnvError(MissingNames(DeployVars(env))).Some?
    ensures Handle(env, req, cfn) == Reply(Response(500, EnvError(MissingNames(DeployVars(env))).value), None, [])
    ensures StartsWith(Handle(env, req, cfn).response.body, EnvErrorPrefix)
  {
    ValidateEnvReportsMissing(env);
  }

  /** Methods other than GET and POST are refused with 405; POST bodies other
      than ON and OFF with 400 and the body echoed. Neither calls CloudFormation. */
  lemma UnsupportedRequests(env: Env, req: Request, cfn: CfnAnswers)
    requires EnvValid(env)
    ensures req.httpMethod != "GET" && req.httpMethod != "POST" ==>
      Handle(env, req, cfn) == Reply(Response(405, "405 Method Not Allowed"), None, [])
    ensures req.httpMethod == "POST" && req.body != "ON" && req.body != "OFF" ==>
      Handle(env, req, cfn) == Reply(Response(400, "post body not supported: " + req.body), None, [])
  {
    ValidateEnvReportsMissing(env);
  }

  /** GET: the status of the one stack; "stack not found" (404) exactly when
      the error says the stack does not exist, which includes an empty answer;
      any other error is returned. */
  lemma GetResponses(env: Env, cfn: CfnAnswers)
    requires EnvValid(env)
    ensures var r := Handle(env, Request("GET", ""), cfn);
      var g := GetStackByName(env.prefix, cfn.describe);
      r.calls == [DescribeStacks(env.prefix)] &&
      (g.Ok? ==> r.response == Response(200, g.value.stackStatus) && r.err.None?) &&
      (g.Err? ==> (r.response == Response(404, "stack not found") <==> Contains(g.msg, "does not exist"))) &&
      (g.Err? && !Contains(g.msg, "does not exist") ==> r.err == Some(g.msg)) &&
      (cfn.describe == Ok([]) ==> r.response == Response(404, "stack not found") && r.err.None?)
  {
    ValidateEnvReportsMissing(env);
  }

  /** POST ON: 201 with the new stack's id; 409 with the error text when the
      stack already exists; any other error is returned. The request carries
      the four template parameters. */
  lemma PostOnResponses(env: Env, cfn: CfnAnswers)
    requires EnvValid(env)
    ensures var r := Handle(env, Request("POST", "ON"), cfn);
      r.calls == [CreateStack(CreateStackRequest(env, TemplateUrl, env.prefix))] &&
      (cfn.create.Ok? ==> r.response == Response(201, cfn.create.value) && r.err.None?) &&
      (cfn.create.Err? && Contains(cfn.create.msg, "already exists") ==>
         r.response == Response(409, cfn.create.msg) && r.err.None?) &&
      (cfn.create.Err? && !Contains(cfn.create.msg, "already exists") ==>
         r.response == EmptyResponse && r.err == Some(cfn.create.msg))
  {
    ValidateEnvReportsMissing(env);
  }

  /** POST OFF: 200 with an empty body, or the deletion error returned. */
  lemma PostOffResponses(env: Env, cfn: CfnAnswers)
    requires EnvValid(env)
    ensures var r := Handle(env, Request("POST", "OFF"), cfn);
      r.calls == [DeleteStack(env.prefix)] &&
      (cfn.delete.None? ==> r.response == Response(200, "") && r.err.None?) &&
      (cfn.delete.Some? ==> r.response == EmptyResponse && r.err == cfn.delete)
  {
    ValidateEnvReportsMissing(env);
  }

  /** The create request passes VPCID, RouteTableID, Prefix and HomeIP from
      the configuration, and a notification topic exactly when SNS_TOPIC is set. */
  lemma CreateStackRequestShape(env: Env, url: string, name: string)
    ensures var input := CreateStackRequest(env, url, name);
      input.templateUrl == url && input.stackName == name &&
      |input.parameters| == 4 &&
      (forall i :: 0 <= i < 4 ==>
         input.parameters[i].key == TemplateParameters[i] &&
         input.parameters[i].value == ParameterSource(env, TemplateParameters[i])) &&
      (input.notificationArns == if env.snsTopic == "" then None else Some([env.snsTopic]))
  {
  }
}
