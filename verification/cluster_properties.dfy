/** Properties of the `Cluster` handlers and request builders that relate
    several calls or several operations. */
module ClusterProperties {
  import opened Wrappers
  import opened JsonData
  import opened Requests
  import opened Responses
  import opened Cluster

  // ---------------------------------------------------------------------------
  // Requests
  // ---------------------------------------------------------------------------

  /** Unquoting a quoted mode gives the mode back, whatever characters it holds. */
  lemma QuoteRoundTrip(mode: string)
    ensures Unquote(Quote(mode)) == Some(mode)
  {
  }

  /** The built request identifies the operation and its argument. */
  lemma BuildRequestRoundTrip(op: Operation)
    ensures OperationOf(BuildRequest(op)) == Some(op)
  {
  }

  /** Every request recognised as a `Cluster` request is the one its operation builds. */
  lemma OperationOfSound(r: Request, op: Operation)
    requires OperationOf(r) == Some(op)
    ensures BuildRequest(op) == r
  {
  }

  /** Distinct operations build distinct requests. */
  lemma BuildRequestInjective(op1: Operation, op2: Operation)
    requires BuildRequest(op1) == BuildRequest(op2)
    ensures op1 == op2
  {
    BuildRequestRoundTrip(op1);
    BuildRequestRoundTrip(op2);
  }

  // ---------------------------------------------------------------------------
  // The failure path
  // ---------------------------------------------------------------------------

  /** On a response that did not succeed, every handler raises its own dedicated
      error carrying exactly that response and request, and never returns a value. */
  lemma FailureYieldsDedicatedError(op: Operation, request: Request, resp: Response)
    requires !Succeeded(resp)
    ensures Handle(op, request, resp) == Failure(DedicatedError(op, resp, request))
  {
  }

  /** A handler returns a value only for a successful response, and raises its
      dedicated error only for an unsuccessful one. */
  lemma DedicatedErrorExactlyOnFailure(op: Operation, request: Request, resp: Response)
    ensures Handle(op, request, resp).Success? ==> Succeeded(resp)
    ensures Handle(op, request, resp) == Failure(DedicatedError(op, resp, request)) <==> !Succeeded(resp)
  {
  }

  /** The error a failed call raises names the request that the call built, so
      the failing operation can be read back from the error. */
  lemma ExecuteErrorIdentifiesOperation(op: Operation, resp: Response)
    requires !Succeeded(resp)
    ensures Execute(op, resp).Failure?
    ensures Execute(op, resp).error.resp == resp
    ensures OperationOf(Execute(op, resp).error.request) == Some(op)
  {
  }

  /** Once `is_success` is populated from the status code, every non-2XX
      response makes every handler raise its dedicated error, and a value is
      only ever returned for a 2XX response. */
  lemma PopulatedFailureIsNonTwoXX(op: Operation, request: Request, resp: Response)
    requires WellPopulated(resp)
    ensures !IsTwoXX(resp.statusCode) ==> Handle(op, request, resp) == Failure(DedicatedError(op, resp, request))
    ensures Handle(op, request, resp).Success? ==> IsTwoXX(resp.statusCode)
  {
  }

  // ---------------------------------------------------------------------------
  // The success path
  // ---------------------------------------------------------------------------

  /** On a successful response, the outcome depends on the body alone: not on the
      request, nor on any other field of the response. */
  lemma SuccessDependsOnlyOnBody(op: Operation, req1: Request, req2: Request, resp1: Response, resp2: Response)
    requires Succeeded(resp1) && Succeeded(resp2)
    requires BodyValue(resp1) == BodyValue(resp2)
    ensures Handle(op, req1, resp1) == Handle(op, req2, resp2)
  {
  }

  /** `server_version`, `server_engine`, `server_statistics` and
      `toggle_maintenance_mode` return the body unchanged. */
  lemma PassThroughReturnsBody(op: Operation, request: Request, resp: Response)
    requires op.ServerVersion? || op.ServerEngine? || op.ServerStatistics? || op.ToggleMaintenanceMode?
    requires Succeeded(resp)
    ensures Handle(op, request, resp) == Success(BodyValue(resp))
  {
  }

  /** Putting back the popped 'error' and 'code' fields restores the body that
      `health` received: nothing else was removed, added or changed. */
  lemma HealthRestores(request: Request, resp: Response)
    requires HandleHealth(request, resp).Success?
    ensures BodyValue(resp).fields ==
              HandleHealth(request, resp).value.fields
                + map["error" := BodyValue(resp).fields["error"], "code" := BodyValue(resp).fields["code"]]
  {
  }

  /** Projections of two lists concatenate to a projection of their concatenation. */
  lemma ProjectionAppend(a: seq<Json>, b: seq<Json>, key: string, pa: seq<Json>, pb: seq<Json>)
    requires IsProjection(a, key, pa) && IsProjection(b, key, pb)
    ensures IsProjection(a + b, key, pa + pb)
  {
  }
  /** A list has at most one projection on a given key. */
  lemma ProjectionUnique(items: seq<Json>, key: string, n1: seq<Json>, n2: seq<Json>)
    requires IsProjection(items, key, n1) && IsProjection(items, key, n2)
    ensures n1 == n2
  {
  }
  /** Projecting a concatenation projects each part, in order. */
  lemma ProjectFieldAppend(a: seq<Json>, b: seq<Json>, key: string)
    requires ProjectField(a, key).Success? && ProjectField(b, key).Success?
    ensures ProjectField(a + b, key) == Success(ProjectField(a, key).value + ProjectField(b, key).value)
  {
    var pa, pb := ProjectField(a, key).value, ProjectField(b, key).value;
    ProjectionAppend(a, b, key, pa, pb);
    assert ProjectField(a + b, key).Success?;
    ProjectionUnique(a + b, key, ProjectField(a + b, key).value, pa + pb);
  }

  /** On success, `endpoints` keeps one entry per listed item, in order: the
      i-th result is the 'endpoint' field of the i-th item. */
  lemma EndpointsProjects(request: Request, resp: Response, items: seq<Json>)
    requires Succeeded(resp)
    requires HasKey(BodyValue(resp), "endpoints")
    requires BodyValue(resp).fields["endpoints"] == JArr(items)
    ensures HandleEndpoints(request, resp).Success? <==> forall i :: 0 <= i < |items| ==> HasKey(items[i], "endpoint")
    ensures HandleEndpoints(request, resp).Success? ==>
              && |HandleEndpoints(request, resp).value.items| == |items|
              && forall i :: 0 <= i < |items| ==>
                   HandleEndpoints(request, resp).value.items[i] == items[i].fields["endpoint"]
  {
  }

  // ---------------------------------------------------------------------------
  // Worked examples
  // ---------------------------------------------------------------------------

  /** `health()` on a successful `{error: false, code: 200, Node1: {...}}` returns `{Node1: {...}}`. */
  lemma HealthExample(request: Request, resp: Response, node: Json)
    requires Succeeded(resp)
    requires resp.body == Some(JObj(map["error" := JBool(false), "code" := JInt(200), "Node1" := node]))
    ensures HandleHealth(request, resp) == Success(JObj(map["Node1" := node]))
  {
    var got := HandleHealth(request, resp).value.fields;
    assert got.Keys == {"Node1"};
    assert got["Node1"] == node;
    assert got == map["Node1" := node];
  }

  /** `endpoints()` on a successful `{endpoints: [{endpoint: "tcp://a:1"}, {endpoint: "tcp://b:2"}]}`
      returns `["tcp://a:1", "tcp://b:2"]`. */
  lemma EndpointsExample(request: Request, resp: Response)
    requires Succeeded(resp)
    requires resp.body == Some(JObj(map["endpoints" := JArr([
               JObj(map["endpoint" := JStr("tcp://a:1")]),
               JObj(map["endpoint" := JStr("tcp://b:2")])])]))
    ensures HandleEndpoints(request, resp) == Success(JArr([JStr("tcp://a:1"), JStr("tcp://b:2")]))
  {
    var items := [JObj(map["endpoint" := JStr("tcp://a:1")]), JObj(map["endpoint" := JStr("tcp://b:2")])];
    assert HasKey(items[0], "endpoint") && HasKey(items[1], "endpoint");
    EndpointsProjects(request, resp, items);
    var names := HandleEndpoints(request, resp).value.items;
    assert names == [JStr("tcp://a:1"), JStr("tcp://b:2")] by {
      assert |names| == 2 && names[0] == JStr("tcp://a:1") && names[1] == JStr("tcp://b:2");
    }
  }
}
