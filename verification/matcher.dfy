/** Choosing the candidates of a request: which targets of the matching rule can serve it, natively
    or through a conversion. */
module Matcher {
  import opened Wrappers
  import opened Capabilities

  datatype Requirements = Requirements(nativeOnly: bool, unknownSemantic: bool, features: seq<Feature>)

  datatype Request = Request(model: string, protocol: Protocol, task: string, endpoint: string, stream: bool,
                             requirements: Option<Requirements>, enforce: bool)

  datatype Target = Target(id: string, provider: string, model: string, enabled: bool, maxRetries: int)

  datatype Rule = Rule(id: string, name: string, enabled: bool, targets: seq<Target>)

  datatype Candidate = Candidate(provider: string, model: string, protocol: Protocol, path: string, ruleId: string, targetId: string,
                                 maxRetries: int, convertTo: Option<Protocol>)

  /** What the request sees of the rest of the gateway. */
  datatype Gateway = Gateway(provider: string -> Option<Provider>, admits: string -> bool, snapshot: Snapshot)

  datatype Problem = UnknownRequestProtocol | NoMatchingRule | UnsupportedFeature | NoProvider

  datatype Selection = Selected(candidates: seq<Candidate>) | Refused(problem: Problem)

  // --- Conversion edges ---

  datatype Edge = Edge(source: Protocol, to: Protocol, path: string, priority: int, streams: bool)

  const EDGES: seq<Edge> := [
    Edge(AnthropicMessages, OpenAIResponses, "/v1/responses", 10, true),
    Edge(OpenAIResponses, AnthropicMessages, "/v1/messages", 10, true),
    Edge(OpenAIChat, OpenAIResponses, "/v1/responses", 10, true),
    Edge(OpenAIChat, AnthropicMessages, "/v1/messages", 20, true),
    Edge(AnthropicMessages, OpenAIChat, "/v1/chat/completions", 20, true),
    Edge(OpenAIResponses, OpenAIChat, "/v1/chat/completions", 20, true)]

  function Leaving(edges: seq<Edge>, source: Protocol): seq<Edge> {
    if edges == [] then []
    else Leaving(edges[..|edges| - 1], source) + if edges[|edges| - 1].source == source then [edges[|edges| - 1]] else []
  }

  /** The stable sort by priority: each edge goes behind those of the same priority. */
  function Inserted(sorted: seq<Edge>, e: Edge): seq<Edge> {
    if sorted == [] || sorted[|sorted| - 1].priority <= e.priority then sorted + [e]
    else Inserted(sorted[..|sorted| - 1], e) + [sorted[|sorted| - 1]]
  }

  function Sorted(edges: seq<Edge>): seq<Edge> {
    if edges == [] then [] else Inserted(Sorted(edges[..|edges| - 1]), edges[|edges| - 1])
  }

  predicate Ascending(edges: seq<Edge>) {
    forall i, j :: 0 <= i < j < |edges| ==> edges[i].priority <= edges[j].priority
  }

  lemma InsertedKeeps(sorted: seq<Edge>, e: Edge)
    requires Ascending(sorted)
    ensures Ascending(Inserted(sorted, e))
    ensures forall f :: f in Inserted(sorted, e) <==> f in sorted || f == e
  {
    if sorted != [] && sorted[|sorted| - 1].priority > e.priority {
      var init := sorted[..|sorted| - 1];
      InsertedKeeps(init, e);
      assert sorted == init + [sorted[|sorted| - 1]];
      var inserted := Inserted(init, e);
      forall i | 0 <= i < |inserted| ensures inserted[i].priority <= sorted[|sorted| - 1].priority {
        assert inserted[i] in init || inserted[i] == e;
      }
    }
  }

  lemma SortedIsAscending(edges: seq<Edge>)
    ensures Ascending(Sorted(edges)) && forall f :: f in Sorted(edges) <==> f in edges
  {
    if edges != [] {
      SortedIsAscending(edges[..|edges| - 1]);
      InsertedKeeps(Sorted(edges[..|edges| - 1]), edges[|edges| - 1]);
      assert edges == edges[..|edges| - 1] + [edges[|edges| - 1]];
    }
  }

  lemma LeavingHas(edges: seq<Edge>, source: Protocol)
    ensures forall f :: f in Leaving(edges, source) <==> f in edges && f.source == source
  {
    if edges != [] {
      LeavingHas(edges[..|edges| - 1], source);
      assert edges == edges[..|edges| - 1] + [edges[|edges| - 1]];
    }
  }

  function EdgesFor(source: Protocol): seq<Edge> {
    Sorted(Leaving(EDGES, source))
  }

  method ConversionEdgesFor(source: Protocol) returns (edges: seq<Edge>)
    ensures edges == EdgesFor(source)
  {
    var found := [];
    for n := 0 to |EDGES|
      invariant found == Leaving(EDGES[..n], source)
    {
      assert EDGES[..n + 1][..n] == EDGES[..n];
      if EDGES[n].source == source {
        found := found + [EDGES[n]];
      }
    }
    assert EDGES[..|EDGES|] == EDGES;
    edges := Sorted(found);
  }

  // --- What a route can carry ---

  predicate PreservesTextTools(req: Request) {
    req.requirements.Some? ==>
      var needs := req.requirements.value;
      !needs.nativeOnly && !needs.unknownSemantic && forall i :: 0 <= i < |needs.features| ==> needs.features[i] in {Tools, Streaming}
  }

  predicate NativeFeatures(req: Request, s: Snapshot, id: string, model: string, protocol: Protocol) {
    req.requirements.Some? ==>
      var features := req.requirements.value.features;
      forall i :: 0 <= i < |features| ==> FeatureEnabled(s, id, model, protocol, features[i], req.enforce)
  }

  predicate EdgeCarries(req: Request, e: Edge, s: Snapshot, id: string, model: string) {
    (req.stream ==> e.streams) && PreservesTextTools(req) &&
    (req.requirements.Some? ==>
      var features := req.requirements.value.features;
      forall i :: 0 <= i < |features| ==> (features[i] == Streaming ==> e.streams) && FeatureEnabled(s, id, model, e.to, features[i], req.enforce))
  }

  /** An edge the provider's model speaks, whether or not it can carry the request. */
  predicate Passes(req: Request, e: Edge, s: Snapshot, id: string, model: string) {
    SupportsModel(s, id, model, e.to) && EdgeCarries(req, e, s, id, model)
  }

  /** How a target is reached. */
  datatype Route = Nowhere | Natively | Through(edge: Edge)

  function FirstPassing(req: Request, edges: seq<Edge>, s: Snapshot, id: string, model: string): Route {
    if edges == [] then Nowhere
    else
      var before := FirstPassing(req, edges[..|edges| - 1], s, id, model);
      if before != Nowhere then before
      else if Passes(req, edges[|edges| - 1], s, id, model) then Through(edges[|edges| - 1])
      else Nowhere
  }

  function RouteOf(req: Request, s: Snapshot, id: string, model: string): Route {
    if SupportsModel(s, id, model, req.protocol) && NativeFeatures(req, s, id, model, req.protocol) then Natively
    else FirstPassing(req, EdgesFor(req.protocol), s, id, model)
  }

  /** The provider's model speaks the request's protocol, or one it can be converted to. */
  predicate Wired(s: Snapshot, id: string, model: string, protocol: Protocol) {
    SupportsModel(s, id, model, protocol) || exists e :: e in EdgesFor(protocol) && SupportsModel(s, id, model, e.to)
  }

  // --- The targets of a rule ---

  function ModelOf(req: Request, t: Target): string {
    if t.model != "" then t.model else req.model
  }

  /** A snapshot without providers is started anew; a provider it lacks gets its legacy fields. */
  function Started(s: Snapshot): Snapshot {
    if s.providers.None? then Snapshot(Some(map[]), map[], map[], map[]) else s
  }

  function View(s: Snapshot, id: string, p: Provider): Snapshot {
    var base := Started(s);
    if id in base.providers.value then base else base.(providers := Some(base.providers.value[id := Legacy(p)]))
  }

  predicate Available(g: Gateway, t: Target) {
    t.enabled && g.provider(t.provider).Some? && g.provider(t.provider).value.enabled && g.admits(t.provider)
  }

  function ViewOf(g: Gateway, t: Target): Snapshot
    requires g.provider(t.provider).Some?
  {
    View(g.snapshot, t.provider, g.provider(t.provider).value)
  }

  function TargetRoute(req: Request, g: Gateway, t: Target): Route {
    if Available(g, t) then RouteOf(req, ViewOf(g, t), t.provider, ModelOf(req, t)) else Nowhere
  }

  predicate TargetWired(req: Request, g: Gateway, t: Target) {
    Available(g, t) && Wired(ViewOf(g, t), t.provider, ModelOf(req, t), req.protocol)
  }

  function CandidateOf(req: Request, rule: Rule, t: Target, route: Route): Candidate
    requires route != Nowhere
  {
    Candidate(t.provider, ModelOf(req, t), req.protocol, if route.Through? then route.edge.path else req.endpoint,
              rule.id, t.id, t.maxRetries, if route.Through? then Some(route.edge.to) else None)
  }

  function Collected(req: Request, g: Gateway, rule: Rule, targets: seq<Target>): seq<Candidate> {
    if targets == [] then []
    else
      var t := targets[|targets| - 1];
      var route := TargetRoute(req, g, t);
      Collected(req, g, rule, targets[..|targets| - 1]) + if route == Nowhere then [] else [CandidateOf(req, rule, t, route)]
  }

  // --- Lookups about one provider do not depend on the others ---

  ghost predicate Alike(s: Snapshot, t: Snapshot, id: string) {
    && Known(s, id) && Known(t, id) && s.providers.value[id] == t.providers.value[id]
    && s.models == t.models && s.providerFeatures == t.providerFeatures && s.modelFeatures == t.modelFeatures
  }

  lemma AlikePasses(req: Request, s: Snapshot, t: Snapshot, id: string, model: string)
    requires Alike(s, t, id)
    ensures forall e :: Passes(req, e, s, id, model) == Passes(req, e, t, id, model)
    ensures forall p :: SupportsModel(s, id, model, p) == SupportsModel(t, id, model, p)
    ensures forall p :: NativeFeatures(req, s, id, model, p) == NativeFeatures(req, t, id, model, p)
  {
    assert forall p, f, enforce :: FeatureEnabled(s, id, model, p, f, enforce) == FeatureEnabled(t, id, model, p, f, enforce);
    hide FeatureEnabled;
  }

  lemma {:induction false} AlikeRoutes(req: Request, edges: seq<Edge>, s: Snapshot, t: Snapshot, id: string, model: string)
    requires Alike(s, t, id)
    ensures FirstPassing(req, edges, s, id, model) == FirstPassing(req, edges, t, id, model)
  {
    if edges != [] {
      hide Alike, Passes;
      AlikeRoutes(req, edges[..|edges| - 1], s, t, id, model);
      AlikePasses(req, s, t, id, model);
    }
  }

  // --- The loops ---

  /** The snapshot while targets are visited: what it was, and the legacy fields of providers it lacked. */
  ghost predicate Evolved(g: Gateway, caps: Snapshot) {
    if caps.providers.None? then caps == g.snapshot
    else
      var base := Started(g.snapshot);
      && caps.models == base.models && caps.providerFeatures == base.providerFeatures && caps.modelFeatures == base.modelFeatures
      && (forall id :: id in base.providers.value ==> id in caps.providers.value && caps.providers.value[id] == base.providers.value[id])
      && (forall id :: id in caps.providers.value && id !in base.providers.value ==>
            g.provider(id).Some? && caps.providers.value[id] == Legacy(g.provider(id).value))
  }

  method Complete(ghost g: Gateway, caps: Snapshot, id: string, p: Provider) returns (full: Snapshot)
    requires Evolved(g, caps) && g.provider(id) == Some(p)
    ensures Evolved(g, full) && Alike(full, View(g.snapshot, id, p), id)
  {
    hide Legacy;
    full := caps;
    if full.providers.None? {
      full := Snapshot(Some(map[id := Legacy(p)]), map[], map[], map[]);
    }
    if id !in full.providers.value {
      full := full.(providers := Some(full.providers.value[id := Legacy(p)]));
    }
  }

  method TryEdges(req: Request, s: Snapshot, id: string, model: string, edges: seq<Edge>) returns (route: Route, rejected: bool)
    ensures route == FirstPassing(req, edges, s, id, model)
    ensures route == Nowhere ==> (rejected <==> exists e :: e in edges && SupportsModel(s, id, model, e.to))
  {
    hide SupportsModel, EdgeCarries;
    route, rejected := Nowhere, false;
    var n := 0;
    while n < |edges|
      invariant n <= |edges| && FirstPassing(req, edges[..n], s, id, model) == Nowhere
      invariant rejected <==> exists e :: e in edges[..n] && SupportsModel(s, id, model, e.to)
    {
      assert edges[..n + 1][..n] == edges[..n];
      assert forall e :: e in edges[..n + 1] <==> e in edges[..n] || e == edges[n];
      var e := edges[n];
      if SupportsModel(s, id, model, e.to) {
        if EdgeCarries(req, e, s, id, model) {
          FirstStays(req, edges, s, id, model, n + 1);
          return Through(e), rejected;
        }
        rejected := true;
      }
      n := n + 1;
    }
    assert edges[..|edges|] == edges;
  }

  lemma {:induction false} FirstStays(req: Request, edges: seq<Edge>, s: Snapshot, id: string, model: string, n: nat)
    requires n <= |edges| && FirstPassing(req, edges[..n], s, id, model) != Nowhere
    ensures FirstPassing(req, edges, s, id, model) == FirstPassing(req, edges[..n], s, id, model)
  {
    if n == |edges| {
      assert edges[..n] == edges;
    } else {
      hide Passes;
      assert edges[..|edges| - 1][..n] == edges[..n];
      FirstStays(req, edges[..|edges| - 1], s, id, model, n);
    }
  }

  /** The route of one available target, and whether a wire route was rejected. */
  method FindRoute(req: Request, s: Snapshot, id: string, model: string) returns (route: Route, rejected: bool)
    ensures route == RouteOf(req, s, id, model)
    ensures route == Nowhere ==> (rejected <==> Wired(s, id, model, req.protocol))
  {
    hide SupportsModel, NativeFeatures, FirstPassing, EdgesFor;
    var native := SupportsModel(s, id, model, req.protocol);
    if native && NativeFeatures(req, s, id, model, req.protocol) {
      return Natively, false;
    }
    var edges := ConversionEdgesFor(req.protocol);
    route, rejected := TryEdges(req, s, id, model, edges);
    rejected := rejected || native;
  }

  method CollectCandidates(req: Request, g: Gateway, rule: Rule) returns (out: seq<Candidate>, rejected: bool)
    ensures out == Collected(req, g, rule, rule.targets)
    ensures out == [] ==> (rejected <==> exists i :: 0 <= i < |rule.targets| && TargetWired(req, g, rule.targets[i]))
  {
    hide RouteOf, Wired, Evolved, Alike, View;
    out, rejected := [], false;
    var caps := g.snapshot;
    assert Evolved(g, caps) by { SnapshotEvolved(g); }
    for n := 0 to |rule.targets|
      invariant out == Collected(req, g, rule, rule.targets[..n]) && Evolved(g, caps)
      invariant out == [] ==> (rejected <==> exists i :: 0 <= i < n && TargetWired(req, g, rule.targets[i]))
    {
      var t := rule.targets[n];
      assert rule.targets[..n + 1][..n] == rule.targets[..n];
      if !t.enabled || g.provider(t.provider).None? || !g.provider(t.provider).value.enabled {
        continue;
      }
      var p := g.provider(t.provider).value;
      caps := Complete(g, caps, t.provider, p);
      // A target whose breaker is open is not available, whatever it supports.
      if !g.admits(t.provider) {
        continue;
      }
      AlikeRouteOf(req, caps, ViewOf(g, t), t.provider, ModelOf(req, t));
      var route, wireRejected := FindRoute(req, caps, t.provider, ModelOf(req, t));
      if route != Nowhere {
        out := out + [CandidateOf(req, rule, t, route)];
      } else if wireRejected {
        rejected := true;
      }
    }
    assert rule.targets[..|rule.targets|] == rule.targets;
  }

  lemma SnapshotEvolved(g: Gateway)
    ensures Evolved(g, g.snapshot)
  {
  }

  lemma AlikeRouteOf(req: Request, s: Snapshot, t: Snapshot, id: string, model: string)
    requires Alike(s, t, id)
    ensures RouteOf(req, s, id, model) == RouteOf(req, t, id, model)
    ensures Wired(s, id, model, req.protocol) == Wired(t, id, model, req.protocol)
  {
    hide Alike, SupportsModel, NativeFeatures, FirstPassing, EdgesFor;
    AlikePasses(req, s, t, id, model);
    AlikeRoutes(req, EdgesFor(req.protocol), s, t, id, model);
  }

  // --- The whole selection ---

  function ProtocolOf(req: Request): Protocol {
    if req.protocol != UnknownProtocol then req.protocol
    else if req.task == "responses" then OpenAIResponses
    else if req.task == "messages" then AnthropicMessages
    else if req.task == "gemini" then Gemini
    else
      var endpoint := if req.endpoint != "" && req.endpoint[|req.endpoint| - 1] == '/' then req.endpoint[..|req.endpoint| - 1] else req.endpoint;
      if req.task != "" || (endpoint != "" && endpoint != "/v1/chat/completions") then UnknownProtocol else OpenAIChat
  }

  predicate Matches(req: Request, rule: Rule) {
    rule.enabled && rule.name == req.model
  }

  method FindRule(req: Request, rules: seq<Rule>) returns (found: Option<nat>)
    ensures found.Some? ==> found.value < |rules| && Matches(req, rules[found.value]) && forall i :: 0 <= i < found.value ==> !Matches(req, rules[i])
    ensures found.None? ==> forall i :: 0 <= i < |rules| ==> !Matches(req, rules[i])
  {
    for n := 0 to |rules|
      invariant forall i :: 0 <= i < n ==> !Matches(req, rules[i])
    {
      if Matches(req, rules[n]) {
        return Some(n);
      }
    }
    found := None;
  }

  predicate FirstMatch(req: Request, rules: seq<Rule>, i: int) {
    0 <= i < |rules| && Matches(req, rules[i]) && forall k :: 0 <= k < i ==> !Matches(req, rules[k])
  }

  /** The candidates of a rule; an empty selection is an unsupported feature exactly when some
      available target speaks the request's protocol or one it converts to. */
  predicate SelectionFrom(req: Request, g: Gateway, rule: Rule, selection: Selection) {
    var out := Collected(req, g, rule, rule.targets);
    if out != [] then selection == Selected(out)
    else if exists i :: 0 <= i < |rule.targets| && TargetWired(req, g, rule.targets[i]) then selection == Refused(UnsupportedFeature)
    else selection == Refused(NoProvider)
  }

  /** The candidates are those of the first matching rule. */
  method SelectCandidates(req: Request, rules: seq<Rule>, g: Gateway) returns (selection: Selection)
    ensures ProtocolOf(req) == UnknownProtocol <==> selection == Refused(UnknownRequestProtocol)
    ensures ProtocolOf(req) != UnknownProtocol ==> (selection == Refused(NoMatchingRule) <==> forall i :: 0 <= i < |rules| ==> !Matches(req, rules[i]))
    ensures ProtocolOf(req) != UnknownProtocol && selection != Refused(NoMatchingRule) ==>
      exists i :: FirstMatch(req, rules, i) && SelectionFrom(req.(protocol := ProtocolOf(req)), g, rules[i], selection)
  {
    hide Collected, TargetWired;
    var protocol := ProtocolOf(req);
    if protocol == UnknownProtocol {
      return Refused(UnknownRequestProtocol);
    }
    var found := FindRule(req, rules);
    if found.None? {
      return Refused(NoMatchingRule);
    }
    var out, rejected := CollectCandidates(req.(protocol := protocol), g, rules[found.value]);
    selection := if out != [] then Selected(out) else if rejected then Refused(UnsupportedFeature) else Refused(NoProvider);
    assert FirstMatch(req, rules, found.value);
  }

  // --- What the candidates are ---

  /** The targets that have a route, in order. */
  function RoutedTargets(req: Request, g: Gateway, targets: seq<Target>): seq<nat> {
    if targets == [] then []
    else
      var n := |targets| - 1;
      RoutedTargets(req, g, targets[..n]) + if TargetRoute(req, g, targets[n]) == Nowhere then [] else [n]
  }

  lemma {:induction false} RoutedTargetsAre(req: Request, g: Gateway, targets: seq<Target>)
    ensures var at := RoutedTargets(req, g, targets);
            && (forall k :: 0 <= k < |at| ==> at[k] < |targets|) && (forall k, l :: 0 <= k < l < |at| ==> at[k] < at[l])
            && (forall i :: 0 <= i < |targets| ==> (i in at <==> TargetRoute(req, g, targets[i]) != Nowhere))
  {
    if targets != [] {
      hide TargetRoute;
      var n := |targets| - 1;
      RoutedTargetsAre(req, g, targets[..n]);
      var at, now := RoutedTargets(req, g, targets[..n]), RoutedTargets(req, g, targets);
      assert forall i :: 0 <= i < n ==> targets[..n][i] == targets[i];
      assert forall i :: i in now <==> i in at || (i == n && TargetRoute(req, g, targets[n]) != Nowhere);
    }
  }

  predicate IsCandidateAt(req: Request, g: Gateway, rule: Rule, targets: seq<Target>, at: nat, c: Candidate) {
    at < |targets| && TargetRoute(req, g, targets[at]) != Nowhere && c == CandidateOf(req, rule, targets[at], TargetRoute(req, g, targets[at]))
  }

  /** Sound and complete: in target order, one candidate for exactly the targets that have a route. */
  lemma {:induction false} OneCandidatePerRoutedTarget(req: Request, g: Gateway, rule: Rule, targets: seq<Target>)
    ensures var out := Collected(req, g, rule, targets);
            var at := RoutedTargets(req, g, targets);
            |out| == |at| && forall k :: 0 <= k < |at| ==> IsCandidateAt(req, g, rule, targets, at[k], out[k])
  {
    if targets != [] {
      hide TargetRoute, CandidateOf;
      var n := |targets| - 1;
      OneCandidatePerRoutedTarget(req, g, rule, targets[..n]);
      var out, at := Collected(req, g, rule, targets[..n]), RoutedTargets(req, g, targets[..n]);
      forall k | 0 <= k < |at| ensures IsCandidateAt(req, g, rule, targets, at[k], out[k]) {
        assert IsCandidateAt(req, g, rule, targets[..n], at[k], out[k]);
      }
    }
  }

  ghost predicate IsFirst(req: Request, edges: seq<Edge>, s: Snapshot, id: string, model: string, route: Route) {
    match route
    case Natively => false
    case Nowhere => forall e :: e in edges ==> !Passes(req, e, s, id, model)
    case Through(e) => e in edges && Passes(req, e, s, id, model) && forall f :: f in edges && Passes(req, f, s, id, model) ==> e.priority <= f.priority
  }

  lemma IsFirstSnoc(req: Request, edges: seq<Edge>, last: Edge, s: Snapshot, id: string, model: string, route: Route)
    requires Ascending(edges + [last]) && IsFirst(req, edges, s, id, model, route)
    ensures IsFirst(req, edges + [last], s, id, model,
                    if route != Nowhere then route else if Passes(req, last, s, id, model) then Through(last) else Nowhere)
  {
    hide Passes;
    var more := edges + [last];
    assert forall e :: e in more <==> e in edges || e == last;
    if route.Through? {
      var i :| 0 <= i < |edges| && edges[i] == route.edge;
      assert more[i] == route.edge && more[|edges|] == last;
    }
  }

  lemma {:induction false} FirstPassingIs(req: Request, edges: seq<Edge>, s: Snapshot, id: string, model: string)
    requires Ascending(edges)
    ensures IsFirst(req, edges, s, id, model, FirstPassing(req, edges, s, id, model))
  {
    hide Passes;
    if edges != [] {
      var init := edges[..|edges| - 1];
      FirstPassingIs(req, init, s, id, model);
      assert edges == init + [edges[|edges| - 1]];
      hide IsFirst;
      IsFirstSnoc(req, init, edges[|edges| - 1], s, id, model, FirstPassing(req, init, s, id, model));
    }
  }

  /** Native wins when its features hold; otherwise the edge of lowest priority that can carry the
      request; and there is no route exactly when neither can. */
  lemma RouteIs(req: Request, s: Snapshot, id: string, model: string)
    ensures var native := SupportsModel(s, id, model, req.protocol) && NativeFeatures(req, s, id, model, req.protocol);
            match RouteOf(req, s, id, model)
            case Natively => native
            case Nowhere => !native && forall e :: e in EDGES && e.source == req.protocol ==> !Passes(req, e, s, id, model)
            case Through(e) =>
              && !native && e in EDGES && e.source == req.protocol && Passes(req, e, s, id, model)
              && forall f :: f in EDGES && f.source == req.protocol && Passes(req, f, s, id, model) ==> e.priority <= f.priority
  {
    hide Passes, Sorted, Leaving, FirstPassing, NativeFeatures, SupportsModel;
    SortedIsAscending(Leaving(EDGES, req.protocol));
    LeavingHas(EDGES, req.protocol);
    FirstPassingIs(req, EdgesFor(req.protocol), s, id, model);
  }

  /** Two edges of one source never have the same priority, so the choice is unique. */
  lemma PrioritiesAreDistinct(e: Edge, f: Edge)
    requires e in EDGES && f in EDGES && e.source == f.source && e.priority == f.priority
    ensures e == f
  {
  }

  /** A request that only a native route can serve never gets a converting candidate. */
  lemma NativeOnlyIsNotConverted(req: Request, g: Gateway, rule: Rule, c: Candidate)
    requires req.requirements.Some? && (req.requirements.value.nativeOnly || req.requirements.value.unknownSemantic)
    requires c in Collected(req, g, rule, rule.targets)
    ensures c.convertTo.None? && c.path == req.endpoint && c.protocol == req.protocol
  {
    hide Collected, RoutedTargets, NativeFeatures, SupportsModel, FirstPassing;
    OneCandidatePerRoutedTarget(req, g, rule, rule.targets);
    RoutedTargetsAre(req, g, rule.targets);
    var k :| 0 <= k < |Collected(req, g, rule, rule.targets)| && Collected(req, g, rule, rule.targets)[k] == c;
    var t := rule.targets[RoutedTargets(req, g, rule.targets)[k]];
    RouteIs(req, ViewOf(g, t), t.provider, ModelOf(req, t));
  }
}
