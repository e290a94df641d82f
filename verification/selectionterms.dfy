/** The selection of candidates in plain terms: which targets serve a request, and how. */
module SelectionTerms {
  import opened Wrappers
  import opened Capabilities
  import opened Matcher

  // --- Targets and routes ---

  /** A target that may be used at all: enabled, of a known and enabled provider whose breaker admits. */
  predicate Usable(g: Gateway, t: Target) {
    t.enabled && g.admits(t.provider) && match g.provider(t.provider)
                                         case None => false
                                         case Some(p) => p.enabled
  }

  /** The features that the request says it needs. */
  function Needs(req: Request): seq<Feature> {
    if req.requirements.Some? then req.requirements.value.features else []
  }

  predicate HasAll(s: Snapshot, id: string, model: string, protocol: Protocol, features: seq<Feature>, enforce: bool) {
    forall i :: 0 <= i < |features| ==> FeatureEnabled(s, id, model, protocol, features[i], enforce)
  }

  /** The provider's model speaks the request's own protocol and has what it needs. */
  predicate Native(req: Request, s: Snapshot, id: string, model: string) {
    SupportsModel(s, id, model, req.protocol) && HasAll(s, id, model, req.protocol, Needs(req), req.enforce)
  }

  /** Only text and tools survive a conversion. */
  predicate Convertible(req: Request) {
    req.requirements.Some? ==>
      !req.requirements.value.nativeOnly && !req.requirements.value.unknownSemantic
      && forall i :: 0 <= i < |Needs(req)| ==> Needs(req)[i] == Tools || Needs(req)[i] == Streaming
  }

  predicate Textual(p: Protocol) {
    p == AnthropicMessages || p == OpenAIResponses || p == OpenAIChat
  }

  function PathOf(p: Protocol): string {
    match p
    case AnthropicMessages => "/v1/messages"
    case OpenAIResponses => "/v1/responses"
    case OpenAIChat => "/v1/chat/completions"
    case _ => ""
  }

  /** The protocols a request can be converted to, the preferred one first. */
  function ConvertsTo(p: Protocol): seq<Protocol> {
    match p
    case AnthropicMessages => [OpenAIResponses, OpenAIChat]
    case OpenAIResponses => [AnthropicMessages, OpenAIChat]
    case OpenAIChat => [OpenAIResponses, AnthropicMessages]
    case _ => []
  }

  predicate Serves(req: Request, s: Snapshot, id: string, model: string, to: Protocol) {
    SupportsModel(s, id, model, to) && Convertible(req) && HasAll(s, id, model, to, Needs(req), req.enforce)
  }

  /** The preferred protocol that the provider's model serves. */
  function FirstServed(req: Request, s: Snapshot, id: string, model: string, tos: seq<Protocol>): Option<Protocol> {
    if tos == [] then None
    else if Serves(req, s, id, model, tos[0]) then Some(tos[0])
    else FirstServed(req, s, id, model, tos[1..])
  }

  // --- Edges ---

  lemma EdgeIs(e: Edge)
    requires e in EDGES
    ensures e.path == PathOf(e.to) && e.streams && Textual(e.source) && Textual(e.to) && e.source != e.to
  {
    var i :| 0 <= i < 6 && EDGES[i] == e;
  }

  /** The preferred target of a source has the lowest priority. */
  lemma PreferredIsLowest(e: Edge)
    requires e in EDGES
    ensures e.to in ConvertsTo(e.source)
    ensures e.priority == if e.to == ConvertsTo(e.source)[0] then 10 else 20
  {
    hide PathOf;
    var i :| 0 <= i < 6 && EDGES[i] == e;
  }

  lemma EdgeBetween(source: Protocol, to: Protocol) returns (e: Edge)
    requires Textual(source) && Textual(to) && source != to
    ensures e in EDGES && e.source == source && e.to == to
  {
    var i :=
      if to == OpenAIResponses then (if source == AnthropicMessages then 0 else 2)
      else if to == AnthropicMessages then (if source == OpenAIResponses then 1 else 3)
      else if source == AnthropicMessages then 4 else 5;
    e := EDGES[i];
  }

  /** Conversion goes between any two of the three text protocols and nowhere else; an edge leads to the
      endpoint of its target, streams, and leads to the preferred protocol first. */
  lemma EdgesExactly(source: Protocol, to: Protocol)
    ensures (exists e :: e in EDGES && e.source == source && e.to == to) <==> Textual(source) && Textual(to) && source != to
    ensures forall e :: e in EDGES ==> e.path == PathOf(e.to) && e.streams && e.to in ConvertsTo(e.source)
    ensures forall e, f :: e in EDGES && f in EDGES && e.source == f.source && e.to != f.to ==> (e.priority < f.priority <==> e.to == ConvertsTo(e.source)[0])
  {
    hide *;
    forall e | e in EDGES ensures e.path == PathOf(e.to) && e.streams && e.to in ConvertsTo(e.source) && Textual(e.source) && Textual(e.to) && e.source != e.to
                                  && e.priority == if e.to == ConvertsTo(e.source)[0] then 10 else 20 {
      EdgeIs(e);
      PreferredIsLowest(e);
    }
    if Textual(source) && Textual(to) && source != to {
      var e := EdgeBetween(source, to);
    }
    forall e, f | e in EDGES && f in EDGES && e.source == f.source && e.to != f.to ensures e.priority < f.priority <==> e.to == ConvertsTo(e.source)[0] {
      TwoTargets(e.source, e.to, f.to);
    }
  }

  lemma TwoTargets(source: Protocol, to: Protocol, other: Protocol)
    requires to in ConvertsTo(source) && other in ConvertsTo(source) && to != other
    ensures to == ConvertsTo(source)[0] <==> other != ConvertsTo(source)[0]
  {
  }

  lemma PassesExactly(req: Request, e: Edge, s: Snapshot, id: string, model: string)
    requires e.streams
    ensures Passes(req, e, s, id, model) <==> Serves(req, s, id, model, e.to)
  {
    hide SupportsModel, FeatureEnabled;
  }

  lemma NativeExactly(req: Request, s: Snapshot, id: string, model: string)
    ensures Native(req, s, id, model) <==> SupportsModel(s, id, model, req.protocol) && NativeFeatures(req, s, id, model, req.protocol)
  {
    hide SupportsModel, FeatureEnabled;
  }

  predicate IsRoute(req: Request, s: Snapshot, id: string, model: string, route: Route) {
    var served := FirstServed(req, s, id, model, ConvertsTo(req.protocol));
    if Native(req, s, id, model) then route == Natively
    else match served
      case None => route == Nowhere
      case Some(to) => route.Through? && route.edge.to == to && route.edge.path == PathOf(to) && to != req.protocol
  }

  lemma FirstOfTwo(req: Request, s: Snapshot, id: string, model: string)
    ensures var tos := ConvertsTo(req.protocol);
            FirstServed(req, s, id, model, tos) ==
            if tos == [] then None
            else if Serves(req, s, id, model, tos[0]) then Some(tos[0])
            else if Serves(req, s, id, model, tos[1]) then Some(tos[1])
            else None
  {
    hide Serves;
    var tos := ConvertsTo(req.protocol);
    if tos != [] {
      assert tos[1..] == [tos[1]] && tos[1..][1..] == [];
      assert FirstServed(req, s, id, model, tos[1..][1..]) == None;
    }
  }

  lemma EdgeServes(req: Request, s: Snapshot, id: string, model: string, e: Edge)
    requires e in EDGES
    ensures e.path == PathOf(e.to) && e.source != e.to && e.to in ConvertsTo(e.source)
    ensures e.priority == if e.to == ConvertsTo(e.source)[0] then 10 else 20
    ensures Passes(req, e, s, id, model) <==> Serves(req, s, id, model, e.to)
  {
    hide Serves, Passes, PathOf, ConvertsTo;
    EdgeIs(e);
    PreferredIsLowest(e);
    PassesExactly(req, e, s, id, model);
  }

  /** No edge passes: no protocol is served. */
  lemma NoneServed(req: Request, s: Snapshot, id: string, model: string)
    requires forall e :: e in EDGES && e.source == req.protocol ==> !Passes(req, e, s, id, model)
    ensures FirstServed(req, s, id, model, ConvertsTo(req.protocol)) == None
  {
    hide Serves, Passes, PathOf, FirstServed;
    FirstOfTwo(req, s, id, model);
    var tos := ConvertsTo(req.protocol);
    if tos != [] {
      var e := EdgeBetween(req.protocol, tos[0]);
      var f := EdgeBetween(req.protocol, tos[1]);
      EdgeServes(req, s, id, model, e);
      EdgeServes(req, s, id, model, f);
    }
  }

  /** The passing edge of lowest priority leads to the preferred protocol that is served. */
  lemma LowestServed(req: Request, s: Snapshot, id: string, model: string, e: Edge)
    requires e in EDGES && e.source == req.protocol && Passes(req, e, s, id, model)
    requires forall f :: f in EDGES && f.source == req.protocol && Passes(req, f, s, id, model) ==> e.priority <= f.priority
    ensures FirstServed(req, s, id, model, ConvertsTo(req.protocol)) == Some(e.to)
  {
    hide Serves, Passes, PathOf, FirstServed;
    FirstOfTwo(req, s, id, model);
    EdgeServes(req, s, id, model, e);
    var tos := ConvertsTo(req.protocol);
    var f := EdgeBetween(req.protocol, tos[0]);
    EdgeServes(req, s, id, model, f);
  }

  /** The route of a provider's model: native when it has what the request needs; otherwise, only for text
      and tools, the first of the other text protocols that it serves; otherwise none. */
  lemma RouteInTerms(req: Request, s: Snapshot, id: string, model: string)
    ensures IsRoute(req, s, id, model, RouteOf(req, s, id, model))
  {
    RouteIs(req, s, id, model);
    NativeExactly(req, s, id, model);
    hide Serves, Passes, Native, FirstServed, RouteOf, SupportsModel, NativeFeatures, PathOf, ConvertsTo;
    match RouteOf(req, s, id, model)
    case Natively =>
    case Nowhere => NoneServed(req, s, id, model);
    case Through(e) =>
      EdgeServes(req, s, id, model, e);
      LowestServed(req, s, id, model, e);
  }

  // --- Candidates ---

  /** The candidate that a target gives, in terms of the request, the rule and the target. */
  predicate IsCandidateFor(req: Request, g: Gateway, rule: Rule, t: Target, c: Candidate) {
    g.provider(t.provider).Some? &&
    var s, model := ViewOf(g, t), if t.model == "" then req.model else t.model;
    && c.provider == t.provider && c.model == model && c.protocol == req.protocol && c.ruleId == rule.id && c.targetId == t.id && c.maxRetries == t.maxRetries
    && (if Native(req, s, t.provider, model) then c.convertTo == None && c.path == req.endpoint
        else c.convertTo.Some? && c.convertTo == FirstServed(req, s, t.provider, model, ConvertsTo(req.protocol)) && c.path == PathOf(c.convertTo.value))
  }

  predicate HasRoute(req: Request, g: Gateway, t: Target) {
    Usable(g, t) &&
    var s, model := ViewOf(g, t), if t.model == "" then req.model else t.model;
    Native(req, s, t.provider, model) || FirstServed(req, s, t.provider, model, ConvertsTo(req.protocol)).Some?
  }

  lemma TargetInTerms(req: Request, g: Gateway, rule: Rule, t: Target)
    ensures TargetRoute(req, g, t) != Nowhere <==> HasRoute(req, g, t)
    ensures HasRoute(req, g, t) ==> IsCandidateFor(req, g, rule, t, CandidateOf(req, rule, t, TargetRoute(req, g, t)))
  {
    hide RouteOf, Native, FirstServed, View;
    assert Available(g, t) <==> Usable(g, t);
    if Available(g, t) {
      RouteInTerms(req, ViewOf(g, t), t.provider, ModelOf(req, t));
    }
  }

  /** In target order: exactly the targets with a route give a candidate, each the one it should. */
  lemma CandidatesInTerms(req: Request, g: Gateway, rule: Rule) returns (at: seq<nat>)
    ensures var out := Collected(req, g, rule, rule.targets);
            && |out| == |at| && (forall k :: 0 <= k < |at| ==> at[k] < |rule.targets|) && (forall k, l :: 0 <= k < l < |at| ==> at[k] < at[l])
            && (forall i :: 0 <= i < |rule.targets| ==> (i in at <==> HasRoute(req, g, rule.targets[i])))
            && (forall k :: 0 <= k < |at| ==> HasRoute(req, g, rule.targets[at[k]]) && IsCandidateFor(req, g, rule, rule.targets[at[k]], out[k]))
  {
    hide HasRoute, IsCandidateFor, TargetRoute, CandidateOf;
    at := RoutedTargets(req, g, rule.targets);
    RoutedTargetsAre(req, g, rule.targets);
    OneCandidatePerRoutedTarget(req, g, rule, rule.targets);
    var out := Collected(req, g, rule, rule.targets);
    forall i | 0 <= i < |rule.targets| ensures TargetRoute(req, g, rule.targets[i]) != Nowhere <==> HasRoute(req, g, rule.targets[i]) {
      TargetInTerms(req, g, rule, rule.targets[i]);
    }
    forall k | 0 <= k < |at| ensures HasRoute(req, g, rule.targets[at[k]]) && IsCandidateFor(req, g, rule, rule.targets[at[k]], out[k]) {
      assert IsCandidateAt(req, g, rule, rule.targets, at[k], out[k]);
      TargetInTerms(req, g, rule, rule.targets[at[k]]);
    }
  }

  /** The protocol of a request without one: its kind names it, and without a kind only the Chat endpoint
      or none at all is Chat. */
  lemma ProtocolExactly(req: Request)
    requires req.protocol == UnknownProtocol
    ensures ProtocolOf(req) == OpenAIResponses <==> req.task == "responses"
    ensures ProtocolOf(req) == AnthropicMessages <==> req.task == "messages"
    ensures ProtocolOf(req) == Gemini <==> req.task == "gemini"
    ensures ProtocolOf(req) == OpenAIChat <==>
            req.task == "" && (req.endpoint == "" || req.endpoint == "/" || req.endpoint == "/v1/chat/completions" || req.endpoint == "/v1/chat/completions/")
    ensures ProtocolOf(req) in {OpenAIResponses, AnthropicMessages, Gemini, OpenAIChat, UnknownProtocol}
  {
    var chat := "/v1/chat/completions";
    assert (chat + "/")[..|chat|] == chat && chat[|chat| - 1] == 's';
    if req.endpoint != "" && req.endpoint[|req.endpoint| - 1] == '/' {
      assert req.endpoint == req.endpoint[..|req.endpoint| - 1] + "/";
    }
  }

  /** Without rows a listed provider speaks Chat always, and the other protocols as its own fields say;
      nothing else. */
  lemma LegacyExactly(providers: map<string, Provider>, id: string, protocol: Protocol)
    requires id in providers
    ensures OfLegacy(providers, id, protocol) == Some(true) <==>
            protocol == OpenAIChat || protocol == OpenAI || (protocol == OpenAIResponses && providers[id].responses)
            || (protocol == AnthropicMessages && providers[id].messages) || (protocol == Gemini && providers[id].gemini)
  {
  }
}
