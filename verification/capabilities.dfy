/** The capability view of one request, filled from stored rows and looked up by precedence. */
module Capabilities {
  import opened Wrappers

  datatype Protocol = UnknownProtocol | OpenAI | OpenAIChat | OpenAIResponses | AnthropicMessages | Gemini | OtherProtocol(name: string)

  datatype Feature = Tools | Streaming | OtherFeature(name: string)

  /** The legacy fields of a provider. */
  datatype Provider = Provider(enabled: bool, responses: bool, messages: bool, gemini: bool)

  datatype Subject = Native | OfFeature(feature: Feature)

  /** A stored row about `key`, a provider or a model of a provider. */
  datatype Row<K> = Row(key: K, protocol: Protocol, subject: Subject, legacy: bool, enabled: bool)

  type ModelKey = (string, string)

  datatype Snapshot = Snapshot(
    providers: Option<map<string, map<Protocol, bool>>>,
    models: map<ModelKey, map<Protocol, bool>>,
    providerFeatures: map<(string, Protocol), map<Feature, bool>>,
    modelFeatures: map<(ModelKey, Protocol), map<Feature, bool>>)

  const NOTHING := Snapshot(None, map[], map[], map[])

  // --- What rows say ---

  /** The last row that is about `key`, `protocol` and `subject` and is no legacy row. */
  function LastRow<K(==)>(rows: seq<Row<K>>, key: K, protocol: Protocol, subject: Subject): Option<bool> {
    if rows == [] then None
    else
      var r := rows[|rows| - 1];
      if r.key == key && r.protocol == protocol && r.subject == subject && !r.legacy then Some(r.enabled)
      else LastRow(rows[..|rows| - 1], key, protocol, subject)
  }

  predicate HasNativeRow(rows: seq<Row<string>>, id: string) {
    exists i :: 0 <= i < |rows| && rows[i].key == id && rows[i].subject == Native && !rows[i].legacy
  }

  function Legacy(p: Provider): map<Protocol, bool> {
    map[OpenAIChat := true, OpenAI := true, OpenAIResponses := p.responses, AnthropicMessages := p.messages, Gemini := p.gemini]
  }

  function Get<K, V>(m: map<K, V>, key: K): Option<V> {
    if key in m then Some(m[key]) else None
  }

  function Get2<K, L, V>(m: map<K, map<L, V>>, key: K, inner: L): Option<V> {
    if key in m then Get(m[key], inner) else None
  }

  function Put2<K, L, V>(m: map<K, map<L, V>>, key: K, inner: L, value: V): map<K, map<L, V>> {
    m[key := (if key in m then m[key] else map[])[inner := value]]
  }

  function OrElse<V>(first: Option<V>, second: Option<V>): Option<V> {
    if first.Some? then first else second
  }

  function OfLegacy(providers: map<string, Provider>, id: string, protocol: Protocol): Option<bool> {
    if id in providers then Get(Legacy(providers[id]), protocol) else None
  }

  lemma Put2Gets<K, L, V>(m: map<K, map<L, V>>, key: K, inner: L, value: V)
    ensures forall k, l :: Get2(Put2(m, key, inner, value), k, l) == if k == key && l == inner then Some(value) else Get2(m, k, l)
  {
  }

  lemma LastRowMore<K>(rows: seq<Row<K>>, n: nat, key: K, protocol: Protocol, subject: Subject)
    requires n < |rows|
    ensures LastRow(rows[..n + 1], key, protocol, subject) ==
            (var r := rows[n];
             if r.key == key && r.protocol == protocol && r.subject == subject && !r.legacy then Some(r.enabled) else LastRow(rows[..n], key, protocol, subject))
  {
    assert rows[..n + 1][..n] == rows[..n];
  }

  // --- Filling the snapshot ---

  /** Rows are authoritative; the legacy fields of a provider only fill absent rows. */
  method NewSnapshot(rows: seq<Row<string>>, providers: map<string, Provider>) returns (s: Snapshot)
    ensures s.providers.Some? && s.models == map[] && s.modelFeatures == map[]
    ensures forall id :: id in s.providers.value <==> id in providers || HasNativeRow(rows, id)
    ensures forall id, protocol :: Get2(s.providers.value, id, protocol) == OrElse(LastRow(rows, id, protocol, Native), OfLegacy(providers, id, protocol))
    ensures forall id, protocol, feature :: Get2(s.providerFeatures, (id, protocol), feature) == LastRow(rows, id, protocol, OfFeature(feature))
  {
    hide Legacy, Get2, Put2, LastRow, HasNativeRow;
    var native := map id | id in providers :: Legacy(providers[id]);
    var features: map<(string, Protocol), map<Feature, bool>> := map[];
    forall key: string, protocol, subject ensures LastRow(rows[..0], key, protocol, subject) == None { NoRow(rows, key, protocol, subject); }
    NoNativeRow(rows);
    LegacyGets(providers, native);
    NothingGot(features);
    for n := 0 to |rows|
      invariant forall id :: id in native <==> id in providers || HasNativeRow(rows[..n], id)
      invariant forall id, protocol :: Get2(native, id, protocol) == OrElse(LastRow(rows[..n], id, protocol, Native), OfLegacy(providers, id, protocol))
      invariant forall id, protocol, feature :: Get2(features, (id, protocol), feature) == LastRow(rows[..n], id, protocol, OfFeature(feature))
    {
      var r := rows[n];
      forall id, protocol, subject { LastRowMore(rows, n, id, protocol, subject); }
      NativeRowMore(rows, n);
      if !r.legacy {
        match r.subject {
          case Native =>
            Put2Gets(native, r.key, r.protocol, r.enabled);
            Put2Keys(native, r.key, r.protocol, r.enabled);
            native := Put2(native, r.key, r.protocol, r.enabled);
          case OfFeature(feature) =>
            Put2Gets(features, (r.key, r.protocol), feature, r.enabled);
            features := Put2(features, (r.key, r.protocol), feature, r.enabled);
        }
      }
    }
    assert rows[..|rows|] == rows;
    s := Snapshot(Some(native), map[], features, map[]);
  }

  lemma NoRow<K>(rows: seq<Row<K>>, key: K, protocol: Protocol, subject: Subject)
    ensures LastRow(rows[..0], key, protocol, subject) == None
  {
  }

  lemma NoNativeRow(rows: seq<Row<string>>)
    ensures forall id :: !HasNativeRow(rows[..0], id)
  {
  }

  lemma NothingGot<K, L, V>(m: map<K, map<L, V>>)
    requires m == map[]
    ensures forall k, l :: Get2(m, k, l) == None
  {
  }

  lemma Put2Keys<K, L, V>(m: map<K, map<L, V>>, key: K, inner: L, value: V)
    ensures Put2(m, key, inner, value).Keys == m.Keys + {key}
  {
  }

  lemma LegacyGets(providers: map<string, Provider>, native: map<string, map<Protocol, bool>>)
    requires native == map id | id in providers :: Legacy(providers[id])
    ensures forall id, protocol :: Get2(native, id, protocol) == OfLegacy(providers, id, protocol)
  {
    hide Legacy;
  }

  lemma NativeRowMore(rows: seq<Row<string>>, n: nat)
    requires n < |rows|
    ensures forall id :: HasNativeRow(rows[..n + 1], id) <==> HasNativeRow(rows[..n], id) || (rows[n].key == id && rows[n].subject == Native && !rows[n].legacy)
  {
    forall id | HasNativeRow(rows[..n], id) || (rows[n].key == id && rows[n].subject == Native && !rows[n].legacy) ensures HasNativeRow(rows[..n + 1], id) {
      if HasNativeRow(rows[..n], id) {
        var i :| 0 <= i < n && rows[..n][i].key == id && rows[..n][i].subject == Native && !rows[..n][i].legacy;
        assert rows[..n + 1][i] == rows[..n][i];
      } else {
        assert rows[..n + 1][n] == rows[n];
      }
    }
    forall id | HasNativeRow(rows[..n + 1], id) ensures HasNativeRow(rows[..n], id) || (rows[n].key == id && rows[n].subject == Native && !rows[n].legacy) {
      var i :| 0 <= i < n + 1 && rows[..n + 1][i].key == id && rows[..n + 1][i].subject == Native && !rows[..n + 1][i].legacy;
      if i < n {
        assert rows[..n][i] == rows[..n + 1][i];
      }
    }
  }

  /** Model rows override what the snapshot already holds. */
  method WithModels(s: Snapshot, rows: seq<Row<ModelKey>>) returns (t: Snapshot)
    ensures t.providers == s.providers && t.providerFeatures == s.providerFeatures
    ensures forall key, protocol :: Get2(t.models, key, protocol) == OrElse(LastRow(rows, key, protocol, Native), Get2(s.models, key, protocol))
    ensures forall key, protocol, feature ::
      Get2(t.modelFeatures, (key, protocol), feature) == OrElse(LastRow(rows, key, protocol, OfFeature(feature)), Get2(s.modelFeatures, (key, protocol), feature))
  {
    hide Get2, Put2, LastRow;
    t := s;
    forall key: ModelKey, protocol, subject ensures LastRow(rows[..0], key, protocol, subject) == None { NoRow(rows, key, protocol, subject); }
    for n := 0 to |rows|
      invariant t.providers == s.providers && t.providerFeatures == s.providerFeatures
      invariant forall key, protocol :: Get2(t.models, key, protocol) == OrElse(LastRow(rows[..n], key, protocol, Native), Get2(s.models, key, protocol))
      invariant forall key, protocol, feature ::
        Get2(t.modelFeatures, (key, protocol), feature) == OrElse(LastRow(rows[..n], key, protocol, OfFeature(feature)), Get2(s.modelFeatures, (key, protocol), feature))
    {
      var r := rows[n];
      forall key, protocol, subject { LastRowMore(rows, n, key, protocol, subject); }
      if !r.legacy {
        match r.subject {
          case Native =>
            Put2Gets(t.models, r.key, r.protocol, r.enabled);
            t := t.(models := Put2(t.models, r.key, r.protocol, r.enabled));
          case OfFeature(feature) =>
            Put2Gets(t.modelFeatures, (r.key, r.protocol), feature, r.enabled);
            t := t.(modelFeatures := Put2(t.modelFeatures, (r.key, r.protocol), feature, r.enabled));
        }
      }
    }
    assert rows[..|rows|] == rows;
  }

  // --- Looking up ---

  predicate Known(s: Snapshot, id: string) {
    s.providers.Some? && id in s.providers.value
  }

  predicate Supports(s: Snapshot, id: string, protocol: Protocol) {
    Known(s, id) && Get(s.providers.value[id], protocol) == Some(true)
  }

  predicate SupportsModel(s: Snapshot, id: string, model: string, protocol: Protocol) {
    var row := Get2(s.models, (id, model), protocol);
    if row.Some? then Known(s, id) && row.value else Supports(s, id, protocol)
  }

  predicate ModelNativeEnabled(s: Snapshot, id: string, model: string, protocol: Protocol) {
    Get2(s.models, (id, model), protocol) == Some(true)
  }

  predicate FeatureEnabled(s: Snapshot, id: string, model: string, protocol: Protocol, feature: Feature, enforce: bool) {
    if !Known(s, id) then false
    else
      var ofModel := Get2(s.modelFeatures, ((id, model), protocol), feature);
      var ofProvider := Get2(s.providerFeatures, (id, protocol), feature);
      if ofModel.Some? then ofModel.value
      else if ofProvider.Some? then ofProvider.value
      else if feature == Tools && ModelNativeEnabled(s, id, model, protocol) then true
      else if feature == Streaming then true
      else !enforce
  }

  /** Precedence, from the stored rows: the last model row, then the last provider row, then the
      default: streaming always, tools where a model row enables the protocol, anything when features
      are only observed.  A provider that is neither listed nor has a row supports nothing. */
  method LookUp(rows: seq<Row<string>>, providers: map<string, Provider>, modelRows: seq<Row<ModelKey>>,
                id: string, model: string, protocol: Protocol, feature: Feature, enforce: bool)
    returns (enabled: bool, native: bool)
    ensures var known := id in providers || HasNativeRow(rows, id);
            var ofModel := LastRow(modelRows, (id, model), protocol, OfFeature(feature));
            var ofProvider := LastRow(rows, id, protocol, OfFeature(feature));
            enabled <==> known && if ofModel.Some? then ofModel.value
                                  else if ofProvider.Some? then ofProvider.value
                                  else feature == Streaming || !enforce || (feature == Tools && LastRow(modelRows, (id, model), protocol, Native) == Some(true))
    ensures var known := id in providers || HasNativeRow(rows, id);
            var ofModel := LastRow(modelRows, (id, model), protocol, Native);
            var ofProvider := LastRow(rows, id, protocol, Native);
            native <==> known && if ofModel.Some? then ofModel.value
                                 else if ofProvider.Some? then ofProvider.value
                                 else id in providers && Get(Legacy(providers[id]), protocol) == Some(true)
  {
    hide Legacy, HasNativeRow, LastRow;
    var s := NewSnapshot(rows, providers);
    s := WithModels(s, modelRows);
    assert Get2(s.providers.value, id, protocol) == (if Known(s, id) then Get(s.providers.value[id], protocol) else None);
    enabled := FeatureEnabled(s, id, model, protocol, feature, enforce);
    native := SupportsModel(s, id, model, protocol);
  }
}
