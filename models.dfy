/** Model names: the configured OpenAI-to-Gemini name map, the resolution
    of a requested name to an upstream model (`Model.from_name` with its
    `UNSPECIFIED` fallback), and `list_models`. */
module Models {
  import opened Wrappers

  /** The configuration the request path reads. The model map is kept as the
      ordered entries of the Python dict (insertion order); a dict never holds
      a key twice, so the entries have distinct keys
      (`Distinct(MapKeys(modelMap))`, under which `LookupUnique` applies). */
  datatype Settings = Settings(allowedApiKeys: seq<string>, defaultModelName: string, modelMap: seq<(string, string)>)

  function MapKeys(entries: seq<(string, string)>): (ks: seq<string>)
    ensures |ks| == |entries|
  {
    seq(|entries|, i requires 0 <= i < |entries| => entries[i].0)
  }

  predicate Distinct(s: seq<string>) {
    forall i, j :: 0 <= i < j < |s| ==> s[i] != s[j]
  }

  /** `name in MAP` and `MAP[name]`: the value of the entry with that key. */
  function Lookup(entries: seq<(string, string)>, key: string): (r: Option<string>)
    ensures r.Some? <==> key in MapKeys(entries)
    ensures r.Some? ==> exists i :: 0 <= i < |entries| && entries[i] == (key, r.value)
  {
    if entries == [] then None
    else if entries[0].0 == key then
      assert MapKeys(entries)[0] == key;
      Some(entries[0].1)
    else
      var r := Lookup(entries[1..], key);
      assert MapKeys(entries) == [entries[0].0] + MapKeys(entries[1..]);
      assert r.Some? ==> exists i :: 0 <= i < |entries| && entries[i] == (key, r.value) by {
        if r.Some? {
          var i :| 0 <= i < |entries[1..]| && entries[1..][i] == (key, r.value);
          assert entries[i + 1] == (key, r.value);
        }
      }
      r
  }

  /** With distinct keys, as in a dict, the value found is that of the one
      entry carrying the key, wherever it stands. */
  lemma {:induction false} LookupUnique(entries: seq<(string, string)>, i: nat)
    requires Distinct(MapKeys(entries))
    requires i < |entries|
    ensures Lookup(entries, entries[i].0) == Some(entries[i].1)
    decreases i
  {
    if i > 0 {
      var tail := entries[1..];
      assert MapKeys(entries)[0] == entries[0].0 && MapKeys(entries)[i] == entries[i].0;
      assert forall a, b :: 0 <= a < b < |tail| ==> MapKeys(tail)[a] == MapKeys(entries)[a + 1] && MapKeys(tail)[b] == MapKeys(entries)[b + 1];
      LookupUnique(tail, i - 1);
      assert tail[i - 1] == entries[i];
    }
  }

  /** The upstream model identities: `gemini_webapi.constants.Model`. */
  datatype GeminiModel = GeminiModel(name: string)

  const Unspecified := GeminiModel("unspecified")

  /** `Model.from_name(name)`: the model of that name when the upstream
      library knows it (`known`, plus `unspecified` itself), else `ValueError`. */
  function FromName(name: string, known: set<string>): Option<GeminiModel> {
    if name in known || name == Unspecified.name then Some(GeminiModel(name)) else None
  }

  /** The upstream name chosen for a requested OpenAI model: its map value,
      or the configured default when the map has no such key. */
  function UpstreamModelName(requested: string, s: Settings): (name: string)
    ensures requested in MapKeys(s.modelMap) ==> Lookup(s.modelMap, requested) == Some(name)
    ensures requested !in MapKeys(s.modelMap) ==> name == s.defaultModelName
  {
    match Lookup(s.modelMap, requested)
    case Some(n) => n
    case None => s.defaultModelName
  }

  /** Model resolution never fails: an unrecognised name becomes `UNSPECIFIED`. */
  function ResolveModel(requested: string, s: Settings, known: set<string>): (m: GeminiModel)
    ensures var name := UpstreamModelName(requested, s);
      (name in known || name == Unspecified.name) <==> m == GeminiModel(name)
    ensures m != GeminiModel(UpstreamModelName(requested, s)) ==> m == Unspecified
  {
    var name := UpstreamModelName(requested, s);
    match FromName(name, known)
    case Some(m) => m
    case None => Unspecified
  }

  /** A request for a model the map does not name is served by the default,
      exactly as if the default's own name had been looked up. */
  lemma {:induction false} UnmappedModelUsesDefault(requested: string, s: Settings, known: set<string>)
    requires requested !in MapKeys(s.modelMap)
    ensures ResolveModel(requested, s, known)
         == (if s.defaultModelName in known || s.defaultModelName == "unspecified"
             then GeminiModel(s.defaultModelName) else Unspecified)
  {
  }

  // ----------------------------------------------------------- list_models

  datatype ModelCard = ModelCard(id: string, obj: string, created: int, ownedBy: string)

  datatype ModelListResponse = ModelListResponse(obj: string, data: seq<ModelCard>)

  function Ids(cards: seq<ModelCard>): (ids: seq<string>)
    ensures |ids| == |cards|
  {
    seq(|cards|, i requires 0 <= i < |cards| => cards[i].id)
  }

  /** The first occurrence of every element, in order. */
  function Dedup(s: seq<string>): seq<string> {
    if s == [] then []
    else
      var d := Dedup(s[..|s| - 1]);
      if s[|s| - 1] in d then d else d + [s[|s| - 1]]
  }

  /** `Dedup` keeps exactly the elements of its input, without repetition,
      and is the identity on a sequence without repetition. */
  lemma {:induction false} DedupSpec(s: seq<string>)
    ensures Distinct(Dedup(s))
    ensures forall x :: x in Dedup(s) <==> x in s
    ensures Distinct(s) ==> Dedup(s) == s
    decreases |s|
  {
    if s != [] {
      var init := s[..|s| - 1];
      var last := s[|s| - 1];
      DedupSpec(init);
      assert s == init + [last];
      assert Distinct(s) ==> Distinct(init) && last !in init;
    }
  }

  /** The model ids `list_models` advertises. */
  function AdvertisedIds(s: Settings): seq<string> {
    if |s.modelMap| > 0 then Dedup(MapKeys(s.modelMap))
    else if s.defaultModelName != "unspecified" then ["gpt-3.5-turbo"]
    else []
  }

  /** The advertised list: the map's keys in dict order without repetition;
      with no map, the single generic name unless the default is `unspecified`. */
  lemma {:induction false} AdvertisedIdsSpec(s: Settings)
    ensures Distinct(AdvertisedIds(s))
    ensures |s.modelMap| > 0 ==> forall x :: x in AdvertisedIds(s) <==> x in MapKeys(s.modelMap)
    ensures Distinct(MapKeys(s.modelMap)) ==> |s.modelMap| > 0 ==> AdvertisedIds(s) == MapKeys(s.modelMap)
    ensures |s.modelMap| == 0 && s.defaultModelName != "unspecified" ==> AdvertisedIds(s) == ["gpt-3.5-turbo"]
    ensures |s.modelMap| == 0 && s.defaultModelName == "unspecified" ==> AdvertisedIds(s) == []
  {
    DedupSpec(MapKeys(s.modelMap));
  }

  lemma {:induction false} IdsAppend(cards: seq<ModelCard>, c: ModelCard)
    ensures Ids(cards + [c]) == Ids(cards) + [c.id]
  {
  }

  /** `list_models`: one card per advertised id, all stamped with the same
      `created` time and owned by `proxy-engine`. */
  method ListModels(s: Settings, created: int) returns (r: ModelListResponse)
    ensures r.obj == "list"
    ensures Ids(r.data) == AdvertisedIds(s)
    ensures forall i :: 0 <= i < |r.data| ==>
      r.data[i].obj == "model" && r.data[i].created == created && r.data[i].ownedBy == "proxy-engine"
  {
    var modelData: seq<ModelCard> := [];
    var keys := MapKeys(s.modelMap);
    if |s.modelMap| > 0 {
      var i := 0;
      while i < |keys|
        invariant 0 <= i <= |keys|
        invariant Ids(modelData) == Dedup(keys[..i])
        invariant forall j :: 0 <= j < |modelData| ==>
          modelData[j].obj == "model" && modelData[j].created == created && modelData[j].ownedBy == "proxy-engine"
      {
        var name := keys[i];
        assert keys[..i + 1][..i] == keys[..i];
        if name !in Ids(modelData) {
          IdsAppend(modelData, ModelCard(name, "model", created, "proxy-engine"));
          modelData := modelData + [ModelCard(name, "model", created, "proxy-engine")];
        }
        i := i + 1;
      }
      assert keys[..i] == keys;
    }
    if |s.modelMap| == 0 && s.defaultModelName != "unspecified" {
      var genericDefaultId := "gpt-3.5-turbo";
      if genericDefaultId !in Ids(modelData) {
        IdsAppend(modelData, ModelCard(genericDefaultId, "model", created, "proxy-engine"));
        modelData := modelData + [ModelCard(genericDefaultId, "model", created, "proxy-engine")];
      }
    }
    r := ModelListResponse("list", modelData);
  }
}
