/** The renderer's settings store: the three provider -> model lists
    (every model, the enabled ones, the custom ones), their in-place
    updates when a model is switched on or off, the refresh upserts, the
    search-assistant priority search and the Ollama pull-progress map.

    The config and provider presenters behind the IPC proxy are not part of
    the model: what they return (stored models, custom models, model
    status) is passed in. */
module Settings {
  import opened Wrappers

  /** `RENDERER_MODEL_META`. */
  datatype ModelMeta = ModelMeta(
    id: string,
    name: string,
    group: string,
    providerId: string,
    isCustom: bool,
    contextLength: int,
    maxTokens: int,
    enabled: bool)

  /** One `{ providerId, models }` entry of a model list. */
  datatype ProviderModels = ProviderModels(providerId: string, models: seq<ModelMeta>)

  datatype Provider = Provider(id: string, enable: bool)

  /** The search-assistant priorities, most wanted first. */
  const PriorityKeys: seq<string> :=
    ["gpt-3.5", "Qwen2.5-32B", "Qwen2.5-14B", "Qwen2.5-7B", "14B", "7B", "32B", "deepseek-chat"]

  const OllamaId: string := "ollama"

  // ---------------------------------------------------------------------
  // Lookups
  // ---------------------------------------------------------------------

  /** `findIndex((p) => p.providerId === providerId)`. */
  function EntryIndex(lists: seq<ProviderModels>, providerId: string): (r: Option<nat>)
    ensures r.Some? ==> r.value < |lists| && lists[r.value].providerId == providerId
    ensures r.Some? ==> forall k :: 0 <= k < r.value ==> lists[k].providerId != providerId
    ensures r.None? ==> forall k :: 0 <= k < |lists| ==> lists[k].providerId != providerId
  {
    if lists == [] then None
    else if lists[0].providerId == providerId then Some(0)
    else
      var rest := EntryIndex(lists[1..], providerId);
      if rest.Some? then Some(rest.value + 1) else None
  }

  /** `findIndex((m) => m.id === modelId)`. */
  function ModelIndex(models: seq<ModelMeta>, modelId: string): (r: Option<nat>)
    ensures r.Some? ==> r.value < |models| && models[r.value].id == modelId
    ensures r.Some? ==> forall k :: 0 <= k < r.value ==> models[k].id != modelId
    ensures r.None? ==> forall k :: 0 <= k < |models| ==> models[k].id != modelId
  {
    if models == [] then None
    else if models[0].id == modelId then Some(0)
    else
      var rest := ModelIndex(models[1..], modelId);
      if rest.Some? then Some(rest.value + 1) else None
  }

  /** No provider id occurs twice in a list. */
  predicate UniqueProviders(lists: seq<ProviderModels>)
  {
    forall i, j :: 0 <= i < j < |lists| ==> lists[i].providerId != lists[j].providerId
  }

  // ---------------------------------------------------------------------
  // Switching a model on or off
  // ---------------------------------------------------------------------

  /** The model of entry `k` at position `m` is the first model with that
      id in the first entry of that provider. */
  predicate IsTarget(lists: seq<ProviderModels>, providerId: string, modelId: string, k: int, m: int)
    requires 0 <= k < |lists|
  {
    EntryIndex(lists, providerId) == Some(k) && ModelIndex(lists[k].models, modelId) == Some(m)
  }

  /** `models[modelIndex].enabled = enabled` on the first matching model of
      the first matching entry; every other entry, model and field keeps
      its value. */
  function SetEnabled(lists: seq<ProviderModels>, providerId: string, modelId: string, flag: bool)
    : (r: seq<ProviderModels>)
    ensures |r| == |lists|
    ensures forall k :: 0 <= k < |lists| ==>
              r[k].providerId == lists[k].providerId && |r[k].models| == |lists[k].models|
    ensures forall k, m :: 0 <= k < |lists| && 0 <= m < |lists[k].models| ==>
              r[k].models[m] == if IsTarget(lists, providerId, modelId, k, m)
                                then lists[k].models[m].(enabled := flag)
                                else lists[k].models[m]
  {
    var e := EntryIndex(lists, providerId);
    if e.None? then lists
    else
      var models := lists[e.value].models;
      var mi := ModelIndex(models, modelId);
      if mi.None? then lists
      else lists[e.value := lists[e.value].(models := models[mi.value := models[mi.value].(enabled := flag)])]
  }

  /** Setting the same flag twice is setting it once. */
  lemma SetEnabledIdempotent(lists: seq<ProviderModels>, providerId: string, modelId: string, flag: bool)
    ensures SetEnabled(SetEnabled(lists, providerId, modelId, flag), providerId, modelId, flag)
            == SetEnabled(lists, providerId, modelId, flag)
  {
    var once := SetEnabled(lists, providerId, modelId, flag);
    var twice := SetEnabled(once, providerId, modelId, flag);
    SameIds(lists, once, providerId, modelId);
    forall k | 0 <= k < |lists| ensures twice[k] == once[k] {
      assert |twice[k].models| == |once[k].models|;
      forall m | 0 <= m < |once[k].models| ensures twice[k].models[m] == once[k].models[m] {
        assert IsTarget(once, providerId, modelId, k, m) == IsTarget(lists, providerId, modelId, k, m);
      }
    }
  }

  /** Changing flags moves no entry and no model id, so the targets stay
      where they were. */
  lemma SameIds(lists: seq<ProviderModels>, changed: seq<ProviderModels>, providerId: string, modelId: string)
    requires |changed| == |lists|
    requires forall k :: 0 <= k < |lists| ==>
               changed[k].providerId == lists[k].providerId && |changed[k].models| == |lists[k].models|
    requires forall k, m :: 0 <= k < |lists| && 0 <= m < |lists[k].models| ==>
               changed[k].models[m].id == lists[k].models[m].id
    ensures EntryIndex(changed, providerId) == EntryIndex(lists, providerId)
    ensures forall k :: 0 <= k < |lists| ==> ModelIndex(changed[k].models, modelId) == ModelIndex(lists[k].models, modelId)
  {
    EntryIndexSameIds(lists, changed, providerId);
    forall k | 0 <= k < |lists|
      ensures ModelIndex(changed[k].models, modelId) == ModelIndex(lists[k].models, modelId)
    {
      ModelIndexSameIds(lists[k].models, changed[k].models, modelId);
    }
  }

  lemma EntryIndexSameIds(lists: seq<ProviderModels>, changed: seq<ProviderModels>, providerId: string)
    requires |changed| == |lists|
    requires forall k :: 0 <= k < |lists| ==> changed[k].providerId == lists[k].providerId
    ensures EntryIndex(changed, providerId) == EntryIndex(lists, providerId)
  {
    var a, b := EntryIndex(lists, providerId), EntryIndex(changed, providerId);
    if a.Some? && b.Some? {
      assert !(a.value < b.value) && !(b.value < a.value);
    }
  }

  lemma ModelIndexSameIds(models: seq<ModelMeta>, changed: seq<ModelMeta>, modelId: string)
    requires |changed| == |models|
    requires forall m :: 0 <= m < |models| ==> changed[m].id == models[m].id
    ensures ModelIndex(changed, modelId) == ModelIndex(models, modelId)
  {
    var a, b := ModelIndex(models, modelId), ModelIndex(changed, modelId);
    if a.Some? && b.Some? {
      assert !(a.value < b.value) && !(b.value < a.value);
    }
  }

  /** `models.splice(modelIndex, 1)` for the first model with that id. */
  function RemoveFirst(models: seq<ModelMeta>, modelId: string): (r: seq<ModelMeta>)
    ensures ModelIndex(models, modelId).None? ==> r == models
    ensures ModelIndex(models, modelId).Some? ==>
              var j := ModelIndex(models, modelId).value;
              && |r| == |models| - 1
              && (forall k :: 0 <= k < j ==> r[k] == models[k])
              && (forall k :: j <= k < |r| ==> r[k] == models[k + 1])
  {
    var j := ModelIndex(models, modelId);
    if j.None? then models else models[..j.value] + models[j.value + 1..]
  }

  /** How many models carry the id. */
  function CountId(models: seq<ModelMeta>, modelId: string): nat
  {
    if models == [] then 0
    else CountId(models[..|models| - 1], modelId) + (if models[|models| - 1].id == modelId then 1 else 0)
  }

  lemma {:induction false} CountIdAppend(a: seq<ModelMeta>, b: seq<ModelMeta>, modelId: string)
    ensures CountId(a + b, modelId) == CountId(a, modelId) + CountId(b, modelId)
    decreases |b|
  {
    if b == [] {
      assert a + b == a;
    } else {
      var front := b[..|b| - 1];
      CountIdAppend(a, front, modelId);
      assert (a + b)[..|a + b| - 1] == a + front;
      assert (a + b)[|a + b| - 1] == b[|b| - 1];
    }
  }

  lemma {:induction false} CountIdZero(models: seq<ModelMeta>, modelId: string)
    ensures CountId(models, modelId) == 0 <==> forall k :: 0 <= k < |models| ==> models[k].id != modelId
  {
    if models != [] {
      var front := models[..|models| - 1];
      CountIdZero(front, modelId);
      assert forall k :: 0 <= k < |front| ==> front[k] == models[k];
    }
  }

  /** Disabling removes exactly one model with the id when there is one. */
  lemma RemoveFirstCount(models: seq<ModelMeta>, modelId: string)
    ensures ModelIndex(models, modelId).Some? ==>
              CountId(RemoveFirst(models, modelId), modelId) == CountId(models, modelId) - 1
    ensures ModelIndex(models, modelId).None? ==> CountId(models, modelId) == 0
  {
    var j := ModelIndex(models, modelId);
    if j.Some? {
      var i := j.value;
      assert models == models[..i] + [models[i]] + models[i + 1..];
      CountIdAppend(models[..i] + [models[i]], models[i + 1..], modelId);
      CountIdAppend(models[..i], [models[i]], modelId);
      CountIdAppend(models[..i], models[i + 1..], modelId);
      assert CountId([models[i]], modelId) == 1 by {
        assert [models[i]][..0] == [];
      }
    } else {
      CountIdZero(models, modelId);
    }
  }

  /** The enabled entry after a switch: enabling appends an enabled copy of
      the model from the full list when the entry lacks it, disabling
      splices out the first copy; without an entry nothing changes. */
  function SwitchEnabled(enabledModels: seq<ProviderModels>, allModels: seq<ProviderModels>,
                         providerId: string, modelId: string, flag: bool): (r: seq<ProviderModels>)
    ensures |r| == |enabledModels|
    ensures forall k :: 0 <= k < |enabledModels| && EntryIndex(enabledModels, providerId) != Some(k) ==>
              r[k] == enabledModels[k]
    ensures forall k :: 0 <= k < |enabledModels| ==> r[k].providerId == enabledModels[k].providerId
  {
    var e := EntryIndex(enabledModels, providerId);
    if e.None? then enabledModels
    else
      var models := enabledModels[e.value].models;
      if flag then
        var source := EntryIndex(allModels, providerId);
        if ModelIndex(models, modelId).None? && source.Some? && ModelIndex(allModels[source.value].models, modelId).Some? then
          var model := allModels[source.value].models[ModelIndex(allModels[source.value].models, modelId).value];
          enabledModels[e.value := ProviderModels(providerId, models + [model.(enabled := true)])]
        else enabledModels
      else enabledModels[e.value := ProviderModels(providerId, RemoveFirst(models, modelId))]
  }

  /** Enabling: when the provider's enabled entry lacks the model and the
      full list has it, the entry gains an enabled copy at its end; in every
      other case nothing changes, so a second enable is a no-op. */
  lemma EnableAppendsCopy(enabledModels: seq<ProviderModels>, allModels: seq<ProviderModels>,
                          providerId: string, modelId: string)
    requires EntryIndex(enabledModels, providerId).Some?
    ensures var r := SwitchEnabled(enabledModels, allModels, providerId, modelId, true);
            var e := EntryIndex(enabledModels, providerId).value;
            var source := EntryIndex(allModels, providerId);
            && (ModelIndex(enabledModels[e].models, modelId).None? && source.Some? &&
                ModelIndex(allModels[source.value].models, modelId).Some? ==>
                  var model := allModels[source.value].models[ModelIndex(allModels[source.value].models, modelId).value];
                  && model.id == modelId
                  && r[e] == ProviderModels(providerId, enabledModels[e].models + [model.(enabled := true)]))
            && (ModelIndex(enabledModels[e].models, modelId).Some? ==> r == enabledModels)
            && (source.Some? && ModelIndex(allModels[source.value].models, modelId).Some? ==>
                  ModelIndex(r[e].models, modelId).Some?)
            && SwitchEnabled(r, allModels, providerId, modelId, true) == r
  {
    var r := SwitchEnabled(enabledModels, allModels, providerId, modelId, true);
    var e := EntryIndex(enabledModels, providerId).value;
    EntryIndexSameIds(enabledModels, r, providerId);
    var models := enabledModels[e].models;
    if ModelIndex(models, modelId).None? && r != enabledModels {
      var added := r[e].models;
      assert added[|added| - 1].id == modelId;
    }
  }

  /** Disabling: the provider's enabled entry loses exactly one model with
      the id, the first, when it has one; the others keep their order. */
  lemma DisableRemovesFirst(enabledModels: seq<ProviderModels>, allModels: seq<ProviderModels>,
                            providerId: string, modelId: string)
    requires EntryIndex(enabledModels, providerId).Some?
    ensures var r := SwitchEnabled(enabledModels, allModels, providerId, modelId, false);
            var e := EntryIndex(enabledModels, providerId).value;
            && r[e] == ProviderModels(providerId, RemoveFirst(enabledModels[e].models, modelId))
            && (ModelIndex(enabledModels[e].models, modelId).Some? ==>
                  CountId(r[e].models, modelId) == CountId(enabledModels[e].models, modelId) - 1)
            && (ModelIndex(enabledModels[e].models, modelId).None? ==> r == enabledModels)
  {
    var e := EntryIndex(enabledModels, providerId).value;
    RemoveFirstCount(enabledModels[e].models, modelId);
  }

  // ---------------------------------------------------------------------
  // Refresh upserts
  // ---------------------------------------------------------------------

  /** Replace the models of the provider's entry, or append a new entry. */
  function Upsert(lists: seq<ProviderModels>, providerId: string, models: seq<ModelMeta>): (r: seq<ProviderModels>)
    ensures EntryIndex(lists, providerId).Some? ==>
              |r| == |lists| && r[EntryIndex(lists, providerId).value] == ProviderModels(providerId, models)
    ensures EntryIndex(lists, providerId).None? ==> r == lists + [ProviderModels(providerId, models)]
    ensures forall k :: 0 <= k < |lists| && EntryIndex(lists, providerId) != Some(k) ==> r[k] == lists[k]
  {
    var e := EntryIndex(lists, providerId);
    if e.Some? then lists[e.value := ProviderModels(providerId, models)]
    else lists + [ProviderModels(providerId, models)]
  }

  /** Upserting keeps provider ids unique, and the provider's entry then
      holds exactly the new models. */
  lemma UpsertUnique(lists: seq<ProviderModels>, providerId: string, models: seq<ModelMeta>)
    requires UniqueProviders(lists)
    ensures var r := Upsert(lists, providerId, models);
            && UniqueProviders(r)
            && EntryIndex(r, providerId).Some?
            && r[EntryIndex(r, providerId).value].models == models
  {
    var r := Upsert(lists, providerId, models);
    var e := EntryIndex(lists, providerId);
    if e.Some? {
      forall i, j | 0 <= i < j < |r| ensures r[i].providerId != r[j].providerId {
        assert r[i].providerId == lists[i].providerId && r[j].providerId == lists[j].providerId;
      }
    }
    var at := if e.Some? then e.value else |lists|;
    assert r[at].providerId == providerId;
    var f := EntryIndex(r, providerId);
    assert f.Some? && !(f.value < at) && !(at < f.value);
  }

  /** `models.filter((model) => model.enabled !== false)`. */
  function OnlyEnabled(models: seq<ModelMeta>): (r: seq<ModelMeta>)
    ensures |r| <= |models|
    ensures forall m :: m in r <==> m in models && m.enabled
  {
    if models == [] then []
    else
      var front := OnlyEnabled(models[..|models| - 1]);
      var last := models[|models| - 1];
      assert models == models[..|models| - 1] + [last];
      if last.enabled then front + [last] else front
  }

  /** A single model is kept exactly when it is enabled. */
  lemma OnlyEnabledSingle(m: ModelMeta)
    ensures OnlyEnabled([m]) == if m.enabled then [m] else []
  {
    assert [m][..0] == [];
  }

  /** `OnlyEnabled` is `filter`: it keeps a single model exactly when it is
      enabled and distributes over concatenation, so the kept models stay
      in their order and keep their multiplicity. */
  lemma {:induction false} OnlyEnabledIsFilter(a: seq<ModelMeta>, b: seq<ModelMeta>)
    ensures OnlyEnabled(a + b) == OnlyEnabled(a) + OnlyEnabled(b)
    decreases |b|
  {
    if b == [] {
      assert a + b == a;
    } else {
      var front := b[..|b| - 1];
      assert (a + b)[..|a + b| - 1] == a + front;
      assert (a + b)[|a + b| - 1] == b[|b| - 1];
      OnlyEnabledIsFilter(a, front);
    }
  }

  /** The enabled list mirrors the full list entry by entry: same
      providers in the same order, and each enabled entry is the filter of
      the full one. */
  predicate Mirrors(enabledModels: seq<ProviderModels>, allModels: seq<ProviderModels>)
  {
    && |enabledModels| == |allModels|
    && forall k :: 0 <= k < |allModels| ==>
         enabledModels[k] == ProviderModels(allModels[k].providerId, OnlyEnabled(allModels[k].models))
  }

  /** Upserting a provider's models into the full list and their filter
      into the enabled list keeps the mirror. */
  lemma UpsertMirrors(enabledModels: seq<ProviderModels>, allModels: seq<ProviderModels>,
                      providerId: string, models: seq<ModelMeta>)
    requires Mirrors(enabledModels, allModels)
    ensures Mirrors(Upsert(enabledModels, providerId, OnlyEnabled(models)), Upsert(allModels, providerId, models))
  {
    EntryIndexSameIds(allModels, enabledModels, providerId);
  }

  /** The enabled list mirrors the full list by provider id: every enabled
      entry holds the enabled models of a full entry of the same provider,
      and a full entry lacks an enabled companion only when none of its
      models is enabled. The Ollama sync leaves such a gap. */
  predicate MirrorsById(enabledModels: seq<ProviderModels>, allModels: seq<ProviderModels>)
  {
    && (forall j :: 0 <= j < |enabledModels| ==> MirroredIn(enabledModels[j], allModels))
    && (forall k :: 0 <= k < |allModels| ==>
          OnlyEnabled(allModels[k].models) == [] || HasEntry(enabledModels, allModels[k].providerId))
  }

  /** `entry` holds the enabled models of an entry of `allModels` for the
      same provider. */
  predicate MirroredIn(entry: ProviderModels, allModels: seq<ProviderModels>)
  {
    exists k :: 0 <= k < |allModels| && allModels[k].providerId == entry.providerId
                && entry.models == OnlyEnabled(allModels[k].models)
  }

  /** Some entry of `lists` belongs to the provider. */
  predicate HasEntry(lists: seq<ProviderModels>, providerId: string)
  {
    exists j :: 0 <= j < |lists| && lists[j].providerId == providerId
  }

  /** The positional mirror is a mirror by provider id. */
  lemma MirrorsAreById(enabledModels: seq<ProviderModels>, allModels: seq<ProviderModels>)
    requires Mirrors(enabledModels, allModels)
    ensures MirrorsById(enabledModels, allModels)
  {
    forall j | 0 <= j < |enabledModels| ensures MirroredIn(enabledModels[j], allModels) {
      assert allModels[j].providerId == enabledModels[j].providerId;
    }
    forall k | 0 <= k < |allModels|
      ensures OnlyEnabled(allModels[k].models) == [] || HasEntry(enabledModels, allModels[k].providerId)
    {
      assert enabledModels[k].providerId == allModels[k].providerId;
    }
  }

  /** Paired upserts keep the mirror by provider id. */
  lemma UpsertMirrorsById(enabledModels: seq<ProviderModels>, allModels: seq<ProviderModels>,
                          providerId: string, models: seq<ModelMeta>)
    requires MirrorsById(enabledModels, allModels) && UniqueProviders(enabledModels)
    ensures MirrorsById(Upsert(enabledModels, providerId, OnlyEnabled(models)), Upsert(allModels, providerId, models))
  {
    UpsertKeepsMirrored(enabledModels, allModels, providerId, models);
    UpsertKeepsEntries(enabledModels, allModels, providerId, models);
  }

  /** After the paired upsert every enabled entry is still the filter of a
      full entry of its provider. */
  lemma UpsertKeepsMirrored(enabledModels: seq<ProviderModels>, allModels: seq<ProviderModels>,
                            providerId: string, models: seq<ModelMeta>)
    requires MirrorsById(enabledModels, allModels) && UniqueProviders(enabledModels)
    ensures var a, e := Upsert(allModels, providerId, models), Upsert(enabledModels, providerId, OnlyEnabled(models));
            forall j :: 0 <= j < |e| ==> MirroredIn(e[j], a)
  {
    var a, e := Upsert(allModels, providerId, models), Upsert(enabledModels, providerId, OnlyEnabled(models));
    var ia, ie := EntryIndex(allModels, providerId), EntryIndex(enabledModels, providerId);
    var atA := if ia.Some? then ia.value else |allModels|;
    var atE := if ie.Some? then ie.value else |enabledModels|;
    assert a[atA] == ProviderModels(providerId, models);
    assert e[atE] == ProviderModels(providerId, OnlyEnabled(models));
    forall j | 0 <= j < |e| ensures MirroredIn(e[j], a) {
      if j == atE {
        assert a[atA].providerId == e[j].providerId && e[j].models == OnlyEnabled(a[atA].models);
      } else {
        assert j < |enabledModels| && e[j] == enabledModels[j];
        assert e[j].providerId != providerId by {
          if ie.Some? {
            assert enabledModels[ie.value].providerId == providerId;
          }
        }
        assert MirroredIn(enabledModels[j], allModels);
        var k :| 0 <= k < |allModels| && allModels[k].providerId == e[j].providerId
                 && e[j].models == OnlyEnabled(allModels[k].models);
        assert a[k] == allModels[k];
      }
    }
  }

  /** After the paired upsert every full entry with an enabled model still
      has an enabled entry. */
  lemma UpsertKeepsEntries(enabledModels: seq<ProviderModels>, allModels: seq<ProviderModels>,
                           providerId: string, models: seq<ModelMeta>)
    requires MirrorsById(enabledModels, allModels)
    ensures var a, e := Upsert(allModels, providerId, models), Upsert(enabledModels, providerId, OnlyEnabled(models));
            forall k :: 0 <= k < |a| ==> OnlyEnabled(a[k].models) == [] || HasEntry(e, a[k].providerId)
  {
    var a, e := Upsert(allModels, providerId, models), Upsert(enabledModels, providerId, OnlyEnabled(models));
    var ie := EntryIndex(enabledModels, providerId);
    var atE := if ie.Some? then ie.value else |enabledModels|;
    assert e[atE].providerId == providerId;
    forall k | 0 <= k < |a| ensures OnlyEnabled(a[k].models) == [] || HasEntry(e, a[k].providerId) {
      if a[k].providerId == providerId {
        assert e[atE].providerId == a[k].providerId;
      } else if OnlyEnabled(a[k].models) != [] {
        assert k < |allModels| && a[k] == allModels[k];
        var j :| 0 <= j < |enabledModels| && enabledModels[j].providerId == allModels[k].providerId;
        assert e[j] == enabledModels[j];
      }
    }
  }

  /** Upserting into the full list alone keeps the mirror by provider id
      when the new models include no enabled one and the enabled list has
      no entry for the provider. */
  lemma UpsertFullMirrorsById(enabledModels: seq<ProviderModels>, allModels: seq<ProviderModels>,
                              providerId: string, models: seq<ModelMeta>)
    requires MirrorsById(enabledModels, allModels)
    requires OnlyEnabled(models) == [] && EntryIndex(enabledModels, providerId).None?
    ensures MirrorsById(enabledModels, Upsert(allModels, providerId, models))
  {
    var a := Upsert(allModels, providerId, models);
    forall j | 0 <= j < |enabledModels| ensures MirroredIn(enabledModels[j], a) {
      assert MirroredIn(enabledModels[j], allModels);
      var k :| 0 <= k < |allModels| && allModels[k].providerId == enabledModels[j].providerId
               && enabledModels[j].models == OnlyEnabled(allModels[k].models);
      assert a[k] == allModels[k];
    }
    forall k | 0 <= k < |a| ensures OnlyEnabled(a[k].models) == [] || HasEntry(enabledModels, a[k].providerId) {
      if a[k].providerId != providerId {
        assert k < |allModels| && a[k] == allModels[k];
      }
    }
  }

  /** A model as `refreshProviderModels` stores it: its status, the
      provider id, and `isCustom || false`. */
  function WithStatus(providerId: string, models: seq<ModelMeta>, status: (string, string) -> bool): (r: seq<ModelMeta>)
    ensures |r| == |models|
    ensures forall i :: 0 <= i < |models| ==>
              r[i] == models[i].(enabled := status(providerId, models[i].id), providerId := providerId)
  {
    seq(|models|, i requires 0 <= i < |models| =>
      models[i].(enabled := status(providerId, models[i].id), providerId := providerId))
  }

  /** A custom model as both refreshes store it: its status, marked custom,
      the provider id set when `setProviderId` holds. */
  function CustomWithStatus(providerId: string, models: seq<ModelMeta>, status: (string, string) -> bool,
                            setProviderId: bool): (r: seq<ModelMeta>)
    ensures |r| == |models|
    ensures forall m :: m in r ==> m.isCustom
    ensures forall i :: 0 <= i < |models| ==> r[i].id == models[i].id && r[i].enabled == status(providerId, models[i].id)
    ensures forall i :: 0 <= i < |models| ==>
              r[i] == models[i].(enabled := status(providerId, models[i].id), isCustom := true,
                                 providerId := if setProviderId then providerId else models[i].providerId)
  {
    seq(|models|, i requires 0 <= i < |models| =>
      models[i].(enabled := status(providerId, models[i].id), isCustom := true,
                 providerId := if setProviderId then providerId else models[i].providerId))
  }

  /** The online models of `refreshAllModels` with their status; the spread
      keeps every other field. */
  function StatusOnly(providerId: string, models: seq<ModelMeta>, status: (string, string) -> bool): (r: seq<ModelMeta>)
    ensures |r| == |models|
    ensures forall i :: 0 <= i < |models| ==> r[i] == models[i].(enabled := status(providerId, models[i].id))
  {
    seq(|models|, i requires 0 <= i < |models| => models[i].(enabled := status(providerId, models[i].id)))
  }

  /** The three lists a refresh rebuilds. */
  datatype Lists = Lists(allModels: seq<ProviderModels>, enabledModels: seq<ProviderModels>,
                         customModels: seq<ProviderModels>)

  /** The body of the `refreshAllModels` loop for one active provider. */
  function RefreshStep(ls: Lists, providerId: string, online: string -> seq<ModelMeta>,
                       custom: string -> seq<ModelMeta>, status: (string, string) -> bool): Lists
  {
    if providerId == OllamaId then ls
    else
      var withStatus := StatusOnly(providerId, online(providerId), status);
      var customs := CustomWithStatus(providerId, custom(providerId), status, false);
      var combined := withStatus + customs;
      Lists(Upsert(ls.allModels, providerId, combined),
            Upsert(ls.enabledModels, providerId, OnlyEnabled(combined)),
            Upsert(ls.customModels, providerId, customs))
  }

  /** The lists mirror each other by provider id and no list names a
      provider twice. */
  predicate Consistent(ls: Lists)
  {
    && MirrorsById(ls.enabledModels, ls.allModels)
    && UniqueProviders(ls.allModels) && UniqueProviders(ls.enabledModels) && UniqueProviders(ls.customModels)
  }

  /** The loop of `refreshAllModels` over the active providers. */
  function RefreshAll(ls: Lists, active: seq<Provider>, online: string -> seq<ModelMeta>,
                      custom: string -> seq<ModelMeta>, status: (string, string) -> bool): Lists
  {
    if active == [] then ls
    else RefreshStep(RefreshAll(ls, active[..|active| - 1], online, custom, status), active[|active| - 1].id,
                     online, custom, status)
  }

  /** The loop keeps the lists consistent, and keeps them lined up by
      position when they started so. */
  lemma {:induction false} RefreshAllConsistent(ls: Lists, active: seq<Provider>, online: string -> seq<ModelMeta>,
                                                custom: string -> seq<ModelMeta>, status: (string, string) -> bool)
    requires Consistent(ls)
    ensures Consistent(RefreshAll(ls, active, online, custom, status))
    ensures Mirrors(ls.enabledModels, ls.allModels) ==>
              var r := RefreshAll(ls, active, online, custom, status);
              Mirrors(r.enabledModels, r.allModels)
    decreases |active|
  {
    if active != [] {
      var front := active[..|active| - 1];
      RefreshAllConsistent(ls, front, online, custom, status);
      RefreshStepKeeps(RefreshAll(ls, front, online, custom, status), active[|active| - 1].id, online, custom, status);
    }
  }

  /** One more turn of the loop is one more `RefreshStep`. */
  lemma RefreshAllSnoc(ls: Lists, active: seq<Provider>, i: nat, online: string -> seq<ModelMeta>,
                       custom: string -> seq<ModelMeta>, status: (string, string) -> bool)
    requires i < |active|
    ensures RefreshAll(ls, active[..i + 1], online, custom, status) ==
              RefreshStep(RefreshAll(ls, active[..i], online, custom, status), active[i].id, online, custom, status)
  {
    assert active[..i + 1][..i] == active[..i];
  }

  lemma RefreshStepKeeps(ls: Lists, providerId: string, online: string -> seq<ModelMeta>,
                         custom: string -> seq<ModelMeta>, status: (string, string) -> bool)
    requires Consistent(ls)
    ensures var r := RefreshStep(ls, providerId, online, custom, status);
            && Consistent(r)
            && (Mirrors(ls.enabledModels, ls.allModels) ==> Mirrors(r.enabledModels, r.allModels))
  {
    if providerId != OllamaId {
      var withStatus := StatusOnly(providerId, online(providerId), status);
      var customs := CustomWithStatus(providerId, custom(providerId), status, false);
      var combined := withStatus + customs;
      UpsertMirrorsById(ls.enabledModels, ls.allModels, providerId, combined);
      if Mirrors(ls.enabledModels, ls.allModels) {
        UpsertMirrors(ls.enabledModels, ls.allModels, providerId, combined);
      }
      UpsertUnique(ls.allModels, providerId, combined);
      UpsertUnique(ls.enabledModels, providerId, OnlyEnabled(combined));
      UpsertUnique(ls.customModels, providerId, customs);
    }
  }

  /** Provider `p`'s full entry holds `combined` and its enabled entry the
      filter of it. */
  predicate HoldsEntry(ls: Lists, p: string, combined: seq<ModelMeta>)
  {
    && EntryIndex(ls.allModels, p).Some?
    && ls.allModels[EntryIndex(ls.allModels, p).value].models == combined
    && EntryIndex(ls.enabledModels, p).Some?
    && ls.enabledModels[EntryIndex(ls.enabledModels, p).value].models == OnlyEnabled(combined)
  }

  /** What the loop body stores for a provider other than Ollama. */
  function Combined(p: string, online: string -> seq<ModelMeta>, custom: string -> seq<ModelMeta>,
                    status: (string, string) -> bool): seq<ModelMeta>
  {
    StatusOnly(p, online(p), status) + CustomWithStatus(p, custom(p), status, false)
  }

  /** The loop keeps every provider named at most once in the full and the
      enabled list. */
  lemma {:induction false} RefreshAllUnique(ls: Lists, active: seq<Provider>, online: string -> seq<ModelMeta>,
                                            custom: string -> seq<ModelMeta>, status: (string, string) -> bool)
    requires UniqueProviders(ls.allModels) && UniqueProviders(ls.enabledModels)
    ensures var r := RefreshAll(ls, active, online, custom, status);
            UniqueProviders(r.allModels) && UniqueProviders(r.enabledModels)
    decreases |active|
  {
    if active != [] {
      var front := active[..|active| - 1];
      var before := RefreshAll(ls, front, online, custom, status);
      var last := active[|active| - 1].id;
      RefreshAllUnique(ls, front, online, custom, status);
      if last != OllamaId {
        var combined := Combined(last, online, custom, status);
        UpsertUnique(before.allModels, last, combined);
        UpsertUnique(before.enabledModels, last, OnlyEnabled(combined));
      }
    }
  }

  /** After a refresh, each active provider other than Ollama owns the
      entry with its online models followed by its custom models, and its
      enabled entry holds their filter. A provider listed twice is refreshed
      twice with the same models, so duplicates need no exception. */
  lemma {:induction false} RefreshAllEntry(ls: Lists, active: seq<Provider>, i: nat, online: string -> seq<ModelMeta>,
                                           custom: string -> seq<ModelMeta>, status: (string, string) -> bool)
    requires UniqueProviders(ls.allModels) && UniqueProviders(ls.enabledModels)
    requires i < |active| && active[i].id != OllamaId
    ensures HoldsEntry(RefreshAll(ls, active, online, custom, status), active[i].id,
                       Combined(active[i].id, online, custom, status))
    decreases |active|
  {
    var front := active[..|active| - 1];
    var before := RefreshAll(ls, front, online, custom, status);
    var last := active[|active| - 1].id;
    assert RefreshAll(ls, active, online, custom, status) == RefreshStep(before, last, online, custom, status);
    if last == active[i].id {
      RefreshAllUnique(ls, front, online, custom, status);
      RefreshStepEntry(before, last, online, custom, status);
    } else {
      RefreshAllEntry(ls, front, i, online, custom, status);
      RefreshStepOther(before, last, active[i].id, Combined(active[i].id, online, custom, status),
                       online, custom, status);
    }
  }

  /** The step for a provider other than Ollama leaves its combined models
      in its full entry and their filter in its enabled entry. */
  lemma RefreshStepEntry(ls: Lists, p: string, online: string -> seq<ModelMeta>,
                         custom: string -> seq<ModelMeta>, status: (string, string) -> bool)
    requires UniqueProviders(ls.allModels) && UniqueProviders(ls.enabledModels)
    requires p != OllamaId
    ensures HoldsEntry(RefreshStep(ls, p, online, custom, status), p, Combined(p, online, custom, status))
  {
    var combined := Combined(p, online, custom, status);
    UpsertUnique(ls.allModels, p, combined);
    UpsertUnique(ls.enabledModels, p, OnlyEnabled(combined));
  }

  /** The step for one provider leaves another's entries as they were. */
  lemma RefreshStepOther(ls: Lists, last: string, p: string, combined: seq<ModelMeta>,
                         online: string -> seq<ModelMeta>, custom: string -> seq<ModelMeta>,
                         status: (string, string) -> bool)
    requires last != p && HoldsEntry(ls, p, combined)
    ensures HoldsEntry(RefreshStep(ls, last, online, custom, status), p, combined)
  {
    if last != OllamaId {
      var c := Combined(last, online, custom, status);
      UpsertOther(ls.allModels, last, c, p);
      UpsertOther(ls.enabledModels, last, OnlyEnabled(c), p);
    }
  }

  /** The loop never touches Ollama's entries: whatever the sync left in
      either list stays, at the same place. */
  lemma {:induction false} RefreshAllKeepsOllama(ls: Lists, active: seq<Provider>, online: string -> seq<ModelMeta>,
                                                 custom: string -> seq<ModelMeta>, status: (string, string) -> bool)
    requires Consistent(ls)
    ensures var r := RefreshAll(ls, active, online, custom, status);
            && EntryIndex(r.allModels, OllamaId) == EntryIndex(ls.allModels, OllamaId)
            && (EntryIndex(ls.allModels, OllamaId).Some? ==>
                  r.allModels[EntryIndex(ls.allModels, OllamaId).value] == ls.allModels[EntryIndex(ls.allModels, OllamaId).value])
            && EntryIndex(r.enabledModels, OllamaId) == EntryIndex(ls.enabledModels, OllamaId)
            && (EntryIndex(ls.enabledModels, OllamaId).Some? ==>
                  r.enabledModels[EntryIndex(ls.enabledModels, OllamaId).value] == ls.enabledModels[EntryIndex(ls.enabledModels, OllamaId).value])
    decreases |active|
  {
    if active != [] {
      var front := active[..|active| - 1];
      var before := RefreshAll(ls, front, online, custom, status);
      var last := active[|active| - 1].id;
      RefreshAllKeepsOllama(ls, front, online, custom, status);
      if last != OllamaId {
        var combined := StatusOnly(last, online(last), status) + CustomWithStatus(last, custom(last), status, false);
        UpsertKeepsOther(before.allModels, last, combined, OllamaId);
        UpsertKeepsOther(before.enabledModels, last, OnlyEnabled(combined), OllamaId);
      }
    }
  }

  /** Upserting one provider neither moves nor creates another's entry. */
  lemma UpsertKeepsOther(lists: seq<ProviderModels>, providerId: string, models: seq<ModelMeta>, other: string)
    requires other != providerId
    ensures EntryIndex(Upsert(lists, providerId, models), other) == EntryIndex(lists, other)
    ensures EntryIndex(lists, other).Some? ==>
              Upsert(lists, providerId, models)[EntryIndex(lists, other).value] == lists[EntryIndex(lists, other).value]
  {
    if EntryIndex(lists, other).Some? {
      UpsertOther(lists, providerId, models, other);
    }
  }

  /** Upserting one provider leaves the entry of another where it was. */
  lemma UpsertOther(lists: seq<ProviderModels>, providerId: string, models: seq<ModelMeta>, other: string)
    requires other != providerId && EntryIndex(lists, other).Some?
    ensures EntryIndex(Upsert(lists, providerId, models), other) == EntryIndex(lists, other)
    ensures Upsert(lists, providerId, models)[EntryIndex(lists, other).value] == lists[EntryIndex(lists, other).value]
  {
    var r := Upsert(lists, providerId, models);
    var e := EntryIndex(lists, other).value;
    if EntryIndex(lists, providerId).Some? {
      EntryIndexSameIds(lists, r, other);
    } else {
      EntryIndexPrefix(lists, ProviderModels(providerId, models), other);
    }
  }

  /** Appending an entry does not move the first entry of a provider
      already present. */
  lemma EntryIndexPrefix(lists: seq<ProviderModels>, entry: ProviderModels, other: string)
    requires EntryIndex(lists, other).Some?
    ensures EntryIndex(lists + [entry], other) == EntryIndex(lists, other)
  {
    var e := EntryIndex(lists, other).value;
    var r := lists + [entry];
    assert r[e] == lists[e];
    var f := EntryIndex(r, other);
    assert f.Some?;
  }

  // ---------------------------------------------------------------------
  // Ollama sync
  // ---------------------------------------------------------------------

  /** A local Ollama model the lists do not hold yet, as the sync lists it:
      named after the model, in the `local` group, with the default context
      and output sizes, and enabled. */
  function LocalModel(name: string): ModelMeta
  {
    ModelMeta(name, name, "local", OllamaId, false, 4096, 2048, true)
  }

  /** Every local model as a `LocalModel`, in order. */
  function LocalModels(names: seq<string>): (r: seq<ModelMeta>)
    ensures |r| == |names|
  {
    seq(|names|, i requires 0 <= i < |names| => LocalModel(names[i]))
  }

  /** `ollamaModelsAsGlobal`: one model per local model name, in order. A
      model already listed under Ollama with that id keeps every stored
      field (the spread of `existingModel` overrides the defaults); any
      other is a `LocalModel`. */
  function OllamaAsGlobal(existing: seq<ModelMeta>, names: seq<string>): (r: seq<ModelMeta>)
    ensures |r| == |names|
    ensures forall i :: 0 <= i < |names| ==> r[i].id == names[i]
    ensures existing == [] ==> r == LocalModels(names) && forall m :: m in r ==> m.enabled
    ensures forall i :: 0 <= i < |names| ==>
              && (ModelIndex(existing, names[i]).Some? ==> r[i] == existing[ModelIndex(existing, names[i]).value])
              && (ModelIndex(existing, names[i]).None? ==> r[i] == LocalModel(names[i]))
  {
    seq(|names|, i requires 0 <= i < |names| =>
      var e := ModelIndex(existing, names[i]);
      if e.Some? then existing[e.value] else LocalModel(names[i]))
  }

  /** `syncOllamaModelsToGlobal`: nothing without an Ollama provider.
      Otherwise Ollama's full entry takes the converted models (in place,
      or appended), and its enabled entry their enabled ones, an enabled
      entry being appended only when there are some. The custom list is
      untouched. */
  function SyncOllama(providers: seq<Provider>, ls: Lists, names: seq<string>): Lists
  {
    if FirstProvider(providers, OllamaId).None? then ls
    else
      var e := EntryIndex(ls.allModels, OllamaId);
      var existing := if e.Some? then ls.allModels[e.value].models else [];
      var models := OllamaAsGlobal(existing, names);
      var enabled := OnlyEnabled(models);
      Lists(Upsert(ls.allModels, OllamaId, models),
            if EntryIndex(ls.enabledModels, OllamaId).Some? || enabled != [] then Upsert(ls.enabledModels, OllamaId, enabled)
            else ls.enabledModels,
            ls.customModels)
  }

  /** The sync keeps the lists consistent, and afterwards Ollama has a full
      entry with one model per local model. */
  lemma SyncOllamaKeeps(providers: seq<Provider>, ls: Lists, names: seq<string>)
    requires Consistent(ls)
    ensures var r := SyncOllama(providers, ls, names);
            && Consistent(r)
            && r.customModels == ls.customModels
            && (FirstProvider(providers, OllamaId).Some? ==>
                  && EntryIndex(r.allModels, OllamaId).Some?
                  && |r.allModels[EntryIndex(r.allModels, OllamaId).value].models| == |names|)
  {
    if FirstProvider(providers, OllamaId).Some? {
      var e := EntryIndex(ls.allModels, OllamaId);
      var existing := if e.Some? then ls.allModels[e.value].models else [];
      var models := OllamaAsGlobal(existing, names);
      var enabled := OnlyEnabled(models);
      UpsertUnique(ls.allModels, OllamaId, models);
      if EntryIndex(ls.enabledModels, OllamaId).Some? || enabled != [] {
        UpsertMirrorsById(ls.enabledModels, ls.allModels, OllamaId, models);
        UpsertUnique(ls.enabledModels, OllamaId, enabled);
      } else {
        UpsertFullMirrorsById(ls.enabledModels, ls.allModels, OllamaId, models);
      }
    }
  }

  /** A model list whose models are all enabled is its own filter. */
  lemma {:induction false} OnlyEnabledAll(models: seq<ModelMeta>)
    requires forall m :: m in models ==> m.enabled
    ensures OnlyEnabled(models) == models
  {
    if models != [] {
      var front := models[..|models| - 1];
      assert forall m :: m in front ==> m in models;
      OnlyEnabledAll(front);
      assert models == front + [models[|models| - 1]];
    }
  }

  /** In a refresh the lists are empty when the sync runs: Ollama's full
      entry then lists every local model with the defaults, and Ollama has
      an enabled entry, holding the same models, exactly when there is a
      local model. */
  lemma SyncFromEmpty(providers: seq<Provider>, names: seq<string>)
    requires FirstProvider(providers, OllamaId).Some?
    ensures var r := SyncOllama(providers, Lists([], [], []), names);
            && r.allModels == [ProviderModels(OllamaId, LocalModels(names))]
            && r.enabledModels == (if names == [] then [] else [ProviderModels(OllamaId, LocalModels(names))])
            && r.customModels == []
  {
    var models := OllamaAsGlobal([], names);
    OnlyEnabledAll(models);
  }

  /** The lists `refreshAllModels` starts its loop from: emptied, then
      synced with the local Ollama models when an active provider is
      Ollama and listing the models did not throw (`local.None?`). */
  function RefreshStart(providers: seq<Provider>, local: Option<seq<string>>): (r: Lists)
    ensures Consistent(r)
  {
    var empty := Lists([], [], []);
    if local.Some? && (exists p :: p in ActiveProviders(providers) && p.id == OllamaId) then
      SyncOllamaKeeps(providers, empty, local.value);
      SyncOllama(providers, empty, local.value)
    else empty
  }

  /** After a refresh with an active Ollama provider, Ollama's entry comes
      first in the full list and lists every local model, and Ollama has an
      enabled entry exactly when there is a local model. */
  lemma RefreshedOllamaEntry(providers: seq<Provider>, names: seq<string>, online: string -> seq<ModelMeta>,
                             custom: string -> seq<ModelMeta>, status: (string, string) -> bool)
    requires exists p :: p in ActiveProviders(providers) && p.id == OllamaId
    ensures var r := RefreshAll(RefreshStart(providers, Some(names)), ActiveProviders(providers), online, custom, status);
            && EntryIndex(r.allModels, OllamaId) == Some(0)
            && r.allModels[0] == ProviderModels(OllamaId, LocalModels(names))
            && (EntryIndex(r.enabledModels, OllamaId).Some? <==> names != [])
  {
    var p :| p in ActiveProviders(providers) && p.id == OllamaId;
    assert FirstProvider(providers, OllamaId).Some?;
    SyncFromEmpty(providers, names);
    RefreshAllKeepsOllama(RefreshStart(providers, Some(names)), ActiveProviders(providers), online, custom, status);
  }

  /** What a whole refresh leaves: consistent lists, lined up by position
      when no sync ran, and after a sync Ollama's entry first with every
      local model and an enabled companion exactly when there is one. */
  lemma RefreshOutcome(providers: seq<Provider>, local: Option<seq<string>>, online: string -> seq<ModelMeta>,
                       custom: string -> seq<ModelMeta>, status: (string, string) -> bool)
    ensures var r := RefreshAll(RefreshStart(providers, local), ActiveProviders(providers), online, custom, status);
            && Consistent(r)
            && (local.None? || !(exists p :: p in ActiveProviders(providers) && p.id == OllamaId) ==>
                  Mirrors(r.enabledModels, r.allModels))
            && (local.Some? && (exists p :: p in ActiveProviders(providers) && p.id == OllamaId) ==>
                  && EntryIndex(r.allModels, OllamaId) == Some(0)
                  && r.allModels[0] == ProviderModels(OllamaId, LocalModels(local.value))
                  && (EntryIndex(r.enabledModels, OllamaId).Some? <==> local.value != []))
  {
    var start := RefreshStart(providers, local);
    RefreshAllConsistent(start, ActiveProviders(providers), online, custom, status);
    if local.Some? && (exists p :: p in ActiveProviders(providers) && p.id == OllamaId) {
      RefreshedOllamaEntry(providers, local.value, online, custom, status);
    } else {
      assert start == Lists([], [], []);
    }
  }

  /** With an enabled Ollama provider that has no local model and one
      other enabled provider, the full list ends with two entries and the
      enabled list with one: the two lists no longer line up by position,
      only by provider id. */
  lemma OllamaGapBreaksPositions(online: string -> seq<ModelMeta>, custom: string -> seq<ModelMeta>,
                                 status: (string, string) -> bool)
    ensures var providers := [Provider(OllamaId, true), Provider("openai", true)];
            var r := RefreshAll(RefreshStart(providers, Some([])), ActiveProviders(providers), online, custom, status);
            && |r.allModels| == 2 && |r.enabledModels| == 1
            && r.allModels[0] == ProviderModels(OllamaId, [])
            && !Mirrors(r.enabledModels, r.allModels)
  {
    var providers := [Provider(OllamaId, true), Provider("openai", true)];
    assert ActiveProviders(providers) == providers by {
      assert providers[..1] == [Provider(OllamaId, true)];
      assert ActiveProviders(providers[..1]) == ActiveProviders([]) + [Provider(OllamaId, true)];
    }
    assert Provider(OllamaId, true) in ActiveProviders(providers);
    var start := RefreshStart(providers, Some([]));
    SyncFromEmpty(providers, []);
    assert start == Lists([ProviderModels(OllamaId, [])], [], []);
    var one := RefreshAll(start, providers[..1], online, custom, status);
    assert one == start by {
      assert providers[..1][..0] == [];
      assert RefreshAll(start, [], online, custom, status) == start;
      assert providers[..1][0].id == OllamaId;
    }
    assert "openai" != OllamaId;
  }

  // ---------------------------------------------------------------------
  // Search-assistant priority search
  // ---------------------------------------------------------------------

  /** The model's id or name contains the key, ignoring case. */
  predicate Matches(model: ModelMeta, key: string)
  {
    ContainsIgnoringCase(model.id, key) || ContainsIgnoringCase(model.name, key)
  }

  datatype Hit = Hit(key: nat, provider: nat, model: nat)

  datatype Choice = Choice(model: ModelMeta, providerId: string)

  /** The first model from position `m` on that matches the key. */
  function ModelHit(models: seq<ModelMeta>, key: string, m: nat): (r: Option<nat>)
    requires m <= |models|
    ensures r.Some? ==> m <= r.value < |models| && Matches(models[r.value], key)
    ensures r.Some? ==> forall j :: m <= j < r.value ==> !Matches(models[j], key)
    ensures r.None? ==> forall j :: m <= j < |models| ==> !Matches(models[j], key)
    decreases |models| - m
  {
    if m == |models| then None
    else if Matches(models[m], key) then Some(m)
    else ModelHit(models, key, m + 1)
  }

  /** The first provider from position `p` on with a matching model, and
      that model. */
  function ProviderHit(lists: seq<ProviderModels>, key: string, p: nat): (r: Option<(nat, nat)>)
    requires p <= |lists|
    ensures r.Some? ==> p <= r.value.0 < |lists| && r.value.1 < |lists[r.value.0].models|
    ensures r.Some? ==> Matches(lists[r.value.0].models[r.value.1], key)
    ensures r.Some? ==> forall j :: 0 <= j < r.value.1 ==> !Matches(lists[r.value.0].models[j], key)
    ensures r.Some? ==> forall q, j :: p <= q < r.value.0 && 0 <= j < |lists[q].models| ==> !Matches(lists[q].models[j], key)
    ensures r.None? ==> forall q, j :: p <= q < |lists| && 0 <= j < |lists[q].models| ==> !Matches(lists[q].models[j], key)
    decreases |lists| - p
  {
    if p == |lists| then None
    else
      var m := ModelHit(lists[p].models, key, 0);
      if m.Some? then Some((p, m.value)) else ProviderHit(lists, key, p + 1)
  }

  /** The first key from position `k` on that some model matches, with the
      first provider and model matching it. */
  function KeyHit(lists: seq<ProviderModels>, keys: seq<string>, k: nat): (r: Option<Hit>)
    requires k <= |keys|
    ensures r.Some? ==> k <= r.value.key < |keys| && r.value.provider < |lists|
    ensures r.Some? ==> r.value.model < |lists[r.value.provider].models|
    ensures r.Some? ==> Matches(lists[r.value.provider].models[r.value.model], keys[r.value.key])
    ensures r.Some? ==> forall e, q, j :: k <= e < r.value.key && 0 <= q < |lists| && 0 <= j < |lists[q].models| ==>
                          !Matches(lists[q].models[j], keys[e])
    ensures r.None? ==> forall e, q, j :: k <= e < |keys| && 0 <= q < |lists| && 0 <= j < |lists[q].models| ==>
                          !Matches(lists[q].models[j], keys[e])
    decreases |keys| - k
  {
    if k == |keys| then None
    else
      var h := ProviderHit(lists, keys[k], 0);
      if h.Some? then Some(Hit(k, h.value.0, h.value.1)) else KeyHit(lists, keys, k + 1)
  }

  /** `findPriorityModel`: no list, no model; the first hit of the
      earliest key; otherwise the first model of the first entry. */
  function PriorityModel(lists: seq<ProviderModels>): (r: Option<Choice>)
  {
    if lists == [] then None
    else
      var h := KeyHit(lists, PriorityKeys, 0);
      if h.Some? then Some(Choice(lists[h.value.provider].models[h.value.model], lists[h.value.provider].providerId))
      else if |lists[0].models| > 0 then Some(Choice(lists[0].models[0], lists[0].providerId))
      else None
  }

  /** What the priority search promises: nothing for an empty list; a key
      hit is a model matching some key such that no model matches an
      earlier key, no earlier provider has a model matching this key and no
      earlier model of its provider does; without any hit, the first model
      of the first entry, if it has one. */
  lemma PriorityModelSpec(lists: seq<ProviderModels>)
    ensures lists == [] ==> PriorityModel(lists).None?
    ensures var h := KeyHit(lists, PriorityKeys, 0);
            lists != [] && h.Some? ==>
              && PriorityModel(lists) == Some(Choice(lists[h.value.provider].models[h.value.model], lists[h.value.provider].providerId))
              && Matches(lists[h.value.provider].models[h.value.model], PriorityKeys[h.value.key])
              && (forall e, q, j :: 0 <= e < h.value.key && 0 <= q < |lists| && 0 <= j < |lists[q].models| ==>
                    !Matches(lists[q].models[j], PriorityKeys[e]))
              && (forall q, j :: 0 <= q < h.value.provider && 0 <= j < |lists[q].models| ==>
                    !Matches(lists[q].models[j], PriorityKeys[h.value.key]))
              && (forall j :: 0 <= j < h.value.model ==>
                    !Matches(lists[h.value.provider].models[j], PriorityKeys[h.value.key]))
    ensures lists != [] && (forall e, q, j :: 0 <= e < |PriorityKeys| && 0 <= q < |lists| && 0 <= j < |lists[q].models| ==>
                              !Matches(lists[q].models[j], PriorityKeys[e])) ==>
              PriorityModel(lists) == if |lists[0].models| > 0 then Some(Choice(lists[0].models[0], lists[0].providerId)) else None
  {
    var h := KeyHit(lists, PriorityKeys, 0);
    if lists != [] && h.Some? {
      KeyHitFromProviderHit(lists, PriorityKeys, 0);
    }
  }

  /** A key hit is the provider hit of its key. */
  lemma {:induction false} KeyHitFromProviderHit(lists: seq<ProviderModels>, keys: seq<string>, k: nat)
    requires k <= |keys|
    ensures var h := KeyHit(lists, keys, k);
            h.Some? ==> ProviderHit(lists, keys[h.value.key], 0) == Some((h.value.provider, h.value.model))
    decreases |keys| - k
  {
    if k < |keys| && ProviderHit(lists, keys[k], 0).None? {
      KeyHitFromProviderHit(lists, keys, k + 1);
    }
  }

  // ---------------------------------------------------------------------
  // Ollama pull progress
  // ---------------------------------------------------------------------

  /** A pull-progress event as the main process sends it; absent or
      non-string / non-number fields are `None`. */
  datatype PullEvent = PullEvent(
    eventId: Option<string>,
    modelName: Option<string>,
    status: Option<string>,
    total: Option<real>,
    completed: Option<real>)

  /** `Math.min(Math.round((completed / total) * 100), 100)`. */
  function Progress(completed: real, total: real): (p: int)
    requires total > 0.0
    ensures p <= 100
    ensures 0.0 <= completed ==> 0 <= p
  {
    var scaled := completed / total * 100.0;
    var rounded := (scaled + 0.5).Floor;
    if rounded < 100 then rounded else 100
  }

  /** More completed bytes never show less progress, and a finished pull
      shows 100. */
  lemma ProgressMonotone(c1: real, c2: real, total: real)
    requires total > 0.0 && c1 <= c2
    ensures Progress(c1, total) <= Progress(c2, total)
    ensures Progress(total, total) == 100
  {
    assert c1 / total <= c2 / total by {
      assert c2 / total - c1 / total == (c2 - c1) / total;
    }
    assert total / total == 1.0;
  }

  /** The event is for a model pull and names a model. */
  predicate Relevant(e: PullEvent)
  {
    e.eventId == Some("pullOllamaModels") && Truthy(e.modelName)
  }

  predicate HasTotals(e: PullEvent)
  {
    e.completed.Some? && e.total.Some? && e.total.value > 0.0
  }

  // ---------------------------------------------------------------------
  // The store
  // ---------------------------------------------------------------------

  class SettingsStore {
    var providers: seq<Provider>
    var allProviderModels: seq<ProviderModels>
    var enabledModels: seq<ProviderModels>
    var customModels: seq<ProviderModels>
    /** Model name -> pull progress in percent. */
    var pullingModels: map<string, int>

    constructor (providers: seq<Provider>)
      ensures this.providers == providers
      ensures allProviderModels == [] && enabledModels == [] && customModels == [] && pullingModels == map[]
    {
      this.providers := providers;
      allProviderModels := [];
      enabledModels := [];
      customModels := [];
      pullingModels := map[];
    }

    /** `updateLocalModelStatus`: the flag in the full and custom lists,
        then the enabled list is appended to or spliced. */
    method UpdateLocalModelStatus(providerId: string, modelId: string, flag: bool)
      modifies this`allProviderModels, this`enabledModels, this`customModels
      ensures allProviderModels == SetEnabled(old(allProviderModels), providerId, modelId, flag)
      ensures customModels == SetEnabled(old(customModels), providerId, modelId, flag)
      ensures enabledModels == SwitchEnabled(old(enabledModels), old(allProviderModels), providerId, modelId, flag)
    {
      var before := allProviderModels;
      allProviderModels := SetEnabled(allProviderModels, providerId, modelId, flag);
      SameIds(before, allProviderModels, providerId, modelId);
      var e := EntryIndex(enabledModels, providerId);
      if e.Some? {
        var models := enabledModels[e.value].models;
        if flag {
          if ModelIndex(models, modelId).None? {
            var source := EntryIndex(allProviderModels, providerId);
            if source.Some? {
              var m := ModelIndex(allProviderModels[source.value].models, modelId);
              if m.Some? {
                var model := allProviderModels[source.value].models[m.value];
                enabledModels := enabledModels[e.value := ProviderModels(providerId, models + [model.(enabled := true)])];
              }
            }
          }
        } else {
          var m := ModelIndex(models, modelId);
          if m.Some? {
            enabledModels := enabledModels[e.value := ProviderModels(providerId, models[..m.value] + models[m.value + 1..])];
          }
        }
      }
      customModels := SetEnabled(customModels, providerId, modelId, flag);
    }

    /** `findPriorityModel`: the triple loop over keys, providers and
        models with early return, then the fallback. */
    method FindPriorityModel() returns (r: Option<Choice>)
      ensures r == PriorityModel(enabledModels)
    {
      var lists := enabledModels;
      if |lists| == 0 {
        return None;
      }
      var k := 0;
      while k < |PriorityKeys|
        invariant 0 <= k <= |PriorityKeys|
        invariant KeyHit(lists, PriorityKeys, k) == KeyHit(lists, PriorityKeys, 0)
      {
        var found := ScanProviders(lists, PriorityKeys[k]);
        if found.Some? {
          return Some(Choice(lists[found.value.0].models[found.value.1], lists[found.value.0].providerId));
        }
        k := k + 1;
      }
      if |lists[0].models| > 0 {
        return Some(Choice(lists[0].models[0], lists[0].providerId));
      }
      return None;
    }

    /** The two inner loops for one key. */
    static method ScanProviders(lists: seq<ProviderModels>, key: string) returns (r: Option<(nat, nat)>)
      ensures r == ProviderHit(lists, key, 0)
    {
      var p := 0;
      while p < |lists|
        invariant 0 <= p <= |lists|
        invariant ProviderHit(lists, key, p) == ProviderHit(lists, key, 0)
      {
        var models := lists[p].models;
        var m := 0;
        while m < |models|
          invariant 0 <= m <= |models|
          invariant ModelHit(models, key, m) == ModelHit(models, key, 0)
        {
          if ContainsIgnoringCase(models[m].id, key) || ContainsIgnoringCase(models[m].name, key) {
            return Some((p, m));
          }
          m := m + 1;
        }
        p := p + 1;
      }
      return None;
    }

    /** The upsert part of `refreshProviderModels`: nothing for a missing
        or disabled provider; otherwise the provider's full entry takes the
        models with their status, its enabled entry their filter, and its
        custom entry the custom models when there are any. */
    method RefreshProviderModels(providerId: string, online: seq<ModelMeta>, custom: seq<ModelMeta>,
                                 status: (string, string) -> bool)
      modifies this`allProviderModels, this`enabledModels, this`customModels
      ensures !(exists p :: p in providers && p.id == providerId) ==>
                allProviderModels == old(allProviderModels) && enabledModels == old(enabledModels) &&
                customModels == old(customModels)
      ensures FirstProvider(providers, providerId).Some? && !FirstProvider(providers, providerId).value.enable ==>
                allProviderModels == old(allProviderModels) && enabledModels == old(enabledModels) &&
                customModels == old(customModels)
      ensures FirstProvider(providers, providerId).Some? && FirstProvider(providers, providerId).value.enable ==>
                var withStatus := WithStatus(providerId, online, status);
                && allProviderModels == Upsert(old(allProviderModels), providerId, withStatus)
                && enabledModels == Upsert(old(enabledModels), providerId, OnlyEnabled(withStatus))
                && customModels == (if |custom| > 0 then Upsert(old(customModels), providerId, CustomWithStatus(providerId, custom, status, true))
                                    else old(customModels))
      ensures old(Mirrors(enabledModels, allProviderModels)) ==> Mirrors(enabledModels, allProviderModels)
      ensures old(MirrorsById(enabledModels, allProviderModels) && UniqueProviders(enabledModels)) ==>
                MirrorsById(enabledModels, allProviderModels)
    {
      var provider := FirstProvider(providers, providerId);
      if provider.None? || !provider.value.enable {
        return;
      }
      var withStatus := WithStatus(providerId, online, status);
      if Mirrors(enabledModels, allProviderModels) {
        UpsertMirrors(enabledModels, allProviderModels, providerId, withStatus);
      }
      if MirrorsById(enabledModels, allProviderModels) && UniqueProviders(enabledModels) {
        UpsertMirrorsById(enabledModels, allProviderModels, providerId, withStatus);
      }
      allProviderModels := Upsert(allProviderModels, providerId, withStatus);
      enabledModels := Upsert(enabledModels, providerId, OnlyEnabled(withStatus));
      if |custom| > 0 {
        customModels := Upsert(customModels, providerId, CustomWithStatus(providerId, custom, status, true));
      }
    }

    /** `syncOllamaModelsToGlobal` for the local models with these names. */
    method SyncOllamaModelsToGlobal(names: seq<string>)
      modifies this`allProviderModels, this`enabledModels
      ensures Lists(allProviderModels, enabledModels, customModels) ==
                SyncOllama(providers, old(Lists(allProviderModels, enabledModels, customModels)), names)
    {
      if FirstProvider(providers, OllamaId).None? {
        return;
      }
      var existingIndex := EntryIndex(allProviderModels, OllamaId);
      var existing := if existingIndex.Some? then allProviderModels[existingIndex.value].models else [];
      var models := OllamaAsGlobal(existing, names);
      if existingIndex.Some? {
        allProviderModels := allProviderModels[existingIndex.value := ProviderModels(OllamaId, models)];
      } else {
        allProviderModels := allProviderModels + [ProviderModels(OllamaId, models)];
      }
      var enabledIndex := EntryIndex(enabledModels, OllamaId);
      var enabled := OnlyEnabled(models);
      if enabledIndex.Some? {
        enabledModels := enabledModels[enabledIndex.value := ProviderModels(OllamaId, enabled)];
      } else if |enabled| > 0 {
        enabledModels := enabledModels + [ProviderModels(OllamaId, enabled)];
      }
    }

    /** The list-building part of `refreshAllModels`: empty the lists, sync
        the local Ollama models (`local`, or `None` when listing them
        threw) when an active provider is Ollama, then run the loop body for
        every active provider in order. The lists stay consistent; they
        line up by position unless the sync ran; a synced Ollama entry
        comes first, listing every local model, and has an enabled
        companion exactly when there is a local model. */
    method RefreshAllModels(local: Option<seq<string>>, online: string -> seq<ModelMeta>,
                            custom: string -> seq<ModelMeta>, status: (string, string) -> bool)
      modifies this`allProviderModels, this`enabledModels, this`customModels
      ensures Lists(allProviderModels, enabledModels, customModels) ==
                RefreshAll(RefreshStart(providers, local), ActiveProviders(providers), online, custom, status)
      ensures Consistent(Lists(allProviderModels, enabledModels, customModels))
      ensures local.None? || !(exists p :: p in ActiveProviders(providers) && p.id == OllamaId) ==>
                Mirrors(enabledModels, allProviderModels)
      ensures local.Some? && (exists p :: p in ActiveProviders(providers) && p.id == OllamaId) ==>
                && EntryIndex(allProviderModels, OllamaId) == Some(0)
                && allProviderModels[0] == ProviderModels(OllamaId, LocalModels(local.value))
                && (EntryIndex(enabledModels, OllamaId).Some? <==> local.value != [])
    {
      var active := ActiveProviders(providers);
      allProviderModels := [];
      enabledModels := [];
      customModels := [];
      var synced := local.Some? && (exists p :: p in active && p.id == OllamaId);
      if synced {
        SyncOllamaModelsToGlobal(local.value);
      }
      var start := Lists(allProviderModels, enabledModels, customModels);
      assert start == RefreshStart(providers, local);
      var i := 0;
      while i < |active|
        invariant 0 <= i <= |active|
        invariant Lists(allProviderModels, enabledModels, customModels) == RefreshAll(start, active[..i], online, custom, status)
      {
        RefreshAllSnoc(start, active, i, online, custom, status);
        var p := active[i].id;
        if p != OllamaId {
          var withStatus := StatusOnly(p, online(p), status);
          var customs := CustomWithStatus(p, custom(p), status, false);
          customModels := Upsert(customModels, p, customs);
          var combined := withStatus + customs;
          allProviderModels := Upsert(allProviderModels, p, combined);
          enabledModels := Upsert(enabledModels, p, OnlyEnabled(combined));
        }
        i := i + 1;
      }
      assert active[..i] == active;
      RefreshOutcome(providers, local, online, custom, status);
    }

    /** `handleOllamaModelPullEvent`, progress map only. */
    method HandleOllamaModelPullEvent(e: PullEvent)
      modifies this`pullingModels
      ensures !Relevant(e) ==> pullingModels == old(pullingModels)
      ensures Relevant(e) && HasTotals(e) ==>
                pullingModels == old(pullingModels)[e.modelName.value := Progress(e.completed.value, e.total.value)]
      ensures Relevant(e) && !HasTotals(e) && Truthy(e.status) && Contains(e.status.value, "manifest") ==>
                pullingModels == old(pullingModels)[e.modelName.value := 1]
      ensures Relevant(e) && !HasTotals(e) && !(Truthy(e.status) && Contains(e.status.value, "manifest")) ==>
                pullingModels == old(pullingModels)
      ensures forall name :: name in old(pullingModels) && (!Truthy(e.modelName) || name != e.modelName.value) ==>
                name in pullingModels && pullingModels[name] == old(pullingModels)[name]
    {
      if e.eventId != Some("pullOllamaModels") || !Truthy(e.modelName) {
        return;
      }
      var name := e.modelName.value;
      if e.completed.Some? && e.total.Some? && e.total.value > 0.0 {
        pullingModels := pullingModels[name := Progress(e.completed.value, e.total.value)];
      } else if Truthy(e.status) && Contains(e.status.value, "manifest") {
        pullingModels := pullingModels[name := 1];
      }
    }
  }

  /** `providers.find((p) => p.id === providerId)`. */
  function FirstProvider(providers: seq<Provider>, providerId: string): (r: Option<Provider>)
    ensures r.Some? ==> r.value in providers && r.value.id == providerId
    ensures r.None? <==> !(exists p :: p in providers && p.id == providerId)
  {
    if providers == [] then None
    else if providers[0].id == providerId then Some(providers[0])
    else FirstProvider(providers[1..], providerId)
  }

  /** `providers.filter((p) => p.enable)`. */
  function ActiveProviders(providers: seq<Provider>): (r: seq<Provider>)
    ensures forall p :: p in r <==> p in providers && p.enable
  {
    if providers == [] then []
    else
      var front := ActiveProviders(providers[..|providers| - 1]);
      var last := providers[|providers| - 1];
      assert providers == providers[..|providers| - 1] + [last];
      if last.enable then front + [last] else front
  }

  /** A single provider is kept exactly when it is enabled. */
  lemma ActiveProvidersSingle(p: Provider)
    ensures ActiveProviders([p]) == if p.enable then [p] else []
  {
    assert [p][..0] == [];
  }

  /** `ActiveProviders` is `filter`: it keeps a single provider exactly when
      it is enabled and distributes over concatenation, so the active
      providers stay in configuration order. */
  lemma {:induction false} ActiveProvidersIsFilter(a: seq<Provider>, b: seq<Provider>)
    ensures ActiveProviders(a + b) == ActiveProviders(a) + ActiveProviders(b)
    decreases |b|
  {
    if b == [] {
      assert a + b == a;
    } else {
      var front := b[..|b| - 1];
      assert (a + b)[..|a + b| - 1] == a + front;
      assert (a + b)[|a + b| - 1] == b[|b| - 1];
      ActiveProvidersIsFilter(a, front);
    }
  }
}
