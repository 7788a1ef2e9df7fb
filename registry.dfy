/** The model registry: an immutable, ordered table from a public model id to the
    upstream (provider, modelId) pair, with a designated default id. */
module Registry {
  import opened Wrappers

  /** The upstream identity of a public model: `[provider, modelId]`. */
  datatype ModelEntry = ModelEntry(provider: string, modelId: string)

  /** The declared table, in declaration order (JavaScript keeps string keys in insertion order). */
  const Models: seq<(string, ModelEntry)> := [
    ("replicate/flux-1.1-pro-ultra", ModelEntry("replicate", "black-forest-labs/flux-1.1-pro-ultra")),
    ("replicate/flux-1.1-pro", ModelEntry("replicate", "black-forest-labs/flux-1.1-pro")),
    ("replicate/flux-pro", ModelEntry("replicate", "black-forest-labs/flux-pro")),
    ("replicate/flux-schnell", ModelEntry("replicate", "black-forest-labs/flux-schnell")),
    ("replicate/ideogram-v2", ModelEntry("replicate", "ideogram/ideogram-v2")),
    ("replicate/ideogram-v2-turbo", ModelEntry("replicate", "ideogram/ideogram-v2-turbo")),
    ("replicate/photon", ModelEntry("replicate", "photon")),
    ("replicate/photon-flash", ModelEntry("replicate", "photon-flash")),
    ("replicate/recraft-v3", ModelEntry("replicate", "recraft-v3")),
    ("replicate/stable-diffusion-3.5-large", ModelEntry("replicate", "stability-ai/stable-diffusion-3.5-large")),
    ("replicate/stable-diffusion-3.5-turbo", ModelEntry("replicate", "stability-ai/stable-diffusion-3.5-large-turbo")),
    ("vertex/imagen-3.0-fast", ModelEntry("vertex", "imagen-3.0-fast-generate-001")),
    ("vertex/imagen-3.0-standard", ModelEntry("vertex", "imagen-3.0-generate-001")),
    ("fireworks/flux-1-dev-fp8", ModelEntry("fireworks", "accounts/fireworks/models/flux-1-dev-fp8")),
    ("fireworks/flux-1-schnell-fp8", ModelEntry("fireworks", "accounts/fireworks/models/flux-1-schnell-fp8")),
    ("fireworks/playground-v2.5", ModelEntry("fireworks", "accounts/fireworks/models/playground-v2.5-1024px-aesthetic")),
    ("fireworks/playground-v2", ModelEntry("fireworks", "accounts/fireworks/models/playground-v2-1024px-aesthetic")),
    ("fireworks/japanese-sdxl", ModelEntry("fireworks", "accounts/fireworks/models/japanese-stable-diffusion-xl")),
    ("fireworks/ssd-1b", ModelEntry("fireworks", "accounts/fireworks/models/ssd-1b")),
    ("fireworks/stable-diffusion-xl-1.0", ModelEntry("fireworks", "accounts/fireworks/models/stable-diffusion-xl-1024-v1-0"))
  ]

  const DefaultModel: string := "replicate/flux-1.1-pro-ultra"

  /** `Object.keys(CONFIG.MODELS)`: the public ids in declaration order. */
  function Ids(): (ids: seq<string>)
    ensures |ids| == |Models|
    ensures forall i :: 0 <= i < |ids| ==> ids[i] == Models[i].0
  {
    seq(|Models|, i requires 0 <= i < |Models| => Models[i].0)
  }

  /** No public id is declared twice. */
  predicate DistinctKeys(entries: seq<(string, ModelEntry)>)
  {
    forall i, j :: 0 <= i < j < |entries| ==> entries[i].0 != entries[j].0
  }

  /** First entry of `entries` whose key is `id`. */
  function Find(entries: seq<(string, ModelEntry)>, id: string): (r: Option<ModelEntry>)
    ensures r.Some? <==> exists i :: 0 <= i < |entries| && entries[i].0 == id
    ensures r.Some? ==> exists i :: 0 <= i < |entries| && entries[i] == (id, r.value)
  {
    if |entries| == 0 then None
    else if entries[0].0 == id then Some(entries[0].1)
    else
      var r := Find(entries[1..], id);
      assert forall i :: 0 < i < |entries| ==> entries[i] == entries[1..][i - 1];
      r
  }

  /** `CONFIG.MODELS[id]`, restricted to the declared keys. */
  function Lookup(id: string): Option<ModelEntry>
  {
    Find(Models, id)
  }

  /** With distinct keys, the entry found for a declared key is the one declared with it. */
  lemma FindDeclared(entries: seq<(string, ModelEntry)>, i: nat)
    requires DistinctKeys(entries)
    requires i < |entries|
    ensures Find(entries, entries[i].0) == Some(entries[i].1)
  {
  }

  /** The id declared at position `i` is not declared again later. */
  lemma KeyNotRedeclared(i: nat)
    requires i < |Models|
    ensures forall j :: i < j < |Models| ==> Models[i].0 != Models[j].0
  {
    // One case per declared position: with `i` fixed, each comparison is between two literals.
    if i == 0 {
    } else if i == 1 {
    } else if i == 2 {
    } else if i == 3 {
    } else if i == 4 {
    } else if i == 5 {
    } else if i == 6 {
    } else if i == 7 {
    } else if i == 8 {
    } else if i == 9 {
    } else if i == 10 {
    } else if i == 11 {
    } else if i == 12 {
    } else if i == 13 {
    } else if i == 14 {
    } else if i == 15 {
    } else if i == 16 {
    } else if i == 17 {
    } else if i == 18 {
    }
  }

  lemma RegistryKeysDistinct()
    ensures DistinctKeys(Models)
  {
    forall i, j | 0 <= i < j < |Models| ensures Models[i].0 != Models[j].0 {
      KeyNotRedeclared(i);
    }
  }

  /** Every declared public id resolves to exactly its declared (provider, modelId) pair. */
  lemma LookupDeclared(i: nat)
    requires i < |Models|
    ensures Lookup(Models[i].0) == Some(Models[i].1)
  {
    RegistryKeysDistinct();
    FindDeclared(Models, i);
  }

  /** Lookup succeeds exactly for the ids the listing endpoint enumerates. */
  lemma LookupIffListed(id: string)
    ensures Lookup(id).Some? <==> id in Ids()
  {
  }

  /** The startup invariant: the default id is a registry key, resolving to its declared entry. */
  lemma DefaultModelRegistered()
    ensures DefaultModel in Ids()
    ensures Lookup(DefaultModel) == Some(ModelEntry("replicate", "black-forest-labs/flux-1.1-pro-ultra"))
  {
    LookupDeclared(0);
  }
}
