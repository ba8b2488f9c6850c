/**
 * utils/manifest_loader.py: `AgentManifest` keeps the decoded `agents/manifest.yaml` and answers
 * which agents an agent depends on, and whether all of them have already run. The file read and
 * the YAML decoding happen once, at construction, and are given here as the loaded value.
 */
module ManifestLoader {
  import opened Wrappers
  import opened Paths
  import opened JsonValues
  import opened PydanticFields

  /** `d.get(key, default)`: the dict's entry, or the default; a value that is no dict has no `get`. */
  function Get(d: Json, key: string, default: Json): (r: Result<Json>)
    ensures d.JObject? && Lookup(d.entries, key).Some? ==> r == Ok(Lookup(d.entries, key).value)
    ensures d.JObject? && Lookup(d.entries, key).None? ==> r == Ok(default)
    ensures !d.JObject? ==> r == Err(AttributeError("'" + TypeName(d) + "' object has no attribute 'get'"))
  {
    if !d.JObject? then Err(AttributeError("'" + TypeName(d) + "' object has no attribute 'get'"))
    else
      match Lookup(d.entries, key)
      case Some(v) => Ok(v)
      case None => Ok(default)
  }

  /**
   * The lookup both manifest classes make: the agent's entry, `{}` for an agent the manifest does
   * not name; a manifest that is no dict raises.
   */
  function AgentEntry(manifest: Json, agentName: string): (r: Result<Json>)
    ensures manifest.JObject? && Lookup(manifest.entries, agentName).None? ==> r == Ok(JObject([]))
    ensures manifest.JObject? && Lookup(manifest.entries, agentName).Some? ==> r == Ok(Lookup(manifest.entries, agentName).value)
    ensures r.Ok? <==> manifest.JObject?
  {
    Get(manifest, agentName, JObject([]))
  }

  /** Lists and dicts cannot be members of a Python set. */
  predicate Hashable(j: Json) {
    !j.JList? && !j.JObject?
  }

  /** `set(items)`: the items, or TypeError at the first one that cannot be hashed. */
  function Elements(items: seq<Json>): (r: Result<set<Json>>)
    ensures r.Ok? <==> forall i :: 0 <= i < |items| ==> Hashable(items[i])
    ensures r.Ok? ==> forall x :: x in r.value <==> x in items
    ensures r.Err? ==> r.error.TypeError?
    decreases |items|
  {
    if items == [] then Ok({})
    else if !Hashable(items[0]) then Err(TypeError("unhashable type: '" + TypeName(items[0]) + "'"))
    else
      var rest :- Elements(items[1..]);
      assert forall x :: x in items <==> x == items[0] || x in items[1..];
      Ok({items[0]} + rest)
  }

  /**
   * `set(dependencies)` for whatever the manifest holds under `dependencies`: a list gives its
   * items, a string its characters, a dict its keys; any other value is not iterable.
   */
  function DependencySet(deps: Json): (r: Result<set<Json>>)
    ensures deps.JList? ==> r == Elements(deps.items)
    ensures deps.JStr? ==> r.Ok? && forall x :: x in r.value <==> exists i :: 0 <= i < |deps.s| && x == JStr([deps.s[i]])
    ensures !deps.JList? && !deps.JStr? && !deps.JObject? ==> r == Err(TypeError("'" + TypeName(deps) + "' object is not iterable"))
  {
    match deps
    case JList(items) => Elements(items)
    case JStr(s) => Ok(set i | 0 <= i < |s| :: JStr([s[i]]))
    case JObject(entries) => Ok(set i | 0 <= i < |entries| :: JStr(entries[i].0))
    case _ => Err(TypeError("'" + TypeName(deps) + "' object is not iterable"))
  }

  /** `required.issubset(done)` for a set of names `done`: every member is a name in `done`. */
  predicate SubsetOf(required: set<Json>, done: set<string>) {
    forall x :: x in required ==> x.JStr? && x.s in done
  }

  /** A subset of some names is a subset of any larger set of names. */
  lemma SubsetGrows(required: set<Json>, done: set<string>, more: set<string>)
    requires SubsetOf(required, done) && done <= more
    ensures SubsetOf(required, more)
  {
  }

  /** The set of a list of names is a subset exactly when every listed name is in `done`. */
  lemma {:induction false} NamesSubset(names: seq<string>, done: set<string>)
    ensures Elements(StringList(names).items).Ok?
    ensures SubsetOf(Elements(StringList(names).items).value, done) <==> forall n :: n in names ==> n in done
  {
    var items := StringList(names).items;
    assert forall i :: 0 <= i < |items| ==> items[i] == JStr(names[i]);
    var elems := Elements(items).value;
    if SubsetOf(elems, done) {
      forall n | n in names
        ensures n in done
      {
        var i :| 0 <= i < |names| && names[i] == n;
        assert items[i] in elems;
      }
    }
  }

  class AgentManifest {
    const manifestPath: FilePath
    /** `self.manifest`: what `yaml.safe_load` made of the manifest file. */
    const manifest: Json

    /** `AgentManifest(manifest_path)`; `loaded` is the decoded content of the file. */
    constructor(manifestPath: FilePath, loaded: Json)
      ensures this.manifestPath == manifestPath && manifest == loaded
    {
      this.manifestPath := manifestPath;
      manifest := loaded;
    }

    /** `get_agent_metadata`: the agent's entry, `{}` for an agent the manifest does not name. */
    function GetAgentMetadata(agentName: string): (r: Result<Json>)
      ensures r == AgentEntry(manifest, agentName)
    {
      AgentEntry(manifest, agentName)
    }

    /** `get_dependencies`: the entry's `dependencies`, `[]` for an unknown agent or a missing key. */
    function GetDependencies(agentName: string): (r: Result<Json>)
      ensures manifest.JObject? && Lookup(manifest.entries, agentName).None? ==> r == Ok(JList([]))
      ensures (GetAgentMetadata(agentName).Ok? && GetAgentMetadata(agentName).value.JObject?
               && Lookup(GetAgentMetadata(agentName).value.entries, "dependencies").None?) ==> r == Ok(JList([]))
      ensures r.Ok? <==> GetAgentMetadata(agentName).Ok? && GetAgentMetadata(agentName).value.JObject?
    {
      var metadata :- GetAgentMetadata(agentName);
      Get(metadata, "dependencies", JList([]))
    }

    /**
     * `validate_dependency_chain`: whether every dependency is among the executed agents; the
     * errors of the lookups and of `set()` pass through.
     */
    function ValidateDependencyChain(agentName: string, executed: set<string>): (r: Result<bool>)
      ensures r.Ok? <==> GetDependencies(agentName).Ok? && DependencySet(GetDependencies(agentName).value).Ok?
      ensures r.Ok? ==> (r.value <==> SubsetOf(DependencySet(GetDependencies(agentName).value).value, executed))
    {
      var deps :- GetDependencies(agentName);
      var required :- DependencySet(deps);
      Ok(SubsetOf(required, executed))
    }

    /** For dependencies listed as names, the chain is valid exactly when each name was executed. */
    lemma ValidIffAllExecuted(agentName: string, names: seq<string>, executed: set<string>)
      requires GetDependencies(agentName) == Ok(StringList(names))
      ensures ValidateDependencyChain(agentName, executed) == Ok(forall n :: n in names ==> n in executed)
    {
      NamesSubset(names, executed);
    }

    /** An agent the manifest does not name, or without dependencies, is valid whatever has run. */
    lemma NoDependenciesValid(agentName: string, executed: set<string>)
      requires manifest.JObject?
      requires GetAgentMetadata(agentName).value.JObject?
      requires Lookup(GetAgentMetadata(agentName).value.entries, "dependencies").None?
      ensures ValidateDependencyChain(agentName, executed) == Ok(true)
      ensures ValidateDependencyChain(agentName, {}) == Ok(true)
    {
      assert Elements([]) == Ok({});
    }

    /** Running more agents never invalidates a chain. */
    lemma ValidStaysValid(agentName: string, executed: set<string>, more: set<string>)
      requires ValidateDependencyChain(agentName, executed) == Ok(true) && executed <= more
      ensures ValidateDependencyChain(agentName, more) == Ok(true)
    {
      SubsetGrows(DependencySet(GetDependencies(agentName).value).value, executed, more);
    }
  }
}

/**
 * utils/agent_manifest.py: the other `AgentManifest`, with `get_agent_info` and
 * `validate_dependency`; it decides dependencies the same way.
 */
module AgentManifestInfo {
  import opened Wrappers
  import opened Paths
  import opened JsonValues
  import opened PydanticFields
  import opened ManifestLoader

  class AgentManifest {
    const manifestPath: FilePath
    /** `self.manifest`: what `yaml.safe_load` made of the manifest file. */
    const manifest: Json

    /** `AgentManifest(manifest_path)`; `loaded` is the decoded content of the file. */
    constructor(manifestPath: FilePath, loaded: Json)
      ensures this.manifestPath == manifestPath && manifest == loaded
    {
      this.manifestPath := manifestPath;
      manifest := loaded;
    }

    /** `get_agent_info`: the agent's entry, `{}` for an agent the manifest does not name. */
    function GetAgentInfo(agentName: string): (r: Result<Json>)
      ensures r == AgentEntry(manifest, agentName)
    {
      AgentEntry(manifest, agentName)
    }

    /** `info.get("dependencies", [])` on the agent's entry: `[]` when the key is missing. */
    function Dependencies(agentName: string): (r: Result<Json>)
      ensures (GetAgentInfo(agentName).Ok? && GetAgentInfo(agentName).value.JObject?
               && Lookup(GetAgentInfo(agentName).value.entries, "dependencies").None?) ==> r == Ok(JList([]))
      ensures r.Ok? <==> GetAgentInfo(agentName).Ok? && GetAgentInfo(agentName).value.JObject?
    {
      var info :- GetAgentInfo(agentName);
      Get(info, "dependencies", JList([]))
    }

    /**
     * `validate_dependency`: whether the set of the entry's dependencies is a subset of the
     * completed agents; an entry without the key has none and is always valid.
     */
    function ValidateDependency(agentName: string, completedAgents: set<string>): (r: Result<bool>)
      ensures (GetAgentInfo(agentName).Ok? && GetAgentInfo(agentName).value.JObject?
               && Lookup(GetAgentInfo(agentName).value.entries, "dependencies").None?) ==> r == Ok(true)
      ensures r.Ok? <==> Dependencies(agentName).Ok? && DependencySet(Dependencies(agentName).value).Ok?
      ensures r.Ok? ==> (r.value <==> SubsetOf(DependencySet(Dependencies(agentName).value).value, completedAgents))
    {
      var deps :- Dependencies(agentName);
      var dependencies :- DependencySet(deps);
      assert deps == JList([]) ==> dependencies == {};
      Ok(SubsetOf(dependencies, completedAgents))
    }

    /** For dependencies listed as names, validation holds exactly when each name has completed. */
    lemma ValidIffSubset(agentName: string, names: seq<string>, completedAgents: set<string>)
      requires GetAgentInfo(agentName).Ok? && GetAgentInfo(agentName).value.JObject?
      requires Lookup(GetAgentInfo(agentName).value.entries, "dependencies") == Some(StringList(names))
      ensures ValidateDependency(agentName, completedAgents) == Ok(forall n :: n in names ==> n in completedAgents)
    {
      NamesSubset(names, completedAgents);
    }

    /** More completed agents never turn a valid dependency invalid. */
    lemma ValidStaysValid(agentName: string, completedAgents: set<string>, more: set<string>)
      requires ValidateDependency(agentName, completedAgents) == Ok(true) && completedAgents <= more
      ensures ValidateDependency(agentName, more) == Ok(true)
    {
      SubsetGrows(DependencySet(Dependencies(agentName).value).value, completedAgents, more);
    }
  }
}
