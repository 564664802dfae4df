/** The tool registry (`DANGEROUS_TOOLS`) and the resolution of a tool policy
    label into the tools the downstream model may call (`allowedTools`) and
    the ones it may not (`restrictedTools`), as in app/api/chat/route.ts. */
module Tools {

  /** One registry entry: the key of `DANGEROUS_TOOLS` and its `risk_level`. */
  datatype Tool = Tool(name: string, riskLevel: string)

  const LOW := "LOW"

  /** Policy labels the route recognises; any other label allows everything. */
  const ALLOW_ALL := "ALLOW_ALL"
  const RESTRICTED := "RESTRICTED"
  const SHUTDOWN := "SHUTDOWN"

  /** The registry is a JavaScript object, so its keys are unique. */
  predicate UniqueNames(registry: seq<Tool>) {
    forall i, j :: 0 <= i < j < |registry| ==> registry[i].name != registry[j].name
  }

  /** `Object.keys(DANGEROUS_TOOLS)`: the tool names in registry order. */
  function Names(registry: seq<Tool>): (r: seq<string>)
    ensures |r| == |registry|
    ensures forall i :: 0 <= i < |registry| ==> r[i] == registry[i].name
  {
    if registry == [] then [] else [registry[0].name] + Names(registry[1..])
  }

  /** `Object.keys(DANGEROUS_TOOLS).filter(t => DANGEROUS_TOOLS[t].risk_level === "LOW")`;
      with unique keys, looking a name up finds the entry it came from. */
  function LowRiskNames(registry: seq<Tool>): seq<string> {
    if registry == [] then []
    else (if registry[0].riskLevel == LOW then [registry[0].name] else [])
         + LowRiskNames(registry[1..])
  }

  /** The `allowedTools` the route computes for a policy label. */
  function AllowedTools(policy: string, registry: seq<Tool>): seq<string> {
    if policy == RESTRICTED then LowRiskNames(registry)
    else if policy == SHUTDOWN then []
    else Names(registry)
  }

  /** `names.filter(t => !allowed.includes(t))`. */
  function Exclude(names: seq<string>, allowed: seq<string>): (r: seq<string>)
    ensures forall n :: n in r <==> n in names && n !in allowed
  {
    if names == [] then []
    else (if names[0] in allowed then [] else [names[0]]) + Exclude(names[1..], allowed)
  }

  /** The `restrictedTools` the route reports next to `allowed`. */
  function RestrictedTools(registry: seq<Tool>, allowed: seq<string>): seq<string> {
    Exclude(Names(registry), allowed)
  }

  // ---------------------------------------------------------------------
  // Reference definition: a policy decides tool by tool.
  // ---------------------------------------------------------------------

  /** Whether a policy label lets the model use a tool: `RESTRICTED` only
      low-risk tools, `SHUTDOWN` none, every other label all of them. */
  predicate Permits(policy: string, t: Tool) {
    if policy == RESTRICTED then t.riskLevel == LOW else policy != SHUTDOWN
  }

  /** Names of the tools `policy` permits, in registry order. */
  function PermittedNames(policy: string, registry: seq<Tool>): seq<string> {
    if registry == [] then []
    else (if Permits(policy, registry[0]) then [registry[0].name] else [])
         + PermittedNames(policy, registry[1..])
  }

  /** Names of the tools `policy` does not permit, in registry order. */
  function DeniedNames(policy: string, registry: seq<Tool>): seq<string> {
    if registry == [] then []
    else (if Permits(policy, registry[0]) then [] else [registry[0].name])
         + DeniedNames(policy, registry[1..])
  }

  lemma {:induction false} PermittedNamesIn(policy: string, registry: seq<Tool>)
    ensures forall n :: n in PermittedNames(policy, registry) ==>
      exists i :: 0 <= i < |registry| && registry[i].name == n && Permits(policy, registry[i])
    ensures forall n :: n in DeniedNames(policy, registry) ==>
      exists i :: 0 <= i < |registry| && registry[i].name == n && !Permits(policy, registry[i])
    ensures |PermittedNames(policy, registry)| + |DeniedNames(policy, registry)| == |registry|
  {
    if registry != [] {
      PermittedNamesIn(policy, registry[1..]);
      forall n | n in PermittedNames(policy, registry[1..])
        ensures exists i :: 0 <= i < |registry| && registry[i].name == n && Permits(policy, registry[i])
      {
        var i :| 0 <= i < |registry[1..]| && registry[1..][i].name == n && Permits(policy, registry[1..][i]);
        assert registry[i + 1] == registry[1..][i];
      }
      forall n | n in DeniedNames(policy, registry[1..])
        ensures exists i :: 0 <= i < |registry| && registry[i].name == n && !Permits(policy, registry[i])
      {
        var i :| 0 <= i < |registry[1..]| && registry[1..][i].name == n && !Permits(policy, registry[1..][i]);
        assert registry[i + 1] == registry[1..][i];
      }
    }
  }

  /** With unique names, a name is permitted exactly when its tool is. */
  lemma PermittedNameIff(policy: string, registry: seq<Tool>, k: nat)
    requires UniqueNames(registry) && k < |registry|
    ensures registry[k].name in PermittedNames(policy, registry) <==> Permits(policy, registry[k])
    ensures registry[k].name in DeniedNames(policy, registry) <==> !Permits(policy, registry[k])
  {
    PermittedNamesIn(policy, registry);
    PermittedNamesFrom(policy, registry, k);
  }

  /** Every tool lands in the list its verdict says. */
  lemma {:induction false} PermittedNamesFrom(policy: string, registry: seq<Tool>, k: nat)
    requires k < |registry|
    ensures Permits(policy, registry[k]) ==> registry[k].name in PermittedNames(policy, registry)
    ensures !Permits(policy, registry[k]) ==> registry[k].name in DeniedNames(policy, registry)
  {
    if k > 0 {
      PermittedNamesFrom(policy, registry[1..], k - 1);
    }
  }

  // ---------------------------------------------------------------------
  // The route's computation agrees with the reference definition.
  // ---------------------------------------------------------------------

  /** `allowedTools` is the list of names the policy permits, in registry order. */
  lemma {:induction false} AllowedIsPermitted(policy: string, registry: seq<Tool>)
    ensures AllowedTools(policy, registry) == PermittedNames(policy, registry)
  {
    if registry != [] {
      AllowedIsPermitted(policy, registry[1..]);
    } else {
      assert Names(registry) == [];
    }
    if policy != RESTRICTED && policy != SHUTDOWN && registry != [] {
      assert Names(registry) == [registry[0].name] + Names(registry[1..]);
    }
  }

  /** Excluding is insensitive to names of `allowed` that do not occur. */
  lemma {:induction false} ExcludeAgrees(names: seq<string>, a: seq<string>, b: seq<string>)
    requires forall n :: n in names ==> (n in a <==> n in b)
    ensures Exclude(names, a) == Exclude(names, b)
  {
    if names != [] {
      ExcludeAgrees(names[1..], a, b);
    }
  }

  /** With unique names, `restrictedTools` is the list of names the policy
      denies, in registry order. */
  lemma {:induction false} RestrictedIsDenied(policy: string, registry: seq<Tool>)
    requires UniqueNames(registry)
    ensures RestrictedTools(registry, PermittedNames(policy, registry)) == DeniedNames(policy, registry)
  {
    if registry != [] {
      var t, rest := registry[0], registry[1..];
      var allowed, allowedRest := PermittedNames(policy, registry), PermittedNames(policy, rest);
      RestrictedIsDenied(policy, rest);
      PermittedNamesIn(policy, rest);
      assert Names(registry) == [t.name] + Names(rest);
      // t's name occurs nowhere else in the registry.
      forall i | 0 <= i < |rest| ensures rest[i].name != t.name {
        assert rest[i] == registry[i + 1];
      }
      assert t.name !in Names(rest);
      assert t.name !in allowedRest;
      ExcludeAgrees(Names(rest), allowed, allowedRest);
      assert t.name in allowed <==> Permits(policy, t);
    }
  }

  /** Policy resolution: for every label, `allowedTools` and `restrictedTools`
      split the registry. Both are in registry order, they are disjoint,
      together they are the registry, a tool is allowed exactly when the
      label permits it (`SHUTDOWN` none, `RESTRICTED` exactly the low-risk
      ones, any other label all of them), and their sizes add up to the
      registry's. */
  lemma PolicyPartition(policy: string, registry: seq<Tool>)
    requires UniqueNames(registry)
    ensures var allowed := AllowedTools(policy, registry);
            var restricted := RestrictedTools(registry, allowed);
            && allowed == PermittedNames(policy, registry)
            && restricted == DeniedNames(policy, registry)
            && (forall n :: n in Names(registry) <==> n in allowed || n in restricted)
            && (forall n :: !(n in allowed && n in restricted))
            && (forall k :: 0 <= k < |registry| ==>
                  (registry[k].name in allowed <==> Permits(policy, registry[k])))
            && |allowed| + |restricted| == |registry|
  {
    var allowed := AllowedTools(policy, registry);
    AllowedIsPermitted(policy, registry);
    RestrictedIsDenied(policy, registry);
    PermittedNamesIn(policy, registry);
    forall n | n in allowed ensures n in Names(registry) {
      var i :| 0 <= i < |registry| && registry[i].name == n && Permits(policy, registry[i]);
      assert Names(registry)[i] == n;
    }
    forall k | 0 <= k < |registry|
      ensures registry[k].name in allowed <==> Permits(policy, registry[k])
    {
      PermittedNameIff(policy, registry, k);
    }
  }

  /** The three labels, spelled out. */
  lemma PolicyLabels(policy: string, registry: seq<Tool>)
    requires UniqueNames(registry)
    ensures policy == SHUTDOWN ==> AllowedTools(policy, registry) == []
    ensures policy == SHUTDOWN ==> RestrictedTools(registry, AllowedTools(policy, registry)) == Names(registry)
    ensures policy == RESTRICTED ==> forall k :: 0 <= k < |registry| ==>
              (registry[k].name in AllowedTools(policy, registry) <==> registry[k].riskLevel == LOW)
    ensures policy != RESTRICTED && policy != SHUTDOWN ==>
              AllowedTools(policy, registry) == Names(registry)
              && RestrictedTools(registry, AllowedTools(policy, registry)) == []
  {
    PolicyPartition(policy, registry);
    if policy == SHUTDOWN {
      assert Exclude(Names(registry), []) == Names(registry) by {
        ExcludeNothing(Names(registry));
      }
    }
  }

  lemma {:induction false} ExcludeNothing(names: seq<string>)
    ensures Exclude(names, []) == names
  {
    if names != [] {
      ExcludeNothing(names[1..]);
    }
  }
}
