/**
 * The named-client registry of instance.go: `Instance(name)` returns the client of a
 * configuration group, building it through `New` on first use and reusing it afterwards.
 */
module Instances {
  import opened Wrappers
  import opened Errors
  import opened Adapters
  import opened Client

  /** The group a call refers to: the first name when there is one and it is not empty. */
  function GroupName(name: seq<string>): (g: string)
    ensures g != ""
    ensures |name| > 0 && name[0] != "" ==> g == name[0]
    ensures |name| == 0 || name[0] == "" ==> g == DefaultGroupName
  {
    if |name| > 0 && name[0] != "" then name[0] else DefaultGroupName
  }

  /** No name, an empty name and the default group's own name all select the same entry. */
  lemma DefaultNameAliases(rest: seq<string>)
    ensures GroupName([]) == GroupName([""] + rest) == GroupName([DefaultGroupName] + rest)
  {
  }

  /**
   * What the registry's map holds after storing `v` under `g`: whether a nil (failed) result is
   * stored is the map library's rule, given here as `storesNil`.
   */
  function Remember(m: map<string, Redis?>, g: string, v: Redis?, storesNil: bool): (m': map<string, Redis?>)
    ensures v != null || storesNil ==> g in m' && m'[g] == v && m'.Keys == m.Keys + {g}
    ensures v == null && !storesNil ==> m' == m
    ensures forall k | k != g :: (k in m' <==> k in m) && (k in m ==> m'[k] == m[k])
  {
    if v != null || storesNil then m[g := v] else m
  }

  class Registry {
    /** `localInstances`: group name to client (or to nil, when the map keeps failures). */
    var instances: map<string, Redis?>
    const pkg: Globals
    const storesNil: bool

    /** Without the nil-storing rule, every entry is a client. */
    ghost predicate Valid()
      reads this
    {
      !storesNil ==> forall g | g in instances :: instances[g] != null
    }

    constructor (pkg: Globals, storesNil: bool)
      ensures Valid()
      ensures instances == map[] && this.pkg == pkg && this.storesNil == storesNil
    {
      instances := map[];
      this.pkg := pkg;
      this.storesNil := storesNil;
    }

    /**
     * The client of group `GroupName(name)`. An existing entry is returned as it is, without
     * consulting configuration or the factory. Otherwise the group's configuration is looked
     * up; without one, or when `New` refuses it, the result is nil; on success the new client
     * carries that configuration and the current factory's adapter and is remembered. No other
     * group's entry changes.
     */
    method Instance(name: seq<string>) returns (r: Redis?)
      requires Valid()
      modifies this`instances
      ensures Valid()
      ensures var g := GroupName(name);
        g in old(instances) ==> r == old(instances)[g] && instances == old(instances)
      ensures var g := GroupName(name);
        g !in old(instances) && g !in pkg.configs ==>
          r == null && instances == Remember(old(instances), g, null, storesNil)
      ensures var g := GroupName(name);
        g !in old(instances) && g in pkg.configs && pkg.adapterFunc(pkg.configs[g]) == null ==>
          r == null && instances == Remember(old(instances), g, null, storesNil)
      ensures var g := GroupName(name);
        g !in old(instances) && g in pkg.configs && pkg.adapterFunc(pkg.configs[g]) != null ==>
          && r != null && fresh(r)
          && r.config == Some(pkg.configs[g])
          && r.adapter == pkg.adapterFunc(pkg.configs[g])
          && r.group == GroupsOf(r.adapter)
          && instances == old(instances)[g := r]
      ensures r != null ==> GroupName(name) in instances && instances[GroupName(name)] == r
      ensures forall k | k != GroupName(name) ::
                (k in instances <==> k in old(instances)) && (k in old(instances) ==> instances[k] == old(instances)[k])
    {
      var group := GroupName(name);
      if group in instances {
        return instances[group];
      }
      var built: Redis? := null;
      if group in pkg.configs {
        var c, err := pkg.New([Some(pkg.configs[group])]);
        if err.None? {
          built := c;
        }
      }
      instances := Remember(instances, group, built, storesNil);
      r := built;
    }
  }

  /**
   * Two lookups of one group give the same answer. When nil results are not stored, a failed
   * first lookup leaves no entry behind, so the second one tries to build the client again.
   */
  method InstanceIsMemoized(reg: Registry, name: seq<string>) returns (first: Redis?, second: Redis?)
    requires reg.Valid()
    modifies reg
    ensures second == first
    ensures !reg.storesNil && first == null ==> GroupName(name) !in reg.instances
  {
    first := reg.Instance(name);
    second := reg.Instance(name);
  }
}
