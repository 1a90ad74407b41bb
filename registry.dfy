/**
 * The workload registry: the class-level state of the Android Workload
 * base class. `_packages` caches the installed package list and stays
 * None until the first discovery; `_availables` maps the lower-cased
 * name of every variant found installed to that variant, and is only
 * ever extended.
 */
module Registry {
  import opened Wrappers
  import opened Text
  import opened Tracing

  // ---------------------------------------------------------------
  // Specification of _check_availables
  // ---------------------------------------------------------------

  /**
   * The availability map after visiting `variants` in order from `m`:
   * each variant whose package is installed is stored under its
   * lower-cased name, so a later variant replaces an earlier one with
   * the same key.
   */
  function Discover(m: map<string, Descriptor>, variants: seq<Descriptor>, installed: seq<string>)
    : map<string, Descriptor>
    decreases |variants|
  {
    if |variants| == 0 then m
    else
      var prev := Discover(m, variants[..|variants| - 1], installed);
      var v := variants[|variants| - 1];
      if v.package in installed then prev[Lower(v.name) := v] else prev
  }

  /** Variant `i` is installed and is stored under key `k`. */
  predicate Adds(variants: seq<Descriptor>, installed: seq<string>, i: int, k: string) {
    0 <= i < |variants| && variants[i].package in installed && Lower(variants[i].name) == k
  }

  /** A key is present after discovery exactly when it was before or an installed variant has it. */
  lemma {:induction false} DiscoverKeys(m: map<string, Descriptor>, variants: seq<Descriptor>,
                                        installed: seq<string>, k: string)
    ensures k in Discover(m, variants, installed) <==> k in m || exists i :: Adds(variants, installed, i, k)
    decreases |variants|
  {
    if |variants| > 0 {
      var init := variants[..|variants| - 1];
      var last := |variants| - 1;
      DiscoverKeys(m, init, installed, k);
      if Adds(variants, installed, last, k) {
        assert k in Discover(m, variants, installed);
      } else {
        assert k in Discover(m, variants, installed) <==> k in Discover(m, init, installed);
      }
      if exists i :: Adds(variants, installed, i, k) {
        var i :| Adds(variants, installed, i, k);
        if i < |init| {
          assert Adds(init, installed, i, k);
        }
      }
      if exists i :: Adds(init, installed, i, k) {
        var i :| Adds(init, installed, i, k);
        assert Adds(variants, installed, i, k);
      }
    }
  }

  /**
   * The value stored under a key is the last installed variant with that
   * key, or the previous value when no installed variant has it.
   */
  lemma {:induction false} DiscoverValue(m: map<string, Descriptor>, variants: seq<Descriptor>,
                                         installed: seq<string>, k: string)
    requires k in Discover(m, variants, installed)
    ensures var r := Discover(m, variants, installed)[k];
      (exists i :: Adds(variants, installed, i, k) && r == variants[i]
                   && forall j :: i < j ==> !Adds(variants, installed, j, k))
      || (k in m && r == m[k] && forall i :: !Adds(variants, installed, i, k))
    decreases |variants|
  {
    var r := Discover(m, variants, installed)[k];
    if |variants| > 0 {
      var init := variants[..|variants| - 1];
      var last := |variants| - 1;
      if Adds(variants, installed, last, k) {
        assert r == variants[last];
      } else {
        DiscoverKeys(m, init, installed, k);
        DiscoverValue(m, init, installed, k);
        assert r == Discover(m, init, installed)[k];
        if exists i :: Adds(init, installed, i, k) && r == init[i]
                       && forall j :: i < j ==> !Adds(init, installed, j, k) {
          var i :| Adds(init, installed, i, k) && r == init[i]
                   && forall j :: i < j ==> !Adds(init, installed, j, k);
          assert Adds(variants, installed, i, k);
          forall j | i < j ensures !Adds(variants, installed, j, k) {
            if j < last {
              assert !Adds(init, installed, j, k);
            }
          }
        } else {
          forall i ensures !Adds(variants, installed, i, k) {
            if 0 <= i < last {
              assert !Adds(init, installed, i, k);
            }
          }
        }
      }
    }
  }

  /** Discovery only extends the map: no key is ever removed. */
  lemma {:induction false} DiscoverExtends(m: map<string, Descriptor>, variants: seq<Descriptor>, installed: seq<string>)
    ensures m.Keys <= Discover(m, variants, installed).Keys
  {
    forall k | k in m ensures k in Discover(m, variants, installed) {
      DiscoverKeys(m, variants, installed, k);
    }
  }

  /**
   * Every entry discovery adds is an installed variant stored under its
   * own lower-cased name; a variant whose package is not installed is
   * never added.
   */
  lemma {:induction false} DiscoverSound(m: map<string, Descriptor>, variants: seq<Descriptor>, installed: seq<string>, k: string)
    requires k in Discover(m, variants, installed) && k !in m
    ensures var v := Discover(m, variants, installed)[k];
      v in variants && v.package in installed && Lower(v.name) == k
  {
    DiscoverValue(m, variants, installed, k);
  }

  /** Discovered from an empty map, the keys are exactly the names of the installed variants. */
  lemma {:induction false} DiscoverExact(variants: seq<Descriptor>, installed: seq<string>)
    ensures Discover(map[], variants, installed).Keys
         == set i | 0 <= i < |variants| && variants[i].package in installed :: Lower(variants[i].name)
  {
    var found := set i | 0 <= i < |variants| && variants[i].package in installed :: Lower(variants[i].name);
    forall k ensures k in Discover(map[], variants, installed) <==> k in found {
      DiscoverKeys(map[], variants, installed, k);
      if k in found {
        var i :| 0 <= i < |variants| && variants[i].package in installed && Lower(variants[i].name) == k;
        assert Adds(variants, installed, i, k);
      }
    }
  }

  /**
   * When no later installed variant shares its lower-cased name, an
   * installed variant is what its name maps to after discovery.
   */
  lemma DiscoverFinds(m: map<string, Descriptor>, variants: seq<Descriptor>, installed: seq<string>, i: nat)
    requires i < |variants| && variants[i].package in installed
    requires forall j :: i < j < |variants| ==> !Adds(variants, installed, j, Lower(variants[i].name))
    ensures var k := Lower(variants[i].name);
      k in Discover(m, variants, installed) && Discover(m, variants, installed)[k] == variants[i]
  {
    var k := Lower(variants[i].name);
    assert Adds(variants, installed, i, k);
    DiscoverKeys(m, variants, installed, k);
    DiscoverValue(m, variants, installed, k);
    var r := Discover(m, variants, installed)[k];
    if exists i' :: Adds(variants, installed, i', k) && r == variants[i']
                    && forall j :: i' < j ==> !Adds(variants, installed, j, k) {
      var i' :| Adds(variants, installed, i', k) && r == variants[i']
                && forall j :: i' < j ==> !Adds(variants, installed, j, k);
      assert i' == i;
    }
  }

  // ---------------------------------------------------------------
  // Specification of the lookup in getInstance
  // ---------------------------------------------------------------

  /** The variant registered for a name, ignoring its case, or NotAvailable. */
  function Lookup(availables: map<string, Descriptor>, name: string): (r: Result<Descriptor, Error>)
    ensures r.Failure? <==> Lower(name) !in availables
    ensures r.Failure? ==> r.error == NotAvailable(name)
    ensures r.Success? ==> r.value == availables[Lower(name)]
  {
    if Lower(name) in availables then Success(availables[Lower(name)]) else Failure(NotAvailable(name))
  }

  /** Names that differ only in case resolve identically. */
  lemma LookupIgnoresCase(availables: map<string, Descriptor>, a: string, b: string)
    requires EqualIgnoringCase(a, b)
    ensures Lookup(availables, a).Success? <==> Lookup(availables, b).Success?
    ensures Lookup(availables, a).Success? ==> Lookup(availables, a).value == Lookup(availables, b).value
  {
    LowerIdentifiesCase(a, b);
  }

  // ---------------------------------------------------------------
  // The class-level registry state
  // ---------------------------------------------------------------

  class WorkloadRegistry {
    /** The workload variants, in the order `Workload.__subclasses__()` lists them. */
    const variants: seq<Descriptor>
    /** `_packages`: the installed package list, once queried. */
    var packages: Option<seq<string>>
    /** `_availables`: lower-cased variant name to variant. */
    var availables: map<string, Descriptor>
    /** How many times the package list has been queried from the device. */
    ghost var queries: nat

    /** Every key is the lower-cased name of the known variant it maps to; nothing is known before discovery. */
    ghost predicate Valid()
      reads this
    {
      (forall k :: k in availables ==> availables[k] in variants && Lower(availables[k].name) == k)
      && (packages.None? ==> availables == map[])
    }

    constructor (variants: seq<Descriptor>)
      ensures this.variants == variants
      ensures packages == None && availables == map[] && queries == 0
      ensures Valid()
    {
      this.variants := variants;
      packages := None;
      availables := map[];
      queries := 0;
    }

    /** `_check_availables`: query the installed packages and register every installed variant. */
    method CheckAvailables(env: TestEnv)
      requires Valid()
      modifies this`packages, this`availables, this`queries
      ensures packages == Some(env.installed) && queries == old(queries) + 1
      ensures availables == Discover(old(availables), variants, env.installed)
      ensures Valid()
    {
      packages := Some(env.installed);
      queries := queries + 1;
      var i := 0;
      while i < |variants|
        invariant 0 <= i <= |variants|
        invariant availables == Discover(old(availables), variants[..i], env.installed)
        invariant packages == Some(env.installed) && queries == old(queries) + 1
        invariant Valid()
      {
        var v := variants[i];
        assert variants[..i + 1][..i] == variants[..i];
        if v.package in env.installed {
          availables := availables[Lower(v.name) := v];
        }
        i := i + 1;
      }
      assert variants[..|variants|] == variants;
    }

    /**
     * `getInstance`: discover on first use only, then look the name up
     * ignoring case and build a fresh workload of the variant found.
     */
    method GetInstance(env: TestEnv, name: string) returns (r: Result<Workload, Error>)
      requires Valid()
      modifies this`packages, this`availables, this`queries
      ensures Valid() && packages.Some?
      ensures old(packages).Some? ==>
        packages == old(packages) && availables == old(availables) && queries == old(queries)
      ensures old(packages).None? ==>
        packages == Some(env.installed) && queries == old(queries) + 1
        && availables == Discover(map[], variants, env.installed)
      ensures r.Failure? <==> Lower(name) !in availables
      ensures r.Failure? ==> r.error == NotAvailable(name)
      ensures r.Success? ==>
        fresh(r.value) && r.value.variant == availables[Lower(name)] && r.value.Initial()
        && r.value.adbName == env.adbName && r.value.emeterPresent == env.emeterPresent
    {
      if packages.None? {
        CheckAvailables(env);
      }
      var found := Lookup(availables, name);
      match found
      case Failure(e) =>
        r := Failure(e);
      case Success(variant) =>
        var w := new Workload(env, variant);
        r := Success(w);
    }
  }

  /**
   * Two lookups on one registry: the package list is queried at most
   * once, and a name and its upper-cased spelling give the same answer.
   */
  method LookupTwice(registry: WorkloadRegistry, env: TestEnv, name: string, other: string)
    returns (first: Result<Workload, Error>, second: Result<Workload, Error>)
    requires registry.Valid() && EqualIgnoringCase(name, other)
    modifies registry
    ensures registry.queries <= old(registry.queries) + 1
    ensures first.Success? <==> second.Success?
    ensures first.Success? ==> first.value.variant == second.value.variant
  {
    first := registry.GetInstance(env, name);
    second := registry.GetInstance(env, other);
    LowerIdentifiesCase(name, other);
  }
}
