/** The registry over whole runs of reported object-path arrays, when several properties may list
    the same paths (src/lib/connman0_7x/e_connman_element.c). */
module ListedPaths {
  import opened ElementCache
  import opened Prelude
  import R = RegistryRun

  /** An array property of one object. */
  datatype Property = Property(owner: nat, name: string)

  /** An array of object paths is reported for a property. */
  datatype Report = Report(property: Property, items: seq<string>)

  type Arrays = map<Property, seq<string>>

  /** What is stored after the reports: the last array of each property. */
  ghost function Stored(reports: seq<Report>): Arrays {
    if reports == [] then map[] else
      var last := reports[|reports| - 1];
      Stored(reports[..|reports| - 1])[last.property := last.items]
  }

  /** The paths that stored arrays list under a registering name. */
  ghost function Listed(arrays: Arrays): set<string> {
    set p, path | p in arrays.Keys && path in R.Listed(p.name, arrays[p]) :: path
  }

  ghost function Adds(r: Report): set<string> {
    R.Listed(r.property.name, r.items)
  }

  /** The paths that the last report has unregistered. */
  ghost function Drops(reports: seq<Report>): set<string>
    requires reports != []
  {
    var last := reports[|reports| - 1];
    R.Dropped(Lookup(Stored(reports[..|reports| - 1]), last.property), last.items)
  }

  /** The registered paths after the reports, from a registry with the paths roots. */
  ghost function Paths(roots: set<string>, reports: seq<Report>): set<string> {
    if reports == [] then roots else
      Paths(roots, reports[..|reports| - 1]) + Adds(reports[|reports| - 1]) - Drops(reports)
  }

  /** The registry has what it began with and what is listed now, and nothing else. */
  ghost predicate InStep(roots: set<string>, reports: seq<Report>) {
    Paths(roots, reports) == roots + Listed(Stored(reports))
  }

  /** A report dropped the path, and none since has listed it. */
  ghost predicate Lost(reports: seq<Report>, path: string) {
    reports != [] &&
    (path in Drops(reports) || (Lost(reports[..|reports| - 1], path) && path !in Adds(reports[|reports| - 1])))
  }

  // ----- one report

  lemma ListedNext(reports: seq<Report>, path: string)
    requires reports != []
    ensures path in Adds(reports[|reports| - 1]) ==> path in Listed(Stored(reports))
    ensures path in Listed(Stored(reports)) ==>
              path in Adds(reports[|reports| - 1]) || path in Listed(Stored(reports[..|reports| - 1]))
    ensures path in Listed(Stored(reports[..|reports| - 1])) ==>
              path in Listed(Stored(reports)) || path in Drops(reports)
  {
    var last := reports[|reports| - 1];
    var before, after := Stored(reports[..|reports| - 1]), Stored(reports);
    assert after[last.property] == last.items;
    if path in Listed(before) {
      var p :| p in before.Keys && path in R.Listed(p.name, before[p]);
      if p == last.property {
        SetOfIsSupport(before[p], path);
        SetOfIsSupport(last.items, path);
      } else {
        assert after[p] == before[p];
      }
    }
  }

  /** Nothing is registered that is not listed. */
  lemma {:induction false} NothingLeftOver(roots: set<string>, reports: seq<Report>, path: string)
    requires path in Paths(roots, reports)
    ensures path in roots || path in Listed(Stored(reports))
    ensures !Lost(reports, path)
  {
    if reports != [] {
      ListedNext(reports, path);
      if path !in Adds(reports[|reports| - 1]) {
        NothingLeftOver(roots, reports[..|reports| - 1], path);
      }
    }
  }

  lemma {:induction false} RegisteredUnlessLost(roots: set<string>, reports: seq<Report>, path: string)
    requires path in roots || path in Listed(Stored(reports))
    requires !Lost(reports, path)
    ensures path in Paths(roots, reports)
  {
    if reports != [] {
      ListedNext(reports, path);
      if path !in Adds(reports[|reports| - 1]) {
        RegisteredUnlessLost(roots, reports[..|reports| - 1], path);
      }
    }
  }

  // ----- runs

  /** After any reports the registry is in step if and only if no path that is listed was dropped,
      for another property, after it was last reported. */
  lemma InStepIff(roots: set<string>, reports: seq<Report>)
    ensures Paths(roots, reports) <= roots + Listed(Stored(reports))
    ensures InStep(roots, reports) <==> forall path :: path in roots + Listed(Stored(reports)) ==> !Lost(reports, path)
  {
    forall path | path in Paths(roots, reports)
      ensures path in roots + Listed(Stored(reports)) && !Lost(reports, path)
    {
      NothingLeftOver(roots, reports, path);
    }
    forall path | path in roots + Listed(Stored(reports)) && !Lost(reports, path)
      ensures path in Paths(roots, reports)
    {
      RegisteredUnlessLost(roots, reports, path);
    }
  }

  /** The last report drops nothing that is still listed. */
  ghost predicate Clean(roots: set<string>, reports: seq<Report>)
    requires reports != []
  {
    Drops(reports) !! roots + Listed(Stored(reports))
  }

  lemma InStepNext(roots: set<string>, reports: seq<Report>)
    requires reports != [] && InStep(roots, reports[..|reports| - 1])
    ensures InStep(roots, reports) <==> Clean(roots, reports)
  {
    forall path
      ensures path in Paths(roots, reports) <==>
              path in roots + Listed(Stored(reports)) && path !in Drops(reports)
    {
      ListedNext(reports, path);
    }
    assert InStep(roots, reports) ==> Clean(roots, reports);
  }

  lemma InStepAfter(roots: set<string>, reports: seq<Report>, i: nat)
    requires 0 < i <= |reports| && InStep(roots, reports[..i - 1])
    ensures InStep(roots, reports[..i]) <==> Clean(roots, reports[..i])
  {
    assert reports[..i][..i - 1] == reports[..i - 1];
    InStepNext(roots, reports[..i]);
  }

  lemma {:induction false} CleanKeeps(roots: set<string>, reports: seq<Report>, i: nat)
    requires i <= |reports| && forall k :: 0 < k <= i ==> Clean(roots, reports[..k])
    ensures InStep(roots, reports[..i])
  {
    if i > 0 {
      CleanKeeps(roots, reports, i - 1);
      InStepAfter(roots, reports, i);
    }
  }

  /** The registry is in step all the way if and only if no report drops a path that is still
      listed elsewhere. */
  lemma AlwaysInStepIff(roots: set<string>, reports: seq<Report>)
    ensures (forall i :: 0 <= i <= |reports| ==> InStep(roots, reports[..i])) <==>
            (forall i :: 0 < i <= |reports| ==> Clean(roots, reports[..i]))
  {
    if forall i :: 0 <= i <= |reports| ==> InStep(roots, reports[..i]) {
      forall i | 0 < i <= |reports| ensures Clean(roots, reports[..i]) {
        InStepAfter(roots, reports, i);
      }
    }
    if forall i :: 0 < i <= |reports| ==> Clean(roots, reports[..i]) {
      forall i | 0 <= i <= |reports| ensures InStep(roots, reports[..i]) {
        CleanKeeps(roots, reports, i);
      }
    }
  }

  /** Manager and profile list a service; it leaves the profile, and is unregistered while the
      manager still lists it. */
  lemma ServiceUnregistered(path: string, manager: Property, profile: Property)
    requires manager == Property(0, "Services") && profile == Property(1, "Services")
    ensures var reports := [Report(manager, [path]), Report(profile, [path]), Report(profile, [])];
            path in Listed(Stored(reports)) && path !in Paths({}, reports)
  {
    var reports := [Report(manager, [path]), Report(profile, [path]), Report(profile, [])];
    assert reports[..2] == [reports[0], reports[1]];
    assert reports[..2][..1] == [reports[0]] && reports[..2][..1][..0] == [];
    assert Stored(reports[..2][..1]) == map[manager := [path]];
    assert Stored(reports[..2])[profile] == [path];
    assert Stored(reports) == Stored(reports[..2])[profile := []];
    assert manager in Stored(reports).Keys && Stored(reports)[manager] == [path];
    assert SetOf([path]) == SetOf([]) + {path};
    assert path in R.Listed(manager.name, [path]) && path in Drops(reports);
  }

  /** The registry itself comes to these paths. */
  method WholeRun(c: Cache, reports: seq<Report>) returns (arrays: Arrays)
    requires c.Valid()
    modifies c
    ensures c.Valid() && arrays == Stored(reports) && c.elements.Keys == Paths(old(c.elements.Keys), reports)
  {
    arrays := map[];
    for i := 0 to |reports|
      invariant c.Valid() && arrays == Stored(reports[..i]) && fresh(c.known - old(c.known))
      invariant c.elements.Keys == Paths(old(c.elements.Keys), reports[..i])
    {
      var Report(property, items) := reports[i];
      assert reports[..i + 1][..i] == reports[..i];
      ghost var _, made, gone := c.ArrayChanged(property.name, Lookup(arrays, property), items);
      arrays := arrays[property := items];
    }
    assert reports[..|reports|] == reports;
  }
}
