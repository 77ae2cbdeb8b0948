/**
 * What a builder holds after a whole sequence of calls: deduplicated
 * sources, the C facet folded into them, dependencies and tags in call
 * order, and last-write-wins for the key, the kind and the build file.
 */
module BuilderTraces {
  import opened Wrappers
  import opened Primitives
  import opened IdeInfoFacets
  import opened JavaCollections
  import opened IdeInfo

  /** The builder state after making `calls`, in order, starting from `s`. */
  function Run(s: BuilderState, calls: seq<BuilderCall>): BuilderState
    decreases |calls|
  {
    if calls == [] then s else Run(Step(s, calls[0]), calls[1..])
  }

  /** The `AddSource` call for each location, in order. */
  function AddSourceCalls(locs: seq<ArtifactLocation>): seq<BuilderCall> {
    seq(|locs|, i requires 0 <= i < |locs| => AddSource(locs[i]))
  }

  /** Every dependency edge the calls append, in call order. */
  function DependenciesAdded(calls: seq<BuilderCall>): seq<Dependency> {
    if calls == [] then [] else DependenciesAddedBy(calls[0]) + DependenciesAdded(calls[1..])
  }

  /** Every tag the calls append, in call order, duplicates kept. */
  function TagsAdded(calls: seq<BuilderCall>): seq<string> {
    if calls == [] then [] else (if calls[0].AddTag? then [calls[0].tag] else []) + TagsAdded(calls[1..])
  }

  /** Running `a` and then `b` is running `a + b`. */
  lemma {:induction false} RunAppend(s: BuilderState, a: seq<BuilderCall>, b: seq<BuilderCall>)
    ensures Run(s, a + b) == Run(Run(s, a), b)
    decreases |a|
  {
    if a == [] {
      assert a + b == b;
    } else {
      assert (a + b)[0] == a[0];
      assert (a + b)[1..] == a[1..] + b;
      RunAppend(Step(s, a[0]), a[1..], b);
    }
  }

  /**
   * The source set after the calls is the one before, united with what
   * each call contributes: its location for `AddSource`, the sources,
   * headers and textual headers for `SetCInfo`, nothing for any other call.
   */
  lemma {:induction false} RunSources(s: BuilderState, calls: seq<BuilderCall>)
    ensures forall x :: x in Run(s, calls).sources <==>
      x in s.sources || exists i :: 0 <= i < |calls| && x in SourcesAddedBy(calls[i])
    decreases |calls|
  {
    if calls != [] {
      var s' := Step(s, calls[0]);
      RunSources(s', calls[1..]);
      forall x | x in Run(s, calls).sources
        ensures x in s.sources || exists i :: 0 <= i < |calls| && x in SourcesAddedBy(calls[i])
      {
        if x !in s'.sources {
          var i :| 0 <= i < |calls[1..]| && x in SourcesAddedBy(calls[1..][i]);
          assert x in SourcesAddedBy(calls[i + 1]);
        } else if x !in s.sources {
          assert x in SourcesAddedBy(calls[0]);
        }
      }
      forall x | x in s.sources || exists i :: 0 <= i < |calls| && x in SourcesAddedBy(calls[i])
        ensures x in Run(s, calls).sources
      {
        if x !in s.sources {
          var i :| 0 <= i < |calls| && x in SourcesAddedBy(calls[i]);
          if i > 0 {
            assert x in SourcesAddedBy(calls[1..][i - 1]);
          }
        }
      }
    }
  }

  /**
   * The source set does not depend on the order of the calls: any
   * rearrangement of the same calls yields the same set.
   */
  lemma SourcesIgnoreCallOrder(s: BuilderState, calls: seq<BuilderCall>, reordered: seq<BuilderCall>)
    requires multiset(calls) == multiset(reordered)
    ensures Run(s, calls).sources == Run(s, reordered).sources
  {
    RunSources(s, calls);
    RunSources(s, reordered);
    forall x | x in Run(s, calls).sources ensures x in Run(s, reordered).sources {
      if x !in s.sources {
        var i :| 0 <= i < |calls| && x in SourcesAddedBy(calls[i]);
        assert calls[i] in multiset(reordered);
        var j :| 0 <= j < |reordered| && reordered[j] == calls[i];
      }
    }
    forall x | x in Run(s, reordered).sources ensures x in Run(s, calls).sources {
      if x !in s.sources {
        var j :| 0 <= j < |reordered| && x in SourcesAddedBy(reordered[j]);
        assert reordered[j] in multiset(calls);
        var i :| 0 <= i < |calls| && calls[i] == reordered[j];
      }
    }
  }

  /**
   * After any sequence of `addSource` calls on a new builder, a list that
   * enumerates the builder's source set (as `build()` makes) holds every
   * added location and nothing else, each once, whatever the call order.
   */
  lemma BuiltSourcesOfAddSources(locs: seq<ArtifactLocation>, built: seq<ArtifactLocation>)
    requires Enumerates(built, Run(EmptyBuilder, AddSourceCalls(locs)).sources)
    ensures NoDuplicates(built)
    ensures forall x :: x in built <==> x in locs
  {
    var calls := AddSourceCalls(locs);
    RunSources(EmptyBuilder, calls);
    forall x ensures x in built <==> x in locs {
      if x in built {
        var i :| 0 <= i < |calls| && x in SourcesAddedBy(calls[i]);
        assert x == locs[i];
      }
      if x in locs {
        var i :| 0 <= i < |locs| && locs[i] == x;
        assert x in SourcesAddedBy(calls[i]);
      }
    }
  }

  /**
   * `setCInfo(c)` stores `c` and leaves exactly the earlier sources plus
   * c's sources, headers and textual headers in the source set.
   */
  lemma SetCInfoFoldsSources(s: BuilderState, c: CIdeInfo)
    ensures Step(s, SetCInfo(c)).facets.cIdeInfo == Some(c)
    ensures forall x :: x in Step(s, SetCInfo(c)).sources <==>
      x in s.sources || x in c.sources || x in c.headers || x in c.textualHeaders
  {
  }

  /** No facet setter other than `setCInfo` changes the source set. */
  lemma OtherFacetSettersKeepSources(s: BuilderState, call: BuilderCall)
    requires call.SetsFacet() && !call.SetCInfo?
    ensures Step(s, call).sources == s.sources
  {
  }

  /**
   * The dependency list after the calls is the one before followed by one
   * edge per `addDependency`/`addRuntimeDep` call, in call order, nothing
   * merged or removed.
   */
  lemma {:induction false} RunDependencies(s: BuilderState, calls: seq<BuilderCall>)
    ensures Run(s, calls).dependencies == s.dependencies + DependenciesAdded(calls)
    decreases |calls|
  {
    if calls != [] {
      RunDependencies(Step(s, calls[0]), calls[1..]);
      assert s.dependencies + DependenciesAddedBy(calls[0]) + DependenciesAdded(calls[1..])
          == s.dependencies + DependenciesAdded(calls);
    }
  }

  /**
   * A compile-time and a runtime dependency on the same label stay two
   * entries with the same key and different types.
   */
  lemma CompileAndRuntimeEdgesStayApart(s: BuilderState, l: Label)
    ensures Run(s, [AddDependency(l), AddRuntimeDep(l)]).dependencies ==
      s.dependencies + [Dependency(TargetKey.ForPlainTarget(l), CompileTime),
                        Dependency(TargetKey.ForPlainTarget(l), Runtime)]
  {
    RunDependencies(s, [AddDependency(l), AddRuntimeDep(l)]);
    assert DependenciesAdded([AddRuntimeDep(l)]) == [Dependency(TargetKey.ForPlainTarget(l), Runtime)];
  }

  /** The tag list after the calls is the one before followed by every added tag, in order. */
  lemma {:induction false} RunTags(s: BuilderState, calls: seq<BuilderCall>)
    ensures Run(s, calls).tags == s.tags + TagsAdded(calls)
    decreases |calls|
  {
    if calls != [] {
      RunTags(Step(s, calls[0]), calls[1..]);
      assert s.tags + (if calls[0].AddTag? then [calls[0].tag] else []) + TagsAdded(calls[1..])
          == s.tags + TagsAdded(calls);
    }
  }

  /**
   * The key is the plain key of the label given to the last `setLabel` call; without such a call it keeps its value (last write wins).
   */
  lemma {:induction false} RunLastLabelWins(s: BuilderState, calls: seq<BuilderCall>)
    ensures (forall i :: 0 <= i < |calls| ==> !calls[i].SetLabel?) ==> Run(s, calls).key == s.key
    ensures forall i :: 0 <= i < |calls| && calls[i].SetLabel? && (forall j :: i < j < |calls| ==> !calls[j].SetLabel?) ==>
      Run(s, calls).key == Some(TargetKey.ForPlainTarget(calls[i].l))
    decreases |calls|
  {
    if calls != [] {
      var tail := calls[1..];
      RunLastLabelWins(Step(s, calls[0]), tail);
      forall i | 0 <= i < |calls| && calls[i].SetLabel? && (forall j :: i < j < |calls| ==> !calls[j].SetLabel?)
        ensures Run(s, calls).key == Some(TargetKey.ForPlainTarget(calls[i].l))
      {
        forall j | i <= j < |tail| ensures !tail[j].SetLabel? {
          assert tail[j] == calls[j + 1];
        }
        if i > 0 {
          assert tail[i - 1] == calls[i];
        }
      }
      if forall i :: 0 <= i < |calls| ==> !calls[i].SetLabel? {
        forall j | 0 <= j < |tail| ensures !tail[j].SetLabel? {
          assert tail[j] == calls[j + 1];
        }
      }
    }
  }

  /**
   * The kind is the one given to the last `setKind` call; without such a call it keeps its value (last write wins).
   */
  lemma {:induction false} RunLastKindWins(s: BuilderState, calls: seq<BuilderCall>)
    ensures (forall i :: 0 <= i < |calls| ==> !calls[i].SetKind?) ==> Run(s, calls).kind == s.kind
    ensures forall i :: 0 <= i < |calls| && calls[i].SetKind? && (forall j :: i < j < |calls| ==> !calls[j].SetKind?) ==>
      Run(s, calls).kind == Some(calls[i].kind)
    decreases |calls|
  {
    if calls != [] {
      var tail := calls[1..];
      RunLastKindWins(Step(s, calls[0]), tail);
      forall i | 0 <= i < |calls| && calls[i].SetKind? && (forall j :: i < j < |calls| ==> !calls[j].SetKind?)
        ensures Run(s, calls).kind == Some(calls[i].kind)
      {
        forall j | i <= j < |tail| ensures !tail[j].SetKind? {
          assert tail[j] == calls[j + 1];
        }
        if i > 0 {
          assert tail[i - 1] == calls[i];
        }
      }
      if forall i :: 0 <= i < |calls| ==> !calls[i].SetKind? {
        forall j | 0 <= j < |tail| ensures !tail[j].SetKind? {
          assert tail[j] == calls[j + 1];
        }
      }
    }
  }

  /**
   * The build file is the one given to the last `setBuildFile` call; without such a call it keeps its value (last write wins).
   */
  lemma {:induction false} RunLastBuildFileWins(s: BuilderState, calls: seq<BuilderCall>)
    ensures (forall i :: 0 <= i < |calls| ==> !calls[i].SetBuildFile?) ==> Run(s, calls).buildFile == s.buildFile
    ensures forall i :: 0 <= i < |calls| && calls[i].SetBuildFile? && (forall j :: i < j < |calls| ==> !calls[j].SetBuildFile?) ==>
      Run(s, calls).buildFile == Some(calls[i].buildFile)
    decreases |calls|
  {
    if calls != [] {
      var tail := calls[1..];
      RunLastBuildFileWins(Step(s, calls[0]), tail);
      forall i | 0 <= i < |calls| && calls[i].SetBuildFile? && (forall j :: i < j < |calls| ==> !calls[j].SetBuildFile?)
        ensures Run(s, calls).buildFile == Some(calls[i].buildFile)
      {
        forall j | i <= j < |tail| ensures !tail[j].SetBuildFile? {
          assert tail[j] == calls[j + 1];
        }
        if i > 0 {
          assert tail[i - 1] == calls[i];
        }
      }
      if forall i :: 0 <= i < |calls| ==> !calls[i].SetBuildFile? {
        forall j | 0 <= j < |tail| ensures !tail[j].SetBuildFile? {
          assert tail[j] == calls[j + 1];
        }
      }
    }
  }

  /** Without any facet setter, every facet slot keeps its value. */
  lemma {:induction false} RunWithoutFacetSetters(s: BuilderState, calls: seq<BuilderCall>)
    requires forall i :: 0 <= i < |calls| ==> !calls[i].SetsFacet()
    ensures Run(s, calls).facets == s.facets
    decreases |calls|
  {
    if calls != [] {
      RunWithoutFacetSetters(Step(s, calls[0]), calls[1..]);
    }
  }

  /** A call that is not the setter of `slot` leaves that slot as it was. */
  lemma StepFacetFrame(s: BuilderState, call: BuilderCall, slot: FacetSlot)
    requires !call.Fills(slot)
    ensures Step(s, call).facets.SameIn(s.facets, slot)
  {
  }

  /**
   * Each facet slot changes only through its own setter: without a call
   * to that setter the slot keeps its value (on a new builder, absent).
   */
  lemma {:induction false} RunFacetSlotFrame(s: BuilderState, calls: seq<BuilderCall>, slot: FacetSlot)
    requires forall i :: 0 <= i < |calls| ==> !calls[i].Fills(slot)
    ensures Run(s, calls).facets.SameIn(s.facets, slot)
    decreases |calls|
  {
    if calls != [] {
      StepFacetFrame(s, calls[0], slot);
      RunFacetSlotFrame(Step(s, calls[0]), calls[1..], slot);
    }
  }

  /** Every key a builder sets is a plain key: a plain (or absent) key stays plain (or absent). */
  lemma {:induction false} RunKeepsKeysPlain(s: BuilderState, calls: seq<BuilderCall>)
    requires s.key.None? || s.key.value.IsPlainTarget()
    ensures Run(s, calls).key.None? || Run(s, calls).key.value.IsPlainTarget()
    decreases |calls|
  {
    if calls != [] {
      RunKeepsKeysPlain(Step(s, calls[0]), calls[1..]);
    }
  }

  /** A target whose key came from a builder is a plain target. */
  lemma BuiltTargetIsPlain(t: TargetIdeInfo, calls: seq<BuilderCall>)
    requires t.key == Run(EmptyBuilder, calls).key && t.key.Some?
    ensures t.IsPlainTarget()
  {
    RunKeepsKeysPlain(EmptyBuilder, calls);
  }

  /**
   * A target built from a fresh builder on which `setTestInfo` was never
   * called has an unset test size in its summary.
   */
  lemma UnsetTestSizeWithoutTestInfo(t: TargetIdeInfo, calls: seq<BuilderCall>)
    requires forall i :: 0 <= i < |calls| ==> !calls[i].Fills(TestSlot)
    requires t.Facets() == Run(EmptyBuilder, calls).facets
    requires t.key.Some? && t.kind.Some?
    ensures t.ToTargetInfo().testSize == None
  {
    RunFacetSlotFrame(EmptyBuilder, calls, TestSlot);
  }
}
