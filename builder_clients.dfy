/**
 * Two uses of the builder through its methods: a whole sequence of calls
 * leaves the state `Run` describes, and a built target shares the
 * builder's tag list but not its source set.
 */
module BuilderClients {
  import opened Primitives
  import opened IdeInfo
  import opened BuilderTraces

  /** Calling `addSource` for each location in turn is running `AddSourceCalls`. */
  method AddSourcesInTurn(b: Builder, locs: seq<ArtifactLocation>)
    modifies b
    ensures b.State() == Run(old(b.State()), AddSourceCalls(locs))
  {
    ghost var s0 := b.State();
    var i := 0;
    while i < |locs|
      invariant 0 <= i <= |locs|
      invariant b.State() == Run(s0, AddSourceCalls(locs[..i]))
    {
      ghost var before := b.State();
      var _ := b.AddSource(locs[i]);
      assert AddSourceCalls(locs[..i + 1]) == AddSourceCalls(locs[..i]) + [AddSource(locs[i])];
      RunAppend(s0, AddSourceCalls(locs[..i]), [AddSource(locs[i])]);
      assert Run(before, [AddSource(locs[i])]) == Step(before, AddSource(locs[i]));
      i := i + 1;
    }
    assert locs[..i] == locs;
  }

  /**
   * A tag added after `build()` shows in the built target's tags, since the
   * target holds the builder's own list; a source added after `build()`
   * does not show in its sources, which were copied.
   */
  method AddAfterBuild(tag: string, source: ArtifactLocation) returns (t: TargetIdeInfo)
    ensures t.Tags() == [tag]
    ensures t.Sources() == []
  {
    var b := new Builder();
    t := b.Build();
    var _ := b.AddTag(tag);
    var _ := b.AddSource(source);
  }
}
