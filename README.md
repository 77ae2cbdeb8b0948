# Target metadata and its builder

This project models the build-target metadata of an IDE plugin for a Bazel-like
build tool. `TargetIdeInfo` describes one build target. It holds the target's
key (label plus aspect ids), rule kind, build file, dependency edges, tags,
source locations, and one optional slot per toolchain facet (C/C++, Java,
Android, Python, Go, JS, TS, Dart, test, toolchains). `TargetIdeInfo.Builder`
accumulates this data while the build graph is imported, and `build()` freezes
it into a target.

Modules:

- `Wrappers`: `Option`, used for every nullable field.
- `Primitives`: `Label`, `Kind` (with `IsOneOf` as membership), `ArtifactLocation` (opaque, equality only), `TargetKey` (with `ForPlainTarget`), `Dependency` and `DependencyType`.
- `IdeInfoFacets`: the facet types. They are opaque, except that the C facet exposes its three source lists and the test facet exposes its test size. `FacetSlots` is the record of the thirteen slots a builder can fill.
- `JavaCollections`: `ArrayList` (a list object appended to in place and shared by reference) and `ListOfSet`, which copies a hash set into a list in an unspecified order.
- `IdeInfo`: the `TargetIdeInfo` class (final fields), the `TargetInfo` summary, the `Builder` class, a value snapshot of a builder (`BuilderState`), the calls a builder accepts (`BuilderCall`), and `Step`. `Step` is the single definition of each call's effect. Every builder method ensures `State() == Step(old(State()), <its call>)`.
- `BuilderTraces`: `Run` folds `Step` over a sequence of calls. Lemmas state what a whole import sequence produces:
  - sources deduplicated, independent of call order, and united with the C facet's files;
  - dependencies and tags appended in call order, nothing merged;
  - last write wins for key, kind and build file;
  - each facet slot changes only through its own setter, so untouched slots stay empty;
  - every key a builder sets is a plain key.
- `BuilderClients`: two uses of the builder through its methods. One ties a loop of `AddSource` calls to `Run`. The other shows which lists a built target shares with its builder.

A built target is not deeply immutable: its fields are final, but three of them refer to mutable lists.

- Dependencies and tags: `TargetIdeInfo` keeps the builder's own two lists (base/src/com/google/idea/blaze/base/ideinfo/TargetIdeInfo.java:83-84, 236-237). The model represents them as `ArrayList` objects. `Builder.Build` ensures `t.dependencies == dependencies && t.tags == tags`, so a later `AddTag` or `AddDependency` on the builder is visible through `t.Tags()` and `t.Dependencies()`. `BuilderClients.AddAfterBuild` shows this for a tag.
- Sources: the source set is copied into a new list of the target's own (line 86). Builder calls after `build()` therefore do not reach it, as `BuilderClients.AddAfterBuild` also shows. `getSources()` hands that list out as it is, so any holder of it could still change it. `TargetIdeInfo.Valid()` (no duplicate sources) is established by the constructor, and it lasts only as long as nobody changes the list.

A key and a kind may both be missing from a built target: the builder passes them through even when they were never set, and `kindIsOneOf` handles a missing kind. Both are `Option`s in the model.

## Model

| member | source | states |
|---|---|---|
| `JavaCollections.ListOfSet` | base/src/com/google/idea/blaze/base/ideinfo/TargetIdeInfo.java:86 | copying the source set into a list yields each element of the set exactly once and nothing else (no duplicates, same elements, same size), in an unspecified order |
| `JavaCollections.ArrayList.constructor` | base/src/com/google/idea/blaze/base/ideinfo/TargetIdeInfo.java:236-237 | a builder's dependency and tag lists start empty |
| `JavaCollections.ArrayList.FromSeq` | base/src/com/google/idea/blaze/base/ideinfo/TargetIdeInfo.java:86 | a list made from a collection holds exactly its elements, in order |
| `JavaCollections.ArrayList.Add` | base/src/com/google/idea/blaze/base/ideinfo/TargetIdeInfo.java:355-358 | `add` appends the element at the end of the list object and keeps everything before it |
| `Primitives.TargetKey.ForPlainTarget` | base/src/com/google/idea/blaze/base/ideinfo/TargetIdeInfo.java:258 | the key made for a label carries that label and is a plain target key |
| `Primitives.TargetKey.ToString` | base/src/com/google/idea/blaze/base/ideinfo/TargetIdeInfo.java:207 | a plain key's string form is its label's text |
| `IdeInfo.TargetIdeInfo.constructor` | base/src/com/google/idea/blaze/base/ideinfo/TargetIdeInfo.java:59-101 | every field is stored as passed, and the dependency and tag lists are the very objects passed; the source set becomes a new list holding each element once and nothing else, so `Valid()` holds |
| `IdeInfo.TargetIdeInfo.ToTargetInfo` | base/src/com/google/idea/blaze/base/ideinfo/TargetIdeInfo.java:198-203 | the summary's label comes from the key and its kind string from the kind; its test size is unset exactly when there is no test facet and is otherwise the facet's size; its sources are the target's current sources in the same order, free of duplicates while `Valid()` holds |
| `IdeInfo.TargetIdeInfo.ToString` | base/src/com/google/idea/blaze/base/ideinfo/TargetIdeInfo.java:205-208 | the string is the key's string form: it starts with the label's text, and for a plain target it is exactly the label's text |
| `IdeInfo.TargetIdeInfo.KindIsOneOf` | base/src/com/google/idea/blaze/base/ideinfo/TargetIdeInfo.java:210-221 | false whenever the kind is missing (never fails); otherwise true exactly when some element of the given kinds equals the target's kind |
| `IdeInfo.TargetIdeInfo.IsPlainTarget` | base/src/com/google/idea/blaze/base/ideinfo/TargetIdeInfo.java:223-225 | true exactly when the key carries no aspect ids |
| `IdeInfo.Step` | base/src/com/google/idea/blaze/base/ideinfo/TargetIdeInfo.java:253-378 | one builder call: the source set grows only by the added location (`addSource`) or by the C facet's sources, headers and textual headers (`setCInfo`); dependencies grow by exactly the one edge of a dependency call; tags grow by exactly the one added tag; key, kind and build file change only on their own setter; no non-facet call touches a facet slot |
| `IdeInfo.Builder.constructor` | base/src/com/google/idea/blaze/base/ideinfo/TargetIdeInfo.java:227-251 | a new builder has nothing set, no sources, no facets, and two fresh empty lists |
| `IdeInfo.Builder.SetLabel` | base/src/com/google/idea/blaze/base/ideinfo/TargetIdeInfo.java:257-260 | the key becomes the plain key of the label; nothing else changes; returns the builder itself |
| `IdeInfo.Builder.SetBuildFile` | base/src/com/google/idea/blaze/base/ideinfo/TargetIdeInfo.java:262-265 | the build file is overwritten; nothing else changes |
| `IdeInfo.Builder.SetKind` | base/src/com/google/idea/blaze/base/ideinfo/TargetIdeInfo.java:273-276 | the kind is overwritten; nothing else changes |
| `IdeInfo.Builder.AddSource` | base/src/com/google/idea/blaze/base/ideinfo/TargetIdeInfo.java:278-281 | the location is added to the source set; nothing else changes |
| `IdeInfo.Builder.SetJavaInfo` | base/src/com/google/idea/blaze/base/ideinfo/TargetIdeInfo.java:287-290 | the Java slot is overwritten; nothing else changes |
| `IdeInfo.Builder.SetCInfo` | base/src/com/google/idea/blaze/base/ideinfo/TargetIdeInfo.java:292-298 | the C slot is overwritten and the C facet's sources, headers and textual headers are added to the source set; nothing else changes |
| `IdeInfo.Builder.SetCToolchainInfo` | base/src/com/google/idea/blaze/base/ideinfo/TargetIdeInfo.java:300-303 | the C toolchain slot is overwritten; nothing else changes |
| `IdeInfo.Builder.SetAndroidInfo` | base/src/com/google/idea/blaze/base/ideinfo/TargetIdeInfo.java:305-308 | the Android slot is overwritten; nothing else changes |
| `IdeInfo.Builder.SetAndroidAarInfo` | base/src/com/google/idea/blaze/base/ideinfo/TargetIdeInfo.java:310-313 | the Android AAR slot is overwritten; nothing else changes |
| `IdeInfo.Builder.SetPyInfo` | base/src/com/google/idea/blaze/base/ideinfo/TargetIdeInfo.java:315-318 | the Python slot is overwritten; nothing else changes |
| `IdeInfo.Builder.SetGoInfo` | base/src/com/google/idea/blaze/base/ideinfo/TargetIdeInfo.java:320-323 | the Go slot is overwritten; nothing else changes |
| `IdeInfo.Builder.SetJsInfo` | base/src/com/google/idea/blaze/base/ideinfo/TargetIdeInfo.java:325-328 | the JS slot is overwritten; nothing else changes |
| `IdeInfo.Builder.SetTsInfo` | base/src/com/google/idea/blaze/base/ideinfo/TargetIdeInfo.java:330-333 | the TS slot is overwritten; nothing else changes |
| `IdeInfo.Builder.SetDartInfo` | base/src/com/google/idea/blaze/base/ideinfo/TargetIdeInfo.java:335-338 | the Dart slot is overwritten; nothing else changes |
| `IdeInfo.Builder.SetTestInfo` | base/src/com/google/idea/blaze/base/ideinfo/TargetIdeInfo.java:340-343 | the test slot is overwritten; nothing else changes |
| `IdeInfo.Builder.SetJavaToolchainIdeInfo` | base/src/com/google/idea/blaze/base/ideinfo/TargetIdeInfo.java:345-348 | the Java toolchain slot is overwritten; nothing else changes |
| `IdeInfo.Builder.SetKotlinToolchainIdeInfo` | base/src/com/google/idea/blaze/base/ideinfo/TargetIdeInfo.java:350-353 | the Kotlin toolchain slot is overwritten; nothing else changes |
| `IdeInfo.Builder.AddTag` | base/src/com/google/idea/blaze/base/ideinfo/TargetIdeInfo.java:355-358 | the tag is appended at the end of the tag list, duplicates kept; nothing else changes |
| `IdeInfo.Builder.AddDependency` | base/src/com/google/idea/blaze/base/ideinfo/TargetIdeInfo.java:364-368 | exactly one compile-time edge to the label's plain key is appended; earlier edges are unchanged; nothing else changes |
| `IdeInfo.Builder.AddRuntimeDep` | base/src/com/google/idea/blaze/base/ideinfo/TargetIdeInfo.java:374-378 | exactly one runtime edge to the label's plain key is appended; earlier edges are unchanged; nothing else changes |
| `IdeInfo.Builder.Build` | base/src/com/google/idea/blaze/base/ideinfo/TargetIdeInfo.java:380-402 | a new target whose key, kind, build file and thirteen facet slots equal the builder's; the Android SDK facet is always absent; the dependency and tag lists are the builder's own objects; the sources are a new list holding each element of the builder's set exactly once |
| `BuilderTraces.RunAppend` | base/src/com/google/idea/blaze/base/ideinfo/TargetIdeInfo.java:232-378 | populating a builder in two successive batches of calls is the same as making all the calls in one sequence |
| `BuilderTraces.RunSources` | base/src/com/google/idea/blaze/base/ideinfo/TargetIdeInfo.java:278-298 | after any sequence of calls, a location is in the source set exactly when it was there before, or some `addSource` call added it, or some `setCInfo` call's facet listed it |
| `BuilderTraces.SourcesIgnoreCallOrder` | base/src/com/google/idea/blaze/base/ideinfo/TargetIdeInfo.java:238 | any rearrangement of the same calls yields the same source set |
| `BuilderTraces.BuiltSourcesOfAddSources` | base/src/com/google/idea/blaze/base/ideinfo/TargetIdeInfo.java:278-281 | after any sequence of `addSource` calls on a new builder, the built source list has no duplicates and holds exactly the added locations |
| `BuilderTraces.SetCInfoFoldsSources` | base/src/com/google/idea/blaze/base/ideinfo/TargetIdeInfo.java:292-298 | `setCInfo(c)` stores `c`, and afterwards the sources are exactly the earlier ones together with c's sources, headers and textual headers |
| `BuilderTraces.OtherFacetSettersKeepSources` | base/src/com/google/idea/blaze/base/ideinfo/TargetIdeInfo.java:287-353 | no facet setter except `setCInfo` changes the source set |
| `BuilderTraces.RunDependencies` | base/src/com/google/idea/blaze/base/ideinfo/TargetIdeInfo.java:364-378 | after any sequence of calls, the dependency list is the earlier list followed by one edge per dependency call, in call order, none merged |
| `BuilderTraces.CompileAndRuntimeEdgesStayApart` | base/src/com/google/idea/blaze/base/ideinfo/TargetIdeInfo.java:364-378 | a compile-time and a runtime dependency on one label give two entries, with the same key and different types |
| `BuilderTraces.RunTags` | base/src/com/google/idea/blaze/base/ideinfo/TargetIdeInfo.java:355-358 | after any sequence of calls, the tag list is the earlier list followed by every added tag, in call order, duplicates kept |
| `BuilderTraces.RunLastLabelWins` | base/src/com/google/idea/blaze/base/ideinfo/TargetIdeInfo.java:257-260 | the key is the plain key of the label given to the last `setLabel` call, or the earlier key when there was none |
| `BuilderTraces.RunLastKindWins` | base/src/com/google/idea/blaze/base/ideinfo/TargetIdeInfo.java:273-276 | the kind is the one given to the last `setKind` call, or the earlier kind when there was none |
| `BuilderTraces.RunLastBuildFileWins` | base/src/com/google/idea/blaze/base/ideinfo/TargetIdeInfo.java:262-265 | the build file is the one given to the last `setBuildFile` call, or the earlier one when there was none |
| `BuilderTraces.RunWithoutFacetSetters` | base/src/com/google/idea/blaze/base/ideinfo/TargetIdeInfo.java:253-378 | a sequence of calls without any facet setter leaves every facet slot as it was (absent on a new builder) |
| `BuilderTraces.StepFacetFrame` | base/src/com/google/idea/blaze/base/ideinfo/TargetIdeInfo.java:287-353 | a call other than a slot's own setter leaves that facet slot as it was |
| `BuilderTraces.RunFacetSlotFrame` | base/src/com/google/idea/blaze/base/ideinfo/TargetIdeInfo.java:287-353 | for each of the thirteen slots: a sequence of calls without that slot's setter leaves the slot as it was, so on a new builder it stays absent |
| `BuilderTraces.RunKeepsKeysPlain` | base/src/com/google/idea/blaze/base/ideinfo/TargetIdeInfo.java:257-260 | starting from a plain or absent key, every sequence of calls leaves a plain or absent key |
| `BuilderTraces.BuiltTargetIsPlain` | base/src/com/google/idea/blaze/base/ideinfo/TargetIdeInfo.java:223-225 | a target whose key was set through a builder is a plain target |
| `BuilderTraces.UnsetTestSizeWithoutTestInfo` | base/src/com/google/idea/blaze/base/ideinfo/TargetIdeInfo.java:198-203 | a target built from calls that never set test info has an unset test size in its summary, not a default size |
| `BuilderClients.AddSourcesInTurn` | base/src/com/google/idea/blaze/base/ideinfo/TargetIdeInfo.java:278-281 | calling the builder's `addSource` method once per location, in turn, leaves exactly the state `Run` gives for those calls |
| `BuilderClients.AddAfterBuild` | base/src/com/google/idea/blaze/base/ideinfo/TargetIdeInfo.java:83-86 | a tag added to the builder after `build()` shows in the built target's tags (shared list); a source added after `build()` does not show in its sources (copied list) |

## Left out

- The `String` overloads `setLabel(String)`, `setKind(String)`, `addDependency(String)` and `addRuntimeDep(String)` are not modelled. They parse with `Label.create` or `Kind.fromString`, which are not part of this model. The model's methods take the already-parsed `Label` or `Kind`, so parse failures are not modelled.
- `addSource(ArtifactLocation.Builder)` and the facet setters that take a nested builder call that builder's `build()`. The model's methods take the built value, because the facet classes are not part of this model.
- `TargetKey`, `Label`, `Kind`, `ArtifactLocation`, `TargetInfo` and the facet classes are not part of this model. Their visible behaviour is modelled as follows:
  - `Kind.isOneOf` is membership;
  - a target key is a label plus aspect ids, and it is plain when it has none;
  - a key's string form is the label's text followed by `#id` for each aspect id; this is an assumption for non-plain keys;
  - `TargetInfo` is a record of its four fields.
- The plain getters of `TargetIdeInfo` are the `const` fields themselves. `getDependencies`, `getTags` and `getSources` are the `Dependencies()`, `Tags()` and `Sources()` reads of the three lists.
- `kindIsOneOf(Kind...)` is the same function as `kindIsOneOf(Collection)`; the kinds are passed as a sequence.
- `IdeInfo.TargetIdeInfo.ToTargetInfo`: requires both the key and the kind to be set. The Java code throws a `NullPointerException` when either is missing, and that path is not modelled.
- `IdeInfo.TargetIdeInfo.ToString` and `IdeInfo.TargetIdeInfo.IsPlainTarget`: require the key to be set, for the same reason.
- The setters take non-null arguments. Java callers could pass `null` to reset a field; the model does not cover that.
- The iteration order of the `HashSet` of sources is not modelled: `ListOfSet` may produce any order. Only "each element once" is stated.
- `Serializable` and `serialVersionUID` are not modelled; they concern Java serialization compatibility, not behaviour.
- `OpenAllProjectViewsAction.java` is not modelled. It is IDE user-interface glue: action presentation, file lookup and opening editors.
- The constructor of `TargetIdeInfo` takes any `Collection` for dependencies and tags (lines 63-64). The model's constructor accepts only its `ArrayList`, which is what `build()` passes.
- `TestIdeInfo.getTestSize()` is taken never to return `null`. The test facet class is not part of this model, so the claim "test size unset exactly when there is no test facet" in `ToTargetInfo` rests on that assumption.
- Concurrency is not modelled: a builder is confined to one thread, and nothing in the core blocks or shares state.
