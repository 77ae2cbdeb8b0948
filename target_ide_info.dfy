/**
 * The metadata of one build target (`TargetIdeInfo`) and the builder that
 * accumulates it while the build graph is imported.
 */
module IdeInfo {
  import opened Wrappers
  import opened Primitives
  import opened IdeInfoFacets
  import opened JavaCollections

  /** The toolchain-independent summary of a target used by dependency resolution. */
  datatype TargetInfo = TargetInfo(
    targetLabel: Label,
    kindString: string,
    testSize: Option<TestSize>,
    sources: seq<ArtifactLocation>)

  /**
   * A built target. Every field is final, but three of them are references
   * to mutable lists: `dependencies` and `tags` are the very lists the
   * builder filled, not copies of them, and `sources` is a new list of the
   * target's own, which `getSources()` hands out as it is.
   */
  class TargetIdeInfo {
    const key: Option<TargetKey>
    const kind: Option<Kind>
    const buildFile: Option<ArtifactLocation>
    const dependencies: ArrayList<Dependency>
    const tags: ArrayList<string>
    const sources: ArrayList<ArtifactLocation>
    const cIdeInfo: Option<CIdeInfo>
    const cToolchainIdeInfo: Option<CToolchainIdeInfo>
    const javaIdeInfo: Option<JavaIdeInfo>
    const androidIdeInfo: Option<AndroidIdeInfo>
    const androidSdkIdeInfo: Option<AndroidSdkIdeInfo>
    const androidAarIdeInfo: Option<AndroidAarIdeInfo>
    const pyIdeInfo: Option<PyIdeInfo>
    const goIdeInfo: Option<GoIdeInfo>
    const jsIdeInfo: Option<JsIdeInfo>
    const tsIdeInfo: Option<TsIdeInfo>
    const dartIdeInfo: Option<DartIdeInfo>
    const testIdeInfo: Option<TestIdeInfo>
    const javaToolchainIdeInfo: Option<JavaToolchainIdeInfo>
    const kotlinToolchainIdeInfo: Option<KotlinToolchainIdeInfo>

    /**
     * No source location is listed twice. The constructor establishes it;
     * it lasts as long as nobody changes the list `getSources()` returns.
     */
    ghost predicate Valid()
      reads sources
    {
      NoDuplicates(sources.elems)
    }

    /**
     * Stores every argument as given, except the source set, which is
     * copied into a new list holding each of its elements once.
     */
    constructor (
      key: Option<TargetKey>,
      kind: Option<Kind>,
      buildFile: Option<ArtifactLocation>,
      dependencies: ArrayList<Dependency>,
      tags: ArrayList<string>,
      sources: set<ArtifactLocation>,
      cIdeInfo: Option<CIdeInfo>,
      cToolchainIdeInfo: Option<CToolchainIdeInfo>,
      javaIdeInfo: Option<JavaIdeInfo>,
      androidIdeInfo: Option<AndroidIdeInfo>,
      androidSdkIdeInfo: Option<AndroidSdkIdeInfo>,
      androidAarIdeInfo: Option<AndroidAarIdeInfo>,
      pyIdeInfo: Option<PyIdeInfo>,
      goIdeInfo: Option<GoIdeInfo>,
      jsIdeInfo: Option<JsIdeInfo>,
      tsIdeInfo: Option<TsIdeInfo>,
      dartIdeInfo: Option<DartIdeInfo>,
      testIdeInfo: Option<TestIdeInfo>,
      javaToolchainIdeInfo: Option<JavaToolchainIdeInfo>,
      kotlinToolchainIdeInfo: Option<KotlinToolchainIdeInfo>)
      ensures this.key == key && this.kind == kind && this.buildFile == buildFile
      ensures this.dependencies == dependencies && this.tags == tags
      ensures fresh(this.sources) && Enumerates(this.sources.elems, sources) && Valid()
      ensures |this.sources.elems| == |sources|
      ensures this.cIdeInfo == cIdeInfo && this.cToolchainIdeInfo == cToolchainIdeInfo
      ensures this.javaIdeInfo == javaIdeInfo && this.androidIdeInfo == androidIdeInfo
      ensures this.androidSdkIdeInfo == androidSdkIdeInfo && this.androidAarIdeInfo == androidAarIdeInfo
      ensures this.pyIdeInfo == pyIdeInfo && this.goIdeInfo == goIdeInfo
      ensures this.jsIdeInfo == jsIdeInfo && this.tsIdeInfo == tsIdeInfo
      ensures this.dartIdeInfo == dartIdeInfo && this.testIdeInfo == testIdeInfo
      ensures this.javaToolchainIdeInfo == javaToolchainIdeInfo
      ensures this.kotlinToolchainIdeInfo == kotlinToolchainIdeInfo
    {
      var sourceElems := ListOfSet(sources);
      var sourceList := new ArrayList.FromSeq(sourceElems);
      this.key := key;
      this.kind := kind;
      this.buildFile := buildFile;
      this.dependencies := dependencies;
      this.tags := tags;
      this.sources := sourceList;
      this.cIdeInfo := cIdeInfo;
      this.cToolchainIdeInfo := cToolchainIdeInfo;
      this.javaIdeInfo := javaIdeInfo;
      this.androidIdeInfo := androidIdeInfo;
      this.androidSdkIdeInfo := androidSdkIdeInfo;
      this.androidAarIdeInfo := androidAarIdeInfo;
      this.pyIdeInfo := pyIdeInfo;
      this.goIdeInfo := goIdeInfo;
      this.jsIdeInfo := jsIdeInfo;
      this.tsIdeInfo := tsIdeInfo;
      this.dartIdeInfo := dartIdeInfo;
      this.testIdeInfo := testIdeInfo;
      this.javaToolchainIdeInfo := javaToolchainIdeInfo;
      this.kotlinToolchainIdeInfo := kotlinToolchainIdeInfo;
    }

    /** The current contents of the (shared) dependency list. */
    function Dependencies(): seq<Dependency>
      reads dependencies
    {
      dependencies.elems
    }

    /** The current contents of the (shared) tag list. */
    function Tags(): seq<string>
      reads tags
    {
      tags.elems
    }

    /** The current contents of the target's own source list. */
    function Sources(): seq<ArtifactLocation>
      reads sources
    {
      sources.elems
    }

    /** The facets in the slots a builder can fill (all but the Android SDK facet). */
    function Facets(): FacetSlots {
      FacetSlots(cIdeInfo, cToolchainIdeInfo, javaIdeInfo, androidIdeInfo, androidAarIdeInfo,
                 pyIdeInfo, goIdeInfo, jsIdeInfo, tsIdeInfo, dartIdeInfo, testIdeInfo,
                 javaToolchainIdeInfo, kotlinToolchainIdeInfo)
    }

    /**
     * `toTargetInfo()`: the label of the key, the kind's name, the test size
     * of the test facet if there is one and unset otherwise, and the sources
     * in the same order. Both the key and the kind must be set.
     */
    function ToTargetInfo(): (r: TargetInfo)
      requires key.Some? && kind.Some?
      reads sources
      ensures r.targetLabel == key.value.targetLabel
      ensures r.kindString == kind.value.ToString()
      ensures testIdeInfo.None? <==> r.testSize.None?
      ensures testIdeInfo.Some? ==> r.testSize == Some(testIdeInfo.value.testSize)
      ensures r.sources == sources.elems
      ensures Valid() ==> NoDuplicates(r.sources)
    {
      TargetInfo(
        key.value.targetLabel,
        kind.value.ToString(),
        if testIdeInfo.Some? then Some(testIdeInfo.value.testSize) else None,
        sources.elems)
    }

    /** `toString()`: the key's string form; for a plain target, the label. */
    function ToString(): (r: string)
      requires key.Some?
      ensures key.value.IsPlainTarget() ==> r == key.value.targetLabel.text
      ensures |r| >= |key.value.targetLabel.text| && r[..|key.value.targetLabel.text|] == key.value.targetLabel.text
    {
      key.value.ToString()
    }

    /** `kindIsOneOf(kinds)`: false without a kind, otherwise membership of the kind in `kinds`. */
    function KindIsOneOf(kinds: seq<Kind>): (r: bool)
      ensures kind.None? ==> !r
      ensures kind.Some? ==> (r <==> exists i :: 0 <= i < |kinds| && kinds[i] == kind.value)
    {
      match kind
      case None => false
      case Some(k) => k.IsOneOf(kinds)
    }

    /** `isPlainTarget()`: whether the key names a plain target (one without aspects). */
    function IsPlainTarget(): (r: bool)
      requires key.Some?
      ensures r <==> key.value.aspectIds == []
    {
      key.value.IsPlainTarget()
    }
  }

  /** Everything a builder has accumulated so far, as one value. */
  datatype BuilderState = BuilderState(
    key: Option<TargetKey>,
    kind: Option<Kind>,
    buildFile: Option<ArtifactLocation>,
    dependencies: seq<Dependency>,
    tags: seq<string>,
    sources: set<ArtifactLocation>,
    facets: FacetSlots)

  /** The state of a builder no call has been made on. */
  const EmptyBuilder := BuilderState(None, None, None, [], [], {}, NoFacets)

  /** One call on a builder, with the (already parsed, already built) argument it takes. */
  datatype BuilderCall =
    | SetLabel(l: Label)
    | SetBuildFile(buildFile: ArtifactLocation)
    | SetKind(kind: Kind)
    | AddSource(source: ArtifactLocation)
    | SetJavaInfo(java: JavaIdeInfo)
    | SetCInfo(c: CIdeInfo)
    | SetCToolchainInfo(cToolchain: CToolchainIdeInfo)
    | SetAndroidInfo(android: AndroidIdeInfo)
    | SetAndroidAarInfo(androidAar: AndroidAarIdeInfo)
    | SetPyInfo(py: PyIdeInfo)
    | SetGoInfo(go: GoIdeInfo)
    | SetJsInfo(js: JsIdeInfo)
    | SetTsInfo(ts: TsIdeInfo)
    | SetDartInfo(dart: DartIdeInfo)
    | SetTestInfo(test: TestIdeInfo)
    | SetJavaToolchainIdeInfo(javaToolchain: JavaToolchainIdeInfo)
    | SetKotlinToolchainIdeInfo(kotlinToolchain: KotlinToolchainIdeInfo)
    | AddTag(tag: string)
    | AddDependency(dependencyLabel: Label)
    | AddRuntimeDep(runtimeLabel: Label)
  {
    /** The call sets one of the facet slots. */
    predicate SetsFacet() {
      !(SetLabel? || SetBuildFile? || SetKind? || AddSource? || AddTag? || AddDependency? || AddRuntimeDep?)
    }

    /** The call is the setter of `slot`. */
    predicate Fills(slot: FacetSlot) {
      match this
      case SetCInfo(_) => slot == CSlot
      case SetCToolchainInfo(_) => slot == CToolchainSlot
      case SetJavaInfo(_) => slot == JavaSlot
      case SetAndroidInfo(_) => slot == AndroidSlot
      case SetAndroidAarInfo(_) => slot == AndroidAarSlot
      case SetPyInfo(_) => slot == PySlot
      case SetGoInfo(_) => slot == GoSlot
      case SetJsInfo(_) => slot == JsSlot
      case SetTsInfo(_) => slot == TsSlot
      case SetDartInfo(_) => slot == DartSlot
      case SetTestInfo(_) => slot == TestSlot
      case SetJavaToolchainIdeInfo(_) => slot == JavaToolchainSlot
      case SetKotlinToolchainIdeInfo(_) => slot == KotlinToolchainSlot
      case _ => false
    }
  }

  function SetOf(s: seq<ArtifactLocation>): set<ArtifactLocation> {
    set x | x in s
  }

  /** The locations a call adds to the builder's source set. */
  function SourcesAddedBy(call: BuilderCall): set<ArtifactLocation> {
    match call
    case AddSource(x) => {x}
    case SetCInfo(c) => SetOf(c.sources) + SetOf(c.headers) + SetOf(c.textualHeaders)
    case _ => {}
  }

  /** The dependency a call appends, if any. */
  function DependenciesAddedBy(call: BuilderCall): seq<Dependency> {
    match call
    case AddDependency(l) => [Dependency(TargetKey.ForPlainTarget(l), CompileTime)]
    case AddRuntimeDep(l) => [Dependency(TargetKey.ForPlainTarget(l), Runtime)]
    case _ => []
  }

  /**
   * The effect of one builder call. The key, kind, build file and facet
   * slots are overwritten; the source set grows by what `SourcesAddedBy`
   * names (that is, only `AddSource` and `SetCInfo` touch it); tags and
   * dependencies are appended to.
   */
  function Step(s: BuilderState, call: BuilderCall): (r: BuilderState)
    ensures r.sources == s.sources + SourcesAddedBy(call)
    ensures r.dependencies == s.dependencies + DependenciesAddedBy(call)
    ensures r.tags == s.tags + (if call.AddTag? then [call.tag] else [])
    ensures r.key == (if call.SetLabel? then Some(TargetKey.ForPlainTarget(call.l)) else s.key)
    ensures r.kind == (if call.SetKind? then Some(call.kind) else s.kind)
    ensures r.buildFile == (if call.SetBuildFile? then Some(call.buildFile) else s.buildFile)
    ensures !call.SetsFacet() ==> r.facets == s.facets
  {
    match call
    case SetLabel(l) => s.(key := Some(TargetKey.ForPlainTarget(l)))
    case SetBuildFile(f) => s.(buildFile := Some(f))
    case SetKind(k) => s.(kind := Some(k))
    case AddSource(x) => s.(sources := s.sources + {x})
    case SetJavaInfo(v) => s.(facets := s.facets.(javaIdeInfo := Some(v)))
    case SetCInfo(c) =>
      s.(facets := s.facets.(cIdeInfo := Some(c)),
         sources := s.sources + SetOf(c.sources) + SetOf(c.headers) + SetOf(c.textualHeaders))
    case SetCToolchainInfo(v) => s.(facets := s.facets.(cToolchainIdeInfo := Some(v)))
    case SetAndroidInfo(v) => s.(facets := s.facets.(androidIdeInfo := Some(v)))
    case SetAndroidAarInfo(v) => s.(facets := s.facets.(androidAarIdeInfo := Some(v)))
    case SetPyInfo(v) => s.(facets := s.facets.(pyIdeInfo := Some(v)))
    case SetGoInfo(v) => s.(facets := s.facets.(goIdeInfo := Some(v)))
    case SetJsInfo(v) => s.(facets := s.facets.(jsIdeInfo := Some(v)))
    case SetTsInfo(v) => s.(facets := s.facets.(tsIdeInfo := Some(v)))
    case SetDartInfo(v) => s.(facets := s.facets.(dartIdeInfo := Some(v)))
    case SetTestInfo(v) => s.(facets := s.facets.(testIdeInfo := Some(v)))
    case SetJavaToolchainIdeInfo(v) => s.(facets := s.facets.(javaToolchainIdeInfo := Some(v)))
    case SetKotlinToolchainIdeInfo(v) => s.(facets := s.facets.(kotlinToolchainIdeInfo := Some(v)))
    case AddTag(t) => s.(tags := s.tags + [t])
    case AddDependency(l) => s.(dependencies := s.dependencies + [Dependency(TargetKey.ForPlainTarget(l), CompileTime)])
    case AddRuntimeDep(l) => s.(dependencies := s.dependencies + [Dependency(TargetKey.ForPlainTarget(l), Runtime)])
  }

  /**
   * The mutable accumulator for one target. Every setter and adder returns
   * the builder itself and changes its state exactly as `Step` says.
   */
  class Builder {
    var key: Option<TargetKey>
    var kind: Option<Kind>
    var buildFile: Option<ArtifactLocation>
    const dependencies: ArrayList<Dependency>
    const tags: ArrayList<string>
    var sources: set<ArtifactLocation>
    var cIdeInfo: Option<CIdeInfo>
    var cToolchainIdeInfo: Option<CToolchainIdeInfo>
    var javaIdeInfo: Option<JavaIdeInfo>
    var androidIdeInfo: Option<AndroidIdeInfo>
    var androidAarIdeInfo: Option<AndroidAarIdeInfo>
    var pyIdeInfo: Option<PyIdeInfo>
    var goIdeInfo: Option<GoIdeInfo>
    var jsIdeInfo: Option<JsIdeInfo>
    var tsIdeInfo: Option<TsIdeInfo>
    var dartIdeInfo: Option<DartIdeInfo>
    var testIdeInfo: Option<TestIdeInfo>
    var javaToolchainIdeInfo: Option<JavaToolchainIdeInfo>
    var kotlinToolchainIdeInfo: Option<KotlinToolchainIdeInfo>

    /** The facet slots filled so far. */
    function Facets(): FacetSlots
      reads this
    {
      FacetSlots(cIdeInfo, cToolchainIdeInfo, javaIdeInfo, androidIdeInfo, androidAarIdeInfo,
                 pyIdeInfo, goIdeInfo, jsIdeInfo, tsIdeInfo, dartIdeInfo, testIdeInfo,
                 javaToolchainIdeInfo, kotlinToolchainIdeInfo)
    }

    /** Everything accumulated so far, including the contents of the two lists. */
    function State(): BuilderState
      reads this, dependencies, tags
    {
      BuilderState(key, kind, buildFile, dependencies.elems, tags.elems, sources, Facets())
    }

    /** `TargetIdeInfo.builder()`: nothing set, empty lists of its own, an empty source set. */
    constructor ()
      ensures State() == EmptyBuilder
      ensures fresh(dependencies) && fresh(tags)
    {
      key, kind, buildFile := None, None, None;
      dependencies := new ArrayList();
      tags := new ArrayList();
      sources := {};
      cIdeInfo, cToolchainIdeInfo, javaIdeInfo, androidIdeInfo := None, None, None, None;
      androidAarIdeInfo, pyIdeInfo, goIdeInfo, jsIdeInfo := None, None, None, None;
      tsIdeInfo, dartIdeInfo, testIdeInfo := None, None, None;
      javaToolchainIdeInfo, kotlinToolchainIdeInfo := None, None;
    }

    method SetLabel(l: Label) returns (self: Builder)
      modifies this
      ensures self == this
      ensures State() == Step(old(State()), BuilderCall.SetLabel(l))
    {
      key := Some(TargetKey.ForPlainTarget(l));
      self := this;
    }

    method SetBuildFile(buildFile: ArtifactLocation) returns (self: Builder)
      modifies this
      ensures self == this
      ensures State() == Step(old(State()), BuilderCall.SetBuildFile(buildFile))
    {
      this.buildFile := Some(buildFile);
      self := this;
    }

    method SetKind(kind: Kind) returns (self: Builder)
      modifies this
      ensures self == this
      ensures State() == Step(old(State()), BuilderCall.SetKind(kind))
    {
      this.kind := Some(kind);
      self := this;
    }

    method AddSource(source: ArtifactLocation) returns (self: Builder)
      modifies this
      ensures self == this
      ensures State() == Step(old(State()), BuilderCall.AddSource(source))
    {
      sources := sources + {source};
      self := this;
    }

    method SetJavaInfo(info: JavaIdeInfo) returns (self: Builder)
      modifies this
      ensures self == this
      ensures State() == Step(old(State()), BuilderCall.SetJavaInfo(info))
    {
      javaIdeInfo := Some(info);
      self := this;
    }

    /** Stores the C facet and adds its sources, headers and textual headers to the source set. */
    method SetCInfo(info: CIdeInfo) returns (self: Builder)
      modifies this
      ensures self == this
      ensures State() == Step(old(State()), BuilderCall.SetCInfo(info))
    {
      cIdeInfo := Some(info);
      sources := sources + SetOf(info.sources);
      sources := sources + SetOf(info.headers);
      sources := sources + SetOf(info.textualHeaders);
      self := this;
    }

    method SetCToolchainInfo(info: CToolchainIdeInfo) returns (self: Builder)
      modifies this
      ensures self == this
      ensures State() == Step(old(State()), BuilderCall.SetCToolchainInfo(info))
    {
      cToolchainIdeInfo := Some(info);
      self := this;
    }

    method SetAndroidInfo(info: AndroidIdeInfo) returns (self: Builder)
      modifies this
      ensures self == this
      ensures State() == Step(old(State()), BuilderCall.SetAndroidInfo(info))
    {
      androidIdeInfo := Some(info);
      self := this;
    }

    method SetAndroidAarInfo(info: AndroidAarIdeInfo) returns (self: Builder)
      modifies this
      ensures self == this
      ensures State() == Step(old(State()), BuilderCall.SetAndroidAarInfo(info))
    {
      androidAarIdeInfo := Some(info);
      self := this;
    }

    method SetPyInfo(info: PyIdeInfo) returns (self: Builder)
      modifies this
      ensures self == this
      ensures State() == Step(old(State()), BuilderCall.SetPyInfo(info))
    {
      pyIdeInfo := Some(info);
      self := this;
    }

    method SetGoInfo(info: GoIdeInfo) returns (self: Builder)
      modifies this
      ensures self == this
      ensures State() == Step(old(State()), BuilderCall.SetGoInfo(info))
    {
      goIdeInfo := Some(info);
      self := this;
    }

    method SetJsInfo(info: JsIdeInfo) returns (self: Builder)
      modifies this
      ensures self == this
      ensures State() == Step(old(State()), BuilderCall.SetJsInfo(info))
    {
      jsIdeInfo := Some(info);
      self := this;
    }

    method SetTsInfo(info: TsIdeInfo) returns (self: Builder)
      modifies this
      ensures self == this
      ensures State() == Step(old(State()), BuilderCall.SetTsInfo(info))
    {
      tsIdeInfo := Some(info);
      self := this;
    }

    method SetDartInfo(info: DartIdeInfo) returns (self: Builder)
      modifies this
      ensures self == this
      ensures State() == Step(old(State()), BuilderCall.SetDartInfo(info))
    {
      dartIdeInfo := Some(info);
      self := this;
    }

    method SetTestInfo(info: TestIdeInfo) returns (self: Builder)
      modifies this
      ensures self == this
      ensures State() == Step(old(State()), BuilderCall.SetTestInfo(info))
    {
      testIdeInfo := Some(info);
      self := this;
    }

    method SetJavaToolchainIdeInfo(info: JavaToolchainIdeInfo) returns (self: Builder)
      modifies this
      ensures self == this
      ensures State() == Step(old(State()), BuilderCall.SetJavaToolchainIdeInfo(info))
    {
      javaToolchainIdeInfo := Some(info);
      self := this;
    }

    method SetKotlinToolchainIdeInfo(info: KotlinToolchainIdeInfo) returns (self: Builder)
      modifies this
      ensures self == this
      ensures State() == Step(old(State()), BuilderCall.SetKotlinToolchainIdeInfo(info))
    {
      kotlinToolchainIdeInfo := Some(info);
      self := this;
    }

    /** Appends to the tag list object (which a built target may share). */
    method AddTag(tag: string) returns (self: Builder)
      modifies tags
      ensures self == this
      ensures State() == Step(old(State()), BuilderCall.AddTag(tag))
    {
      tags.Add(tag);
      self := this;
    }

    /** Appends a compile-time edge to the plain target `l` (which a built target may share). */
    method AddDependency(l: Label) returns (self: Builder)
      modifies dependencies
      ensures self == this
      ensures State() == Step(old(State()), BuilderCall.AddDependency(l))
    {
      dependencies.Add(Dependency(TargetKey.ForPlainTarget(l), CompileTime));
      self := this;
    }

    /** Appends a runtime edge to the plain target `l`. */
    method AddRuntimeDep(l: Label) returns (self: Builder)
      modifies dependencies
      ensures self == this
      ensures State() == Step(old(State()), BuilderCall.AddRuntimeDep(l))
    {
      dependencies.Add(Dependency(TargetKey.ForPlainTarget(l), Runtime));
      self := this;
    }

    /**
     * `build()`: a new target with the key, kind, build file and facets as
     * accumulated, no Android SDK facet, the source set listed once per
     * element in a new list, and the builder's own two list objects (not
     * copies).
     */
    method Build() returns (t: TargetIdeInfo)
      ensures fresh(t) && fresh(t.sources)
      ensures t.key == key && t.kind == kind && t.buildFile == buildFile
      ensures t.dependencies == dependencies && t.tags == tags
      ensures Enumerates(t.sources.elems, sources) && t.Valid() && |t.sources.elems| == |sources|
      ensures t.Facets() == Facets()
      ensures t.androidSdkIdeInfo.None?
    {
      t := new TargetIdeInfo(
        key, kind, buildFile, dependencies, tags, sources,
        cIdeInfo, cToolchainIdeInfo, javaIdeInfo, androidIdeInfo,
        None,
        androidAarIdeInfo, pyIdeInfo, goIdeInfo, jsIdeInfo, tsIdeInfo, dartIdeInfo,
        testIdeInfo, javaToolchainIdeInfo, kotlinToolchainIdeInfo);
    }
  }
}
