/**
 * The per-toolchain facets a target may carry. Their internals are not part
 * of this model: each is an opaque value, except the two parts the target
 * metadata reads, the C facet's source lists and the test facet's size.
 */
module IdeInfoFacets {
  import opened Wrappers
  import opened Primitives

  type CToolchainIdeInfo(==)
  type JavaIdeInfo(==)
  type AndroidIdeInfo(==)
  type AndroidSdkIdeInfo(==)
  type AndroidAarIdeInfo(==)
  type PyIdeInfo(==)
  type GoIdeInfo(==)
  type JsIdeInfo(==)
  type TsIdeInfo(==)
  type DartIdeInfo(==)
  type JavaToolchainIdeInfo(==)
  type KotlinToolchainIdeInfo(==)

  /** The C/C++ compilation details other than its file lists (flags, defines, ...). */
  type CCompilationInfo(==)

  /** The C/C++ facet: its sources, headers and textual headers. */
  datatype CIdeInfo = CIdeInfo(
    sources: seq<ArtifactLocation>,
    headers: seq<ArtifactLocation>,
    textualHeaders: seq<ArtifactLocation>,
    compilation: CCompilationInfo)

  /** A test size classification (small, medium, ...). */
  type TestSize(==)

  datatype TestIdeInfo = TestIdeInfo(testSize: TestSize)

  /**
   * The facet slots the builder fills in: every facet of a target except
   * the Android SDK facet, which the builder has no slot for.
   */
  datatype FacetSlots = FacetSlots(
    cIdeInfo: Option<CIdeInfo>,
    cToolchainIdeInfo: Option<CToolchainIdeInfo>,
    javaIdeInfo: Option<JavaIdeInfo>,
    androidIdeInfo: Option<AndroidIdeInfo>,
    androidAarIdeInfo: Option<AndroidAarIdeInfo>,
    pyIdeInfo: Option<PyIdeInfo>,
    goIdeInfo: Option<GoIdeInfo>,
    jsIdeInfo: Option<JsIdeInfo>,
    tsIdeInfo: Option<TsIdeInfo>,
    dartIdeInfo: Option<DartIdeInfo>,
    testIdeInfo: Option<TestIdeInfo>,
    javaToolchainIdeInfo: Option<JavaToolchainIdeInfo>,
    kotlinToolchainIdeInfo: Option<KotlinToolchainIdeInfo>)
  {
    /** This record and `other` hold the same value in `slot`. */
    predicate SameIn(other: FacetSlots, slot: FacetSlot) {
      match slot
      case CSlot => cIdeInfo == other.cIdeInfo
      case CToolchainSlot => cToolchainIdeInfo == other.cToolchainIdeInfo
      case JavaSlot => javaIdeInfo == other.javaIdeInfo
      case AndroidSlot => androidIdeInfo == other.androidIdeInfo
      case AndroidAarSlot => androidAarIdeInfo == other.androidAarIdeInfo
      case PySlot => pyIdeInfo == other.pyIdeInfo
      case GoSlot => goIdeInfo == other.goIdeInfo
      case JsSlot => jsIdeInfo == other.jsIdeInfo
      case TsSlot => tsIdeInfo == other.tsIdeInfo
      case DartSlot => dartIdeInfo == other.dartIdeInfo
      case TestSlot => testIdeInfo == other.testIdeInfo
      case JavaToolchainSlot => javaToolchainIdeInfo == other.javaToolchainIdeInfo
      case KotlinToolchainSlot => kotlinToolchainIdeInfo == other.kotlinToolchainIdeInfo
    }
  }

  /** Names one of the thirteen slots of `FacetSlots`. */
  datatype FacetSlot =
    | CSlot
    | CToolchainSlot
    | JavaSlot
    | AndroidSlot
    | AndroidAarSlot
    | PySlot
    | GoSlot
    | JsSlot
    | TsSlot
    | DartSlot
    | TestSlot
    | JavaToolchainSlot
    | KotlinToolchainSlot

  const NoFacets := FacetSlots(None, None, None, None, None, None, None, None, None, None, None, None, None)
}
