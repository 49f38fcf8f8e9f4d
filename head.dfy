/** The configuration of an attribute bounding-box head: which of its five
    outputs (class, box regression, face, colour, motion) are enabled, the
    class count of each categorical task, how box regression is set up, and
    the box coder. The layers themselves are not modelled. */
module Head {
  import opened Common

  datatype Head = Head(
    withCls: bool,
    withReg: bool,
    withFace: bool,
    withColour: bool,
    withMotion: bool,
    numClasses: nat,
    numFaces: nat,
    numColours: nat,
    numMotions: nat,
    regClassAgnostic: bool,
    regDecodedBbox: bool,
    coder: BoxCoder)

  datatype InitError =
    | UndefinedName(name: string)  // Python NameError
    | NoTaskEnabled                // the assertion that some output is enabled

  predicate AnyTaskEnabled(h: Head)
  {
    h.withCls || h.withReg || h.withFace || h.withColour || h.withMotion
  }

  /** Construction as the constructor is written: its first statement calls
      `super(BBoxHead, self)`, and `BBoxHead` is bound nowhere in the
      module, so every construction raises NameError before any check. */
  function BuildAsWritten(h: Head): (r: Result<Head, InitError>)
    ensures r.Failure? && r.error == UndefinedName("BBoxHead")
  {
    Failure(UndefinedName("BBoxHead"))
  }

  /** Construction as evidently intended: rejected exactly when all five
      outputs are disabled, otherwise a head with the given settings. */
  function Build(h: Head): (r: Result<Head, InitError>)
    ensures r.Success? <==> AnyTaskEnabled(h)
    ensures r.Failure? ==> r.error == NoTaskEnabled
    ensures r.Success? ==> r.value == h
  {
    if AnyTaskEnabled(h) then Success(h) else Failure(NoTaskEnabled)
  }

  /** Every configuration with an enabled output builds under the intended
      constructor and fails under the written one. */
  lemma {:induction false} BuildDiscrepancy(h: Head)
    requires AnyTaskEnabled(h)
    ensures Build(h).Success? && BuildAsWritten(h).Failure?
  {
  }

  /** Width of the box prediction: one 4-column group for every class, or a
      single group when regression is class-agnostic. */
  function RegWidth(h: Head): (w: nat)
    ensures w % 4 == 0
    ensures h.regClassAgnostic ==> w == 4
    ensures !h.regClassAgnostic ==> w / 4 == h.numClasses
  {
    if h.regClassAgnostic then 4 else 4 * h.numClasses
  }
}
