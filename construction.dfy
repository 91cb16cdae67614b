/** What the `ModelGenerator` constructor computes from its initial shapes: the sticky
    validity flag and the builder slots (src/client/wrap.cpp:125-165). The loop visits
    the shapes in order; the functions here give its state after a prefix of them. */
module Construction {
  import opened Values
  import opened Shapes
  import opened Prt

  /** Whether the Engine accepts one shape: a path shape needs a non-empty file URI
      whose geometry resolves with status OK; an inline shape needs `setGeometry` on
      its three lists to return OK. */
  predicate Accepted(e: Engine, s: InitialShape)
    ensures Accepted(e, s) && s.pathFlag ==> e.toFileUri(s.path) != ""
    ensures s.pathFlag && e.resolveGeometry(e.toFileUri(s.path)) != Ok ==> !Accepted(e, s)
    ensures !s.pathFlag ==> (Accepted(e, s) <==> e.setGeometry(s.vertices, s.indices, s.faceCounts) == Ok)
  {
    if s.pathFlag then
      e.toFileUri(s.path) != "" && e.resolveGeometry(e.toFileUri(s.path)) == Ok
    else
      e.setGeometry(s.vertices, s.indices, s.faceCounts) == Ok
  }

  /** `mValid` after the loop has visited `shapes`: it starts true and the first
      rejected shape clears it for good. */
  function StillValid(e: Engine, shapes: seq<InitialShape>): (v: bool)
    ensures shapes == [] ==> v
    ensures v && shapes != [] ==> Accepted(e, shapes[|shapes| - 1])
    ensures shapes != [] && !StillValid(e, shapes[..|shapes| - 1]) ==> !v
    decreases |shapes|
  {
    if shapes == [] then true
    else StillValid(e, shapes[..|shapes| - 1]) && Accepted(e, shapes[|shapes| - 1])
  }

  /** `mInitialShapesBuilders` after the loop has visited `shapes`: slot `i` receives the
      builder of shape `i` only if the flag is still set right after that shape. */
  function StoredBuilders(e: Engine, shapes: seq<InitialShape>): (r: seq<Option<ShapeBuilder>>)
    ensures |r| == |shapes|
    decreases |shapes|
  {
    if shapes == [] then []
    else
      StoredBuilders(e, shapes[..|shapes| - 1])
        + [if StillValid(e, shapes) then Some(ShapeBuilder(shapes[|shapes| - 1])) else None]
  }

  /** The flag survives construction exactly when every shape is accepted. */
  lemma {:induction false} StillValidIffAllAccepted(e: Engine, shapes: seq<InitialShape>)
    ensures StillValid(e, shapes) <==> forall i :: 0 <= i < |shapes| ==> Accepted(e, shapes[i])
    decreases |shapes|
  {
    if shapes != [] {
      var init := shapes[..|shapes| - 1];
      StillValidIffAllAccepted(e, init);
      assert forall i :: 0 <= i < |init| ==> init[i] == shapes[i];
    }
  }

  /** Slot `i` holds the builder of shape `i` exactly when shapes 0..i were all accepted;
      otherwise it stays null. */
  lemma {:induction false} StoredBuilderAt(e: Engine, shapes: seq<InitialShape>, i: nat)
    requires i < |shapes|
    ensures StoredBuilders(e, shapes)[i]
            == if forall j :: 0 <= j <= i ==> Accepted(e, shapes[j]) then Some(ShapeBuilder(shapes[i])) else None
    decreases |shapes|
  {
    var init := shapes[..|shapes| - 1];
    if i == |shapes| - 1 {
      StillValidIffAllAccepted(e, shapes);
    } else {
      StoredBuilderAt(e, init, i);
      assert forall j :: 0 <= j <= i ==> init[j] == shapes[j];
    }
  }

  /** Once a shape is rejected, no builder is stored for it or any later shape. */
  lemma NoBuilderAfterRejection(e: Engine, shapes: seq<InitialShape>, i: nat, j: nat)
    requires i <= j < |shapes| && !Accepted(e, shapes[i])
    ensures StoredBuilders(e, shapes)[j] == None
  {
    StoredBuilderAt(e, shapes, j);
  }

  /** When the flag is still set at the end, every slot holds the builder of its own shape. */
  lemma AllBuildersStoredWhenValid(e: Engine, shapes: seq<InitialShape>)
    requires StillValid(e, shapes)
    ensures forall i :: 0 <= i < |shapes| ==> StoredBuilders(e, shapes)[i] == Some(ShapeBuilder(shapes[i]))
  {
    StillValidIffAllAccepted(e, shapes);
    forall i | 0 <= i < |shapes|
      ensures StoredBuilders(e, shapes)[i] == Some(ShapeBuilder(shapes[i]))
    {
      StoredBuilderAt(e, shapes, i);
    }
  }
}
