/** `Pinner`: applies a view's decoded layout specs to the view's pin. The
    pin is the PinLayout recorder whose geometry lives outside this model, so
    a pin is represented by the ordered list of commands it has been given. */
module Pinning {
  import opened Wrappers
  import opened JsonValues
  import opened QuickSpecs

  /** `PEdgeInsets`. */
  datatype Insets = Insets(top: real, left: real, bottom: real, right: real)

  /** Four equal insets. */
  function Uniform(v: real): (r: Insets)
    ensures r.top == v && r.left == v && r.bottom == v && r.right == v
  {
    Insets(v, v, v, v)
  }

  /** The safe area of `UIView()`, the stand-in when there is no container: a
      view that is not in a window has no safe-area insets. */
  const DetachedSafeArea: Insets := Insets(0.0, 0.0, 0.0, 0.0)

  /** One command given to a pin. The edge commands take insets, the size
      commands a single value. `Unfinished` stands for the methods whose
      branch in `apply` was never written (after, before, sizeToFit*). */
  datatype PinCall =
    | SizeCall(value: real)
    | WidthCall(value: real)
    | HeightCall(value: real)
    | TopCall(insets: Insets)
    | BottomCall(insets: Insets)
    | VerticallyCall(insets: Insets)
    | EndCall(insets: Insets)
    | StartCall(insets: Insets)
    | HorizontallyCall(insets: Insets)
    | MarginTopCall(value: real)
    | Unfinished(layoutMethod: LayoutMethod)

  /** The methods `apply` pins with a single value. */
  predicate IsSizeMethod(m: LayoutMethod) {
    m == Size || m == Width || m == Height || m == MarginTop
  }

  /** The methods `apply` pins with four insets. */
  predicate IsEdgeMethod(m: LayoutMethod) {
    m == Top || m == Bottom || m == Vertically || m == End || m == Start || m == Horizontally
  }

  /** The command `apply` gives for one spec, when the container's safe area
      is `containerSafeArea` (None when there is no container). */
  function CallFor(spec: LayoutSpec, containerSafeArea: Option<Insets>): PinCall {
    var constant := ArgValue(spec.argument).GetOr(0.0);
    var insets :=
      if spec.argument.ContainerSafeArea? then containerSafeArea.GetOr(DetachedSafeArea)
      else Uniform(constant);
    match spec.layoutMethod
    case Size => SizeCall(constant)
    case Width => WidthCall(constant)
    case Height => HeightCall(constant)
    case Top => TopCall(insets)
    case Bottom => BottomCall(insets)
    case Vertically => VerticallyCall(insets)
    case End => EndCall(insets)
    case Start => StartCall(insets)
    case Horizontally => HorizontallyCall(insets)
    case MarginTop => MarginTopCall(constant)
    case _ => Unfinished(spec.layoutMethod)
  }

  /** The commands `layout` gives for a list of specs, in list order. */
  function Calls(specs: seq<LayoutSpec>, containerSafeArea: Option<Insets>): seq<PinCall> {
    if specs == [] then []
    else Calls(specs[..|specs| - 1], containerSafeArea) + [CallFor(specs[|specs| - 1], containerSafeArea)]
  }

  /** A pin as a recorder: the commands it has been given so far. */
  class Pin {
    var calls: seq<PinCall>

    /** `view.pin`: a pin that has not been given a command yet. */
    constructor()
      ensures calls == []
    {
      calls := [];
    }

    /** Gives the pin one more command. */
    method Record(call: PinCall)
      modifies this
      ensures calls == old(calls) + [call]
    {
      calls := calls + [call];
    }
  }

  /** `Pinner.apply`: one command for one spec. */
  method Apply(spec: LayoutSpec, pin: Pin, containerSafeArea: Option<Insets>)
    modifies pin
    ensures pin.calls == old(pin.calls) + [CallFor(spec, containerSafeArea)]
  {
    var viewContainerSafeArea := containerSafeArea.GetOr(DetachedSafeArea);
    var constant := ArgValue(spec.argument).GetOr(0.0);
    var insets := Insets(constant, constant, constant, constant);
    if spec.argument.ContainerSafeArea? {
      insets := viewContainerSafeArea;
    }
    match spec.layoutMethod {
      case Size => pin.Record(SizeCall(constant));
      case Width => pin.Record(WidthCall(constant));
      case Height => pin.Record(HeightCall(constant));
      case Top => pin.Record(TopCall(insets));
      case Bottom => pin.Record(BottomCall(insets));
      case Vertically => pin.Record(VerticallyCall(insets));
      case End => pin.Record(EndCall(insets));
      case Start => pin.Record(StartCall(insets));
      case Horizontally => pin.Record(HorizontallyCall(insets));
      case MarginTop => pin.Record(MarginTopCall(constant));
      case _ => pin.Record(Unfinished(spec.layoutMethod));
    }
  }

  /** `Pinner.layout`: takes the view's pin and applies every spec to it, in
      list order. */
  method Layout(specs: seq<LayoutSpec>, containerSafeArea: Option<Insets>) returns (viewPin: Pin)
    ensures fresh(viewPin)
    ensures viewPin.calls == Calls(specs, containerSafeArea)
  {
    viewPin := new Pin();
    for i := 0 to |specs|
      invariant viewPin.calls == Calls(specs[..i], containerSafeArea)
    {
      assert specs[..i + 1][..i] == specs[..i];
      Apply(specs[i], viewPin, containerSafeArea);
    }
    assert specs[..|specs|] == specs;
  }

  /** `layout` gives exactly one command per spec, the i-th for the i-th. */
  lemma {:induction false} OneCallPerSpec(specs: seq<LayoutSpec>, containerSafeArea: Option<Insets>)
    ensures |Calls(specs, containerSafeArea)| == |specs|
    ensures forall i :: 0 <= i < |specs| ==> Calls(specs, containerSafeArea)[i] == CallFor(specs[i], containerSafeArea)
  {
    if specs != [] {
      var init := specs[..|specs| - 1];
      OneCallPerSpec(init, containerSafeArea);
      forall i | 0 <= i < |init| ensures init[i] == specs[i] { }
    }
  }

  /** Laying out two lists one after the other gives the commands of their
      concatenation. */
  lemma {:induction false} CallsAppend(a: seq<LayoutSpec>, b: seq<LayoutSpec>, containerSafeArea: Option<Insets>)
    ensures Calls(a + b, containerSafeArea) == Calls(a, containerSafeArea) + Calls(b, containerSafeArea)
    decreases |b|
  {
    if b == [] {
      assert a + b == a;
    } else {
      var b' := b[..|b| - 1];
      assert (a + b)[..|a + b| - 1] == a + b';
      CallsAppend(a, b', containerSafeArea);
    }
  }

  /** Size, width, height and marginTop get the argument's constant, 0 for
      the safe area, and do not depend on the container. */
  lemma SizeCallsUseConstant(spec: LayoutSpec, containerSafeArea: Option<Insets>)
    requires IsSizeMethod(spec.layoutMethod)
    ensures var call := CallFor(spec, containerSafeArea);
            && call.value == (if spec.argument.Constant? then spec.argument.value else 0.0)
            && call == CallFor(spec, None)
  {
  }

  /** The edge methods get the container's safe area (a detached view's when
      there is no container) for the safe-area argument, and four insets
      equal to the constant otherwise. */
  lemma EdgeCallsUseInsets(spec: LayoutSpec, containerSafeArea: Option<Insets>)
    requires IsEdgeMethod(spec.layoutMethod)
    ensures var call := CallFor(spec, containerSafeArea);
            && (spec.argument.ContainerSafeArea? && containerSafeArea.Some? ==> call.insets == containerSafeArea.value)
            && (spec.argument.ContainerSafeArea? && containerSafeArea.None? ==> call.insets == DetachedSafeArea)
            && (spec.argument.Constant? ==> call.insets == Uniform(spec.argument.value))
  {
  }

  /** The layout method a command belongs to. */
  function CallMethod(call: PinCall): LayoutMethod {
    match call
    case SizeCall(_) => Size
    case WidthCall(_) => Width
    case HeightCall(_) => Height
    case TopCall(_) => Top
    case BottomCall(_) => Bottom
    case VerticallyCall(_) => Vertically
    case EndCall(_) => End
    case StartCall(_) => Start
    case HorizontallyCall(_) => Horizontally
    case MarginTopCall(_) => MarginTop
    case Unfinished(m) => m
  }

  /** Every command belongs to its spec's method, and only the methods
      without a branch in `apply` come out unfinished. */
  lemma CallKeepsMethod(spec: LayoutSpec, containerSafeArea: Option<Insets>)
    ensures CallMethod(CallFor(spec, containerSafeArea)) == spec.layoutMethod
    ensures CallFor(spec, containerSafeArea).Unfinished? <==>
            !IsSizeMethod(spec.layoutMethod) && !IsEdgeMethod(spec.layoutMethod)
  {
  }

  /** From document to pin: a layout entry with an edge method whose first
      argument is exactly "container.safeArea" pins the view to the
      container's safe area (a detached view's without a container); any
      other first argument pins it to four insets equal to the constant the
      entry decodes to. */
  lemma SentinelPinsToSafeArea(entry: JsonObject, spec: LayoutSpec, containerSafeArea: Option<Insets>)
    requires DecodeLayoutEntry(entry) == Some(spec)
    requires IsEdgeMethod(spec.layoutMethod)
    ensures FirstArgument(entry) == Some(JString(LayoutContainerSafeArea)) ==>
              CallFor(spec, containerSafeArea).insets == containerSafeArea.GetOr(DetachedSafeArea)
    ensures FirstArgument(entry) != Some(JString(LayoutContainerSafeArea)) ==>
              spec.argument.Constant? && CallFor(spec, containerSafeArea).insets == Uniform(spec.argument.value)
  {
    assert spec.argument == GetArgumentValue(entry);
    SafeAreaOnlyFromSentinel(entry);
    EdgeCallsUseInsets(spec, containerSafeArea);
  }
}
