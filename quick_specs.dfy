/** The view-spec decoder: it turns a JSON dictionary into a tree of view
    specs (name, view type, style, subviews, layout specs). A node is decoded
    strictly (it needs a string `name` and an integer `type` naming a known
    view type); its subviews leniently (a subview that fails is dropped); its
    layout entries leniently (an entry without a known method is dropped). */
module QuickSpecs {
  import opened Wrappers
  import opened JsonValues
  import Numbers
  import opened HexColors

  // ---------------------------------------------------------------------
  // Layout methods and their integer codes

  /** The argument string that stands for the container's safe area. */
  const LayoutContainerSafeArea: string := "container.safeArea"

  const LayoutMethodSize: int := 0
  const LayoutMethodWidth: int := 1
  const LayoutMethodHeight: int := 2
  const LayoutMethodTop: int := 3
  const LayoutMethodBottom: int := 4
  const LayoutMethodVertically: int := 5
  const LayoutMethodEnd: int := 6
  const LayoutMethodStart: int := 7
  const LayoutMethodHorizontally: int := 8
  const LayoutMethodMarginTop: int := 9
  const LayoutMethodAfter: int := 10
  const LayoutMethodBefore: int := 11
  const LayoutMethodSizeToFit: int := 12
  const LayoutMethodSizeToFitWidth: int := 13
  const LayoutMethodSizeToFitHeight: int := 14

  datatype LayoutMethod =
    | Size | Width | Height
    | Top | Bottom | Vertically
    | End | Start | Horizontally
    | MarginTop
    | After | Before
    | SizeToFit | SizeToFitWidth | SizeToFitHeight

  /** The integer constant each method is written as in a document. */
  function MethodCode(m: LayoutMethod): int {
    match m
    case Size => LayoutMethodSize
    case Width => LayoutMethodWidth
    case Height => LayoutMethodHeight
    case Top => LayoutMethodTop
    case Bottom => LayoutMethodBottom
    case Vertically => LayoutMethodVertically
    case End => LayoutMethodEnd
    case Start => LayoutMethodStart
    case Horizontally => LayoutMethodHorizontally
    case MarginTop => LayoutMethodMarginTop
    case After => LayoutMethodAfter
    case Before => LayoutMethodBefore
    case SizeToFit => LayoutMethodSizeToFit
    case SizeToFitWidth => LayoutMethodSizeToFitWidth
    case SizeToFitHeight => LayoutMethodSizeToFitHeight
  }

  /** `QuickLayoutMethod(rawValue:)`: exactly the integers 0 to 14 name a
      method, and the method named is the one written as that integer. */
  function LayoutMethodOf(rawValue: int): (r: Option<LayoutMethod>)
    ensures r.Some? <==> 0 <= rawValue <= 14
    ensures r.Some? ==> MethodCode(r.value) == rawValue
  {
    if rawValue == LayoutMethodSize then Some(Size)
    else if rawValue == LayoutMethodWidth then Some(Width)
    else if rawValue == LayoutMethodHeight then Some(Height)
    else if rawValue == LayoutMethodTop then Some(Top)
    else if rawValue == LayoutMethodBottom then Some(Bottom)
    else if rawValue == LayoutMethodVertically then Some(Vertically)
    else if rawValue == LayoutMethodEnd then Some(End)
    else if rawValue == LayoutMethodStart then Some(Start)
    else if rawValue == LayoutMethodHorizontally then Some(Horizontally)
    else if rawValue == LayoutMethodMarginTop then Some(MarginTop)
    else if rawValue == LayoutMethodAfter then Some(After)
    else if rawValue == LayoutMethodBefore then Some(Before)
    else if rawValue == LayoutMethodSizeToFit then Some(SizeToFit)
    else if rawValue == LayoutMethodSizeToFitWidth then Some(SizeToFitWidth)
    else if rawValue == LayoutMethodSizeToFitHeight then Some(SizeToFitHeight)
    else None
  }

  /** Every method is decoded from its own code. */
  lemma MethodCodeRoundTrip(m: LayoutMethod)
    ensures LayoutMethodOf(MethodCode(m)) == Some(m)
  {
    match m
    case Size =>
    case Width =>
    case Height =>
    case Top =>
    case Bottom =>
    case Vertically =>
    case End =>
    case Start =>
    case Horizontally =>
    case MarginTop =>
    case After =>
    case Before =>
    case SizeToFit =>
    case SizeToFitWidth =>
    case SizeToFitHeight =>
  }

  /** The fifteen methods have fifteen different codes. */
  lemma MethodCodesDistinct(m: LayoutMethod, n: LayoutMethod)
    requires m != n
    ensures MethodCode(m) != MethodCode(n)
  {
    MethodCodeRoundTrip(m);
    MethodCodeRoundTrip(n);
  }

  // ---------------------------------------------------------------------
  // Layout arguments and specs

  /** `QuickLayoutMethodArgument` as the decoder produces it: a constant or
      the container's safe area. */
  datatype Argument = Constant(value: real) | ContainerSafeArea

  /** `argValue`: the constant, or nothing for the safe area. */
  function ArgValue(argument: Argument): (r: Option<real>)
    ensures r.None? <==> argument == ContainerSafeArea
    ensures argument.Constant? ==> r == Some(argument.value)
  {
    match argument
    case Constant(value) => Some(value)
    case ContainerSafeArea => None
  }

  datatype LayoutSpec = LayoutSpec(layoutMethod: LayoutMethod, argument: Argument)

  // ---------------------------------------------------------------------
  // View types and the decoded spec tree

  datatype ViewType = Plain | Label

  const PlainView: int := 0
  const LabelView: int := 1

  /** The dictionary `QuickViewType.IntToType`. */
  const IntToType: map<int, ViewType> := map[PlainView := Plain, LabelView := Label]

  /** `QuickViewType(rawValue:)`: a lookup in `IntToType`. */
  function ViewTypeOf(rawValue: int): (r: Option<ViewType>)
    ensures r == Some(Plain) <==> rawValue == 0
    ensures r == Some(Label) <==> rawValue == 1
    ensures r.None? <==> rawValue != 0 && rawValue != 1
  {
    if rawValue in IntToType then Some(IntToType[rawValue]) else None
  }

  /** `QuickViewBaseSpec`: the style every view type has. */
  datatype BaseSpec = BaseSpec(backgroundColor: Option<Color>, cornerRadius: Option<real>)

  /** The font `UIFont.systemFont(ofSize:weight:)` makes; the weight is the
      document's integer, handed over as the weight's raw value. */
  datatype Font = SystemFont(size: real, weight: int)

  /** `QuickViewSpec`: a plain view's style, or a label's. */
  datatype ViewSpec =
    | PlainSpec(base: BaseSpec)
    | LabelSpec(base: BaseSpec, text: Option<string>, textColor: Option<Color>, font: Option<Font>)

  /** `QuickSpec`: one node of the spec tree. */
  datatype QuickSpec = QuickSpec(
    name: string,
    quickType: ViewType,
    subviews: seq<QuickSpec>,
    viewSpec: ViewSpec,
    layoutSpecs: seq<LayoutSpec>)

  /** `QuickControllerSpec`: a screen and its container view. */
  datatype ControllerSpec = ControllerSpec(name: string, container: QuickSpec)

  // ---------------------------------------------------------------------
  // The decoder

  /** `QuickSpecImp(json:)`: nil exactly when `name` is not a string, `type`
      is not an integer or names no view type; otherwise the name and type
      are taken over unchanged. */
  function DecodeSpec(json: JsonObject): (r: Option<QuickSpec>)
    ensures r.Some? <==>
              AsString(json, "name").Some? && AsInt(json, "type").Some? &&
              ViewTypeOf(AsInt(json, "type").value).Some?
    ensures r.Some? ==>
              && r.value.name == AsString(json, "name").value
              && r.value.quickType == ViewTypeOf(AsInt(json, "type").value).value
              && r.value.subviews == ParseSubviews(json)
              && r.value.viewSpec == ParseViewSpecs(json, r.value.quickType)
              && r.value.layoutSpecs == LayoutOf(json)
    decreases JObject(json), 2
  {
    var name := AsString(json, "name");
    var viewType := AsInt(json, "type");
    if name.None? || viewType.None? then None
    else
      var quickType := ViewTypeOf(viewType.value);
      if quickType.None? then None
      else
        Some(QuickSpec(
          name.value,
          quickType.value,
          ParseSubviews(json),
          ParseViewSpecs(json, quickType.value),
          LayoutOf(json)))
  }

  /** `QuickSpecImp(data:)` on an already-parsed document: nil unless the
      document is a dictionary, then the same as `DecodeSpec`. */
  function DecodeData(document: Json): (r: Option<QuickSpec>)
    ensures r.Some? ==> document.JObject?
    ensures document.JObject? ==> r == DecodeSpec(document.fields)
  {
    match document
    case JObject(json) => DecodeSpec(json)
    case _ => None
  }

  /** `parseSubviews`: the subviews that decode, in document order. */
  function ParseSubviews(json: JsonObject): (r: seq<QuickSpec>)
    ensures AsObjectArray(json, "subviews").None? ==> r == []
    ensures AsObjectArray(json, "subviews").Some? ==> |r| <= |AsObjectArray(json, "subviews").value|
    decreases JObject(json), 1
  {
    match AsObjectArray(json, "subviews")
    case None => []
    case Some(items) => Somes(DecodeEach(items))
  }

  /** `DecodeSpec` applied to every dictionary of an array of dictionaries. */
  function DecodeEach(items: seq<Json>): (r: seq<Option<QuickSpec>>)
    requires AllObjects(items)
    ensures |r| == |items|
    decreases JArray(items), 0
  {
    seq(|items|, i requires 0 <= i < |items| => DecodeSpec(items[i].fields))
  }

  /** `parseViewSpecs`: the base style, plus the label attributes for a label. */
  function ParseViewSpecs(json: JsonObject, viewType: ViewType): (r: ViewSpec)
    ensures r.base == ParseBaseViewSpecs(json)
    ensures r.PlainSpec? <==> viewType == Plain
  {
    var baseSpec := ParseBaseViewSpecs(json);
    match viewType
    case Plain => PlainSpec(baseSpec)
    case Label => ParseLabelViewSpecs(baseSpec, json)
  }

  /** `parseBaseViewSpecs`: the background colour is `UIColor.hex` of the
      `backgroundColor` string; the corner radius is set only when `corner`
      is a string that reads as a number. */
  function ParseBaseViewSpecs(json: JsonObject): (r: BaseSpec)
    ensures r.backgroundColor == HexOptional(AsString(json, "backgroundColor"))
    ensures r.cornerRadius.Some? <==>
              AsString(json, "corner").Some? && Numbers.ParseDouble(AsString(json, "corner").value).Some?
    ensures r.cornerRadius.Some? ==> r.cornerRadius == Numbers.ParseDouble(AsString(json, "corner").value)
  {
    var colorValue := AsString(json, "backgroundColor");
    var radiusProperty := AsString(json, "corner");
    var cornerRadius :=
      if radiusProperty.Some? && Numbers.ParseDouble(radiusProperty.value).Some?
      then Some(Numbers.ParseDouble(radiusProperty.value).value)
      else None;
    BaseSpec(HexOptional(colorValue), cornerRadius)
  }

  /** `parseLabelViewSpecs`: text, text colour and font of a label. */
  function ParseLabelViewSpecs(baseSpec: BaseSpec, json: JsonObject): (r: ViewSpec)
    ensures r.LabelSpec? && r.base == baseSpec
    ensures r.text == AsString(json, "text")
    ensures r.textColor == HexOptional(AsString(json, "textColor"))
    ensures r.font.Some? <==>
              && AsObject(json, "font").Some?
              && AsString(AsObject(json, "font").value, "name") == Some("system")
              && AsString(AsObject(json, "font").value, "size").Some?
              && Numbers.ParseDouble(AsString(AsObject(json, "font").value, "size").value).Some?
              && AsInt(AsObject(json, "font").value, "weight").Some?
    ensures r.font.Some? ==>
              r.font.value == SystemFont(
                   Numbers.ParseDouble(AsString(AsObject(json, "font").value, "size").value).value,
                   AsInt(AsObject(json, "font").value, "weight").value)
  {
    var text := AsString(json, "text");
    var textColor := HexOptional(AsString(json, "textColor"));
    var fontDict := AsObject(json, "font");
    var fontName := if fontDict.Some? then AsString(fontDict.value, "name") else None;
    var fontWeight := if fontDict.Some? then AsInt(fontDict.value, "weight") else None;
    var fontSizeProperty := if fontDict.Some? then AsString(fontDict.value, "size") else None;
    var fontSize := if fontSizeProperty.Some? then Numbers.ParseDouble(fontSizeProperty.value) else None;
    LabelSpec(baseSpec, text, textColor, FontNamed(fontName, fontSize, fontWeight))
  }

  /** `UIFont.named(_:size:weight:)`: a font exists only when name, size and
      weight are all given and the name is "system". */
  function FontNamed(name: Option<string>, size: Option<real>, weight: Option<int>): (r: Option<Font>)
    ensures r.Some? <==> name == Some("system") && size.Some? && weight.Some?
    ensures r.Some? ==> r.value == SystemFont(size.value, weight.value)
  {
    if name.None? || size.None? || weight.None? then None
    else if name.value == "system" then Some(SystemFont(size.value, weight.value))
    else None
  }

  /** A decoded label carries the `text` string, `UIColor.hex` of the
      `textColor` string, and a font exactly when the `font` dictionary
      holds the name "system", a `size` string that reads as a number and
      an integer `weight`. */
  lemma LabelAttributes(json: JsonObject)
    requires DecodeSpec(json).Some? && DecodeSpec(json).value.quickType == Label
    ensures var spec := DecodeSpec(json).value.viewSpec;
            && spec.LabelSpec?
            && spec.base == ParseBaseViewSpecs(json)
            && spec.text == AsString(json, "text")
            && spec.textColor == HexOptional(AsString(json, "textColor"))
            && (spec.font.Some? <==>
                  && AsObject(json, "font").Some?
                  && AsString(AsObject(json, "font").value, "name") == Some("system")
                  && AsString(AsObject(json, "font").value, "size").Some?
                  && Numbers.ParseDouble(AsString(AsObject(json, "font").value, "size").value).Some?
                  && AsInt(AsObject(json, "font").value, "weight").Some?)
            && (spec.font.Some? ==>
                  spec.font.value == SystemFont(
                    Numbers.ParseDouble(AsString(AsObject(json, "font").value, "size").value).value,
                    AsInt(AsObject(json, "font").value, "weight").value))
  {
    assert DecodeSpec(json).value.viewSpec == ParseViewSpecs(json, Label);
  }

  // ---------------------------------------------------------------------
  // Layout entries

  /** The body of the loop in `parseLayout` for one entry: kept when its
      `method` is an integer naming a method. */
  function DecodeLayoutEntry(spec: JsonObject): (r: Option<LayoutSpec>)
    ensures r.Some? <==> AsInt(spec, "method").Some? && 0 <= AsInt(spec, "method").value <= 14
    ensures r.Some? ==> Some(MethodCode(r.value.layoutMethod)) == AsInt(spec, "method")
    ensures r.Some? ==> r.value.argument == GetArgumentValue(spec)
  {
    var methodValue := AsInt(spec, "method");
    if methodValue.None? then None
    else
      var layoutMethod := LayoutMethodOf(methodValue.value);
      if layoutMethod.None? then None
      else Some(LayoutSpec(layoutMethod.value, GetArgumentValue(spec)))
  }

  function EntryResults(items: seq<Json>): (r: seq<Option<LayoutSpec>>)
    requires AllObjects(items)
    ensures |r| == |items|
  {
    seq(|items|, i requires 0 <= i < |items| => DecodeLayoutEntry(items[i].fields))
  }

  /** What `parseLayout` returns: nothing without an array of dictionaries
      under `layout`, else the entries that decode, in order. */
  function LayoutOf(json: JsonObject): seq<LayoutSpec> {
    match AsObjectArray(json, "layout")
    case None => []
    case Some(items) => Somes(EntryResults(items))
  }

  /** `parseLayout`, with its loop appending each entry that decodes. */
  method ParseLayout(json: JsonObject) returns (result: seq<LayoutSpec>)
    ensures result == LayoutOf(json)
  {
    var layout := AsObjectArray(json, "layout");
    if layout.None? {
      return [];
    }
    var items := layout.value;
    result := [];
    for i := 0 to |items|
      invariant result == Somes(EntryResults(items[..i]))
    {
      assert EntryResults(items[..i + 1]) == EntryResults(items[..i]) + [DecodeLayoutEntry(items[i].fields)];
      var spec := items[i].fields;
      var methodValue := AsInt(spec, "method");
      if methodValue.Some? {
        var layoutMethod := LayoutMethodOf(methodValue.value);
        if layoutMethod.Some? {
          var newSpec := LayoutSpec(layoutMethod.value, GetArgumentValue(spec));
          result := result + [newSpec];
        }
      }
    }
    assert items[..|items|] == items;
  }

  /** The layout specs are the entries with a known method, in document
      order: the k-th spec comes from entry `SomeIndices(...)[k]`, carries the
      method that entry's integer names and the argument decoded from that
      entry, and every entry with an integer method in 0..14 is kept. */
  lemma {:induction false} LayoutKeepsKnownEntriesInOrder(json: JsonObject, items: seq<Json>)
    requires AsObjectArray(json, "layout") == Some(items)
    ensures var r, idx := LayoutOf(json), SomeIndices(EntryResults(items));
            && |r| <= |items|
            && |idx| == |r|
            && (forall k, l :: 0 <= k < l < |idx| ==> idx[k] < idx[l])
            && (forall k :: 0 <= k < |idx| ==>
                  && idx[k] < |items|
                  && AsInt(items[idx[k]].fields, "method") == Some(MethodCode(r[k].layoutMethod))
                  && r[k].argument == GetArgumentValue(items[idx[k]].fields))
            && (forall i :: 0 <= i < |items| ==>
                  (i in idx <==> AsInt(items[i].fields, "method").Some? &&
                                 0 <= AsInt(items[i].fields, "method").value <= 14))
  {
    var results := EntryResults(items);
    SomesIsSubsequence(results);
    var idx := SomeIndices(results);
    forall k | 0 <= k < |idx|
      ensures idx[k] < |items|
      ensures AsInt(items[idx[k]].fields, "method") == Some(MethodCode(LayoutOf(json)[k].layoutMethod))
      ensures LayoutOf(json)[k].argument == GetArgumentValue(items[idx[k]].fields)
    {
      assert results[idx[k]] == DecodeLayoutEntry(items[idx[k]].fields);
    }
    forall i | 0 <= i < |items|
      ensures i in idx ==> results[i].Some?
    {
      if i in idx {
        var k :| 0 <= k < |idx| && idx[k] == i;
      }
    }
  }

  // ---------------------------------------------------------------------
  // Layout arguments

  /** The first element of `arguments`, when it is a non-empty array. */
  function FirstArgument(spec: JsonObject): Option<Json> {
    match AsArray(spec, "arguments")
    case Some(values) => if |values| > 0 then Some(values[0]) else None
    case None => None
  }

  /** `getArgumentValue` reads nothing but the first argument, and its `Int`
      fallback never fires: a missing, empty or non-array `arguments` or a
      non-string first element give `constant(0)`; a numeric string gives
      its value; exactly "container.safeArea" gives the safe area; any other
      string gives `constant(0)`. */
  function GetArgumentValue(spec: JsonObject): (r: Argument)
    ensures r == ArgumentOf(FirstArgument(spec))
  {
    var nothing := Constant(0.0);
    var values := AsArray(spec, "arguments");
    if values.None? || |values.value| == 0 then nothing
    else if !values.value[0].JString? then nothing
    else
      var argValue := values.value[0].str;
      match Numbers.ParseDouble(argValue)
      case Some(floatValue) => Constant(floatValue)
      case None =>
        match Numbers.ParseInt(argValue)
        case Some(intValue) =>
          // Unreachable: a string `Int` accepts is one `Double` accepts.
          Numbers.IntParsesAsDouble(argValue);
          assert false;
          Constant(intValue as real)
        case None => if argValue == LayoutContainerSafeArea then ContainerSafeArea else nothing
  }

  /** The argument rules stated on the first argument alone. */
  function ArgumentOf(first: Option<Json>): Argument {
    match first
    case Some(JString(s)) =>
      if Numbers.ParseDouble(s).Some? then Constant(Numbers.ParseDouble(s).value)
      else if s == LayoutContainerSafeArea then ContainerSafeArea
      else Constant(0.0)
    case _ => Constant(0.0)
  }

  /** The sentinel is not a number to either parser. */
  lemma SentinelIsNotNumeric()
    ensures Numbers.ParseDouble(LayoutContainerSafeArea).None?
    ensures Numbers.ParseInt(LayoutContainerSafeArea).None?
  {
    assert !Numbers.IsNumeralChar(LayoutContainerSafeArea[0]);
    if Numbers.ParseInt(LayoutContainerSafeArea).Some? {
      Numbers.IntParsesAsDouble(LayoutContainerSafeArea);
    }
  }

  /** Only the exact sentinel string yields the safe area. */
  lemma SafeAreaOnlyFromSentinel(spec: JsonObject)
    ensures GetArgumentValue(spec) == ContainerSafeArea <==>
            FirstArgument(spec) == Some(JString(LayoutContainerSafeArea))
  {
    SentinelIsNotNumeric();
  }

  /** Entries that agree on their first argument decode to the same argument,
      whatever follows it. */
  lemma ArgumentIgnoresRest(a: JsonObject, b: JsonObject)
    requires FirstArgument(a) == FirstArgument(b)
    ensures GetArgumentValue(a) == GetArgumentValue(b)
  {
  }

  // ---------------------------------------------------------------------
  // Subviews

  /** The subviews are the children that decode, in document order: the
      k-th comes from child `SomeIndices(...)[k]`, and every child that
      decodes is kept. */
  lemma {:induction false} SubviewsKeepDecodedChildrenInOrder(json: JsonObject, items: seq<Json>)
    requires AsObjectArray(json, "subviews") == Some(items)
    ensures var r, idx := ParseSubviews(json), SomeIndices(DecodeEach(items));
            && |idx| == |r|
            && (forall k, l :: 0 <= k < l < |idx| ==> idx[k] < idx[l])
            && (forall k :: 0 <= k < |idx| ==> idx[k] < |items| && DecodeSpec(items[idx[k]].fields) == Some(r[k]))
            && (forall i :: 0 <= i < |items| ==> (i in idx <==> DecodeSpec(items[i].fields).Some?))
  {
    var results := DecodeEach(items);
    SomesIsSubsequence(results);
    var idx := SomeIndices(results);
    forall i | 0 <= i < |items|
      ensures i in idx ==> results[i].Some?
    {
      if i in idx {
        var k :| 0 <= k < |idx| && idx[k] == i;
      }
    }
  }

  /** Decoding a concatenation decodes the two halves apart. */
  lemma DecodeEachAppend(a: seq<Json>, b: seq<Json>)
    requires AllObjects(a) && AllObjects(b)
    ensures AllObjects(a + b)
    ensures DecodeEach(a + b) == DecodeEach(a) + DecodeEach(b)
  {
    AllObjectsAppend(a, b);
    assert forall i :: 0 <= i < |b| ==> (a + b)[|a| + i] == b[i];
  }

  /** A subview that fails to decode leaves its siblings as they were. */
  lemma {:induction false} FailedSubviewIsDropped(json: JsonObject, before: seq<Json>, child: Json, after: seq<Json>)
    requires "subviews" in json && json["subviews"] == JArray(before + [child] + after)
    requires AllObjects(before) && AllObjects(after) && child.JObject?
    requires DecodeSpec(child.fields).None?
    ensures ParseSubviews(json) == ParseSubviews(json["subviews" := JArray(before + after)])
  {
    var json' := json["subviews" := JArray(before + after)];
    DecodeEachAppend(before, [child]);
    DecodeEachAppend(before + [child], after);
    DecodeEachAppend(before, after);
    assert AsObjectArray(json, "subviews") == Some(before + [child] + after);
    assert AsObjectArray(json', "subviews") == Some(before + after);
    var none := DecodeEach([child]);
    assert none == [None];
    SomesAppend(DecodeEach(before) + none, DecodeEach(after));
    SomesAppend(DecodeEach(before), none);
    assert Somes(none) == [];
    SomesAppend(DecodeEach(before), DecodeEach(after));
  }

  /** `as? [JSON]` fails as a whole when one element is not a dictionary, so
      a single non-dictionary element empties the subview list. */
  lemma NonDictionaryEmptiesSubviews(json: JsonObject, i: nat)
    requires "subviews" in json && json["subviews"].JArray?
    requires i < |json["subviews"].items| && !json["subviews"].items[i].JObject?
    ensures ParseSubviews(json) == []
  {
  }

  // ---------------------------------------------------------------------
  // The controller document

  /** `QuickControllerSpecImp(data:)`: a dictionary with a string `name` and
      a dictionary `container` that decodes as a view spec. */
  function DecodeController(document: Json): (r: Option<ControllerSpec>)
    ensures r.Some? <==>
              && document.JObject?
              && AsString(document.fields, "name").Some?
              && AsObject(document.fields, "container").Some?
              && DecodeSpec(AsObject(document.fields, "container").value).Some?
    ensures r.Some? ==>
              && r.value.name == AsString(document.fields, "name").value
              && Some(r.value.container) == DecodeSpec(AsObject(document.fields, "container").value)
  {
    match document
    case JObject(json) =>
      var name := AsString(json, "name");
      var containerData := AsObject(json, "container");
      if name.None? || containerData.None? then None
      else
        (match DecodeSpec(containerData.value)
         case Some(container) => Some(ControllerSpec(name.value, container))
         case None => None)
    case _ => None
  }
}
