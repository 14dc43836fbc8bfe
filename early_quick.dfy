/** The first iteration of the decoder: a view spec is a name, the only
    view type (plain) and a background colour. Later iterations keep this
    node rule and add label views, subviews and layout. */
module EarlyQuick {
  import opened Wrappers
  import opened JsonValues
  import opened HexColors
  import QuickSpecs

  datatype ViewType = Plain

  const PlainView: int := 0

  /** `QuickViewType(rawValue:)`: 0 is plain, every other integer is nil. */
  function ViewTypeOf(rawValue: int): (r: Option<ViewType>)
    ensures r.Some? <==> rawValue == PlainView
  {
    if rawValue == PlainView then Some(Plain) else None
  }

  /** `QuickViewSpecImp`. */
  datatype ViewSpec = ViewSpec(backgroundColor: Option<Color>)

  /** `QuickSpecImp`. */
  datatype QuickSpec = QuickSpec(name: string, quickType: ViewType, viewSpec: ViewSpec)

  /** `QuickSpecImp(data:)` on an already-parsed document: nil unless the
      document is a dictionary with a string `name` and the integer 0 as
      `type`; then the name is copied and the colour is `UIColor.hex` of the
      `backgroundColor` string, nil when that is missing or not a string. */
  function DecodeData(document: Json): (r: Option<QuickSpec>)
    ensures r.Some? <==>
              document.JObject? && AsString(document.fields, "name").Some? &&
              AsInt(document.fields, "type") == Some(PlainView)
    ensures r.Some? ==>
              && r.value.name == AsString(document.fields, "name").value
              && r.value.quickType == Plain
              && r.value.viewSpec.backgroundColor == HexOptional(AsString(document.fields, "backgroundColor"))
  {
    match document
    case JObject(json) =>
      var name := AsString(json, "name");
      var viewType := AsInt(json, "type");
      if name.None? || viewType.None? then None
      else
        var quickType := ViewTypeOf(viewType.value);
        if quickType.None? then None
        else
          var colorValue := AsString(json, "backgroundColor");
          Some(QuickSpec(name.value, quickType.value, ViewSpec(HexOptional(colorValue))))
    case _ => None
  }

  /** The keys this iteration reads. */
  predicate IsReadKey(key: string) {
    key == "name" || key == "type" || key == "backgroundColor"
  }

  /** Any key other than name, type and backgroundColor (`layout`,
      `subviews`, ...) can be added, changed or removed without changing
      the result. */
  lemma OnlyReadKeysMatter(a: JsonObject, b: JsonObject)
    requires forall key :: IsReadKey(key) ==> (key in a <==> key in b)
    requires forall key :: IsReadKey(key) && key in a ==> a[key] == b[key]
    ensures DecodeData(JObject(a)) == DecodeData(JObject(b))
  {
    assert IsReadKey("name") && IsReadKey("type") && IsReadKey("backgroundColor");
  }

  /** The later decoder agrees with this one: it accepts exactly the
      documents this one accepts plus those of the other view types, and on
      the ones this one accepts it reads the same name and the same
      background colour. */
  lemma AgreesWithLaterDecoder(document: Json)
    ensures DecodeData(document).Some? <==>
              QuickSpecs.DecodeData(document).Some? && QuickSpecs.DecodeData(document).value.quickType == QuickSpecs.Plain
    ensures DecodeData(document).Some? ==>
              && QuickSpecs.DecodeData(document).value.name == DecodeData(document).value.name
              && QuickSpecs.DecodeData(document).value.viewSpec.base.backgroundColor ==
                 DecodeData(document).value.viewSpec.backgroundColor
  {
    if document.JObject? && QuickSpecs.DecodeData(document).Some? {
      var json := document.fields;
      assert QuickSpecs.DecodeData(document).value.viewSpec ==
             QuickSpecs.ParseViewSpecs(json, QuickSpecs.DecodeData(document).value.quickType);
    }
  }
}
