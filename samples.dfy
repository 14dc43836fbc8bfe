/** The card document the first iteration decodes on start-up, taken through
    both decoders and through the pinner. */
module Samples {
  import opened Wrappers
  import opened JsonValues
  import Numbers
  import opened HexColors
  import opened QuickSpecs
  import EarlyQuick
  import opened Pinning

  /** A layout entry with one string argument. */
  function Entry(layoutMethod: int, argument: string): Json {
    JObject(map["method" := JInt(layoutMethod), "arguments" := JArray([JString(argument)])])
  }

  const CardItems: seq<Json> := [Entry(3, "16"), Entry(2, "128"), Entry(6, "8")]

  /** A dark card, 128 points high, pinned 16 from the top and 8 from the end. */
  const CardFields: JsonObject := map[
    "name" := JString("card"),
    "backgroundColor" := JString("#343F4B"),
    "type" := JInt(0),
    "layout" := JArray(CardItems)]

  const Card: Json := JObject(CardFields)

  const CardColor: Color := Color(0x34, 0x3F, 0x4B, LongScale, LongScale)

  const CardLayout: seq<LayoutSpec> :=
    [LayoutSpec(Top, Constant(16.0)), LayoutSpec(Height, Constant(128.0)), LayoutSpec(End, Constant(8.0))]

  /** What the decoders find under each key of the card. */
  lemma CardKeys()
    ensures AsString(CardFields, "name") == Some("card")
    ensures AsInt(CardFields, "type") == Some(0)
    ensures AsString(CardFields, "backgroundColor") == Some("#343F4B")
    ensures AsString(CardFields, "corner").None?
    ensures AsObjectArray(CardFields, "subviews").None?
    ensures AsObjectArray(CardFields, "layout") == Some(CardItems)
  {
    assert "corner" !in CardFields && "subviews" !in CardFields;
  }

  lemma CardColorReads()
    ensures Hex("#343F4B") == Some(CardColor)
  {
    var t := "343F4B";
    assert "#343F4B" == "#" + t;
    Hex6Channels(t);
  }

  lemma NumeralsRead()
    ensures Numbers.ParseDouble("16") == Some(16.0)
    ensures Numbers.ParseDouble("128") == Some(128.0)
    ensures Numbers.ParseDouble("8") == Some(8.0)
  {
    assert "16"[..1] == "1";
    assert "128"[..2] == "12" && "12"[..1] == "1";
    assert Numbers.DotIndex("16") == 2 && "16"[..2] == "16";
    assert Numbers.DotIndex("128") == 3 && "128"[..3] == "128";
    assert Numbers.DotIndex("8") == 1 && "8"[..1] == "8";
  }

  /** An entry with a known method and a numeric argument is kept with that
      method and that constant. */
  lemma EntryReads(code: int, argument: string, value: real)
    requires 0 <= code <= 14 && Numbers.ParseDouble(argument) == Some(value)
    ensures DecodeLayoutEntry(Entry(code, argument).fields) ==
            Some(LayoutSpec(LayoutMethodOf(code).value, Constant(value)))
  {
    var entry := Entry(code, argument).fields;
    assert AsInt(entry, "method") == Some(code);
    assert FirstArgument(entry) == Some(JString(argument));
  }

  lemma CardEntriesRead()
    ensures AllObjects(CardItems)
    ensures EntryResults(CardItems) == [Some(CardLayout[0]), Some(CardLayout[1]), Some(CardLayout[2])]
  {
    NumeralsRead();
    EntryReads(3, "16", 16.0);
    EntryReads(2, "128", 128.0);
    EntryReads(6, "8", 8.0);
  }

  lemma CardLayoutReads()
    ensures LayoutOf(CardFields) == CardLayout
  {
    CardKeys();
    CardEntriesRead();
    SomesAllPresent(EntryResults(CardItems));
  }

  lemma CardStyleReads()
    ensures ParseBaseViewSpecs(CardFields) == BaseSpec(Some(CardColor), None)
  {
    CardKeys();
    CardColorReads();
  }

  /** The later decoder reads the card as a plain view with the dark colour,
      no corner radius, no subviews and three layout specs. */
  lemma CardDecodes()
    ensures DecodeData(Card) ==
            Some(QuickSpec("card", Plain, [], PlainSpec(BaseSpec(Some(CardColor), None)), CardLayout))
  {
    CardKeys();
    CardLayoutReads();
    CardStyleReads();
    assert ParseSubviews(CardFields) == [];
    assert ParseViewSpecs(CardFields, Plain) == PlainSpec(BaseSpec(Some(CardColor), None));
  }

  /** The first iteration reads the same name and colour. */
  lemma CardDecodesEarly()
    ensures EarlyQuick.DecodeData(Card) ==
            Some(EarlyQuick.QuickSpec("card", EarlyQuick.Plain, EarlyQuick.ViewSpec(Some(CardColor))))
  {
    CardKeys();
    CardColorReads();
  }

  /** Laid out, the card is pinned to the top, given its height and pinned to
      the end, whatever its container. */
  lemma CardPins(containerSafeArea: Option<Insets>)
    ensures Calls(CardLayout, containerSafeArea) ==
            [TopCall(Uniform(16.0)), HeightCall(128.0), EndCall(Uniform(8.0))]
  {
    OneCallPerSpec(CardLayout, containerSafeArea);
  }
}
