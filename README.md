# Quick: a verified model of the view-spec decoder

Quick builds UIKit screens from JSON. A screen document names a container view. Each view is a
dictionary with a `name`, an integer `type` (0 plain, 1 label), style keys (`backgroundColor`
as a `#RGB`/`#RGBA`/`#RRGGBB`/`#RRGGBBAA` string, `corner`, and for labels `text`, `textColor`
and `font`), nested `subviews`, and `layout` entries. A layout entry is a `method` integer
(0–14) plus an `arguments` array whose first element is a number written as a string or the
sentinel `"container.safeArea"`. The `Pinner` then applies each decoded layout spec to the
view's PinLayout pin.

This project models, in Dafny:

- `wrappers.dfy` — `Option` and Swift's `compactMap` (`Somes`). It proves that the survivors
  are the in-order subsequence of the present entries.
- `json_values.dfy` — already-parsed JSON and the `as?` casts the decoders apply, including
  `as? [JSON]`, which succeeds only when every element is a dictionary.
- `numbers.dfy` — `Double(String)` and `Int(String)` on plain decimal notation.
- `hex_colors.dfy` — `UIColor.hex`, the four `init(hexN:)` initializers and
  `init(_:defaultColor:)`. Colours are integer channels on a scale of 15 (short forms) or 255
  (long forms), so that no floating point is involved. Also a hex encoder and its round trip.
- `quick_specs.dfy` — the layout-method and view-type integer decoders, `QuickSpecImp`
  (`init(json:)`, `init(data:)`, `parseSubviews`, `parseViewSpecs`, `parseBaseViewSpecs`,
  `parseLabelViewSpecs`, `parseLayout`, `getArgumentValue`), the `UIFont.named` guard and
  `QuickControllerSpecImp(data:)`. `parseLayout` is a method whose loop is proved against the
  function `LayoutOf`.
- `pinning.dfy` — `Pinner.layout` and `Pinner.apply`. The pin is a class whose state is the
  ordered list of commands it has been given, and the two methods are proved against the
  functions `Calls` and `CallFor`.
- `early_quick.dfy` — the first iteration of the decoder (plain views with a background
  colour only) and its agreement with the later decoder.
- `samples.dfy` — the card document the first iteration decodes on start-up, taken through
  both decoders and the pinner.

Three behaviours of the code are easy to misread; the model follows the code:

- **`as? [JSON]` is all-or-nothing.** If `subviews` or `layout` holds even one element that is
  not a dictionary, the cast fails and the whole list decodes as empty. Only dictionaries
  that fail to decode are dropped one at a time (`NonDictionaryEmptiesSubviews`,
  `FailedSubviewIsDropped`).
- **The `Int` fallback in `getArgumentValue` never fires.** Every string `Int(String)` accepts,
  `Double(String)` accepts first with the same value (`IntParsesAsDouble`).
- **The colour form is picked by the length of everything after `#`, not by how many hex digits
  the scan read.** So `"#12G"` reads as the three-digit colour 0x012 (`LengthCountsWholeSuffix`).

## Model

| member | source | states |
|---|---|---|
| Wrappers.SomesIsSubsequence | Quick/Quick/ViewController.swift:686 | what `compactMap` keeps: the present values in order, each at an increasing position, none of them skipped |
| JsonValues.AsObjectArray | Quick/Quick/ViewController.swift:683 | `as? [JSON]` succeeds exactly when the value is an array all of whose elements are dictionaries, and then hands back those elements |
| Numbers.ParseInt | Quick/Quick/ViewController.swift:785 | `Int(String)` only yields values within the 64-bit range |
| Numbers.ParseDouble | Quick/Quick/ViewController.swift:782 | an accepted string consists of numeral characters only and contains a digit |
| Numbers.IntParsesAsDouble | Quick/Quick/ViewController.swift:782-787 | every string `Int(String)` accepts, `Double(String)` accepts with the same value, so the `Int` branch of `getArgumentValue` is dead |
| Numbers.ParseIntRoundTrip | Quick/Quick/ViewController.swift:785 | reading back the decimal form of a non-negative `Int` gives that value |
| HexColors.ScanHex | Quick/UIColor+Init.swift:91-96 | the scan succeeds exactly when the text starts with a hex digit, and its value never needs more digits than the text has |
| HexColors.FromHex3 | Quick/UIColor+Init.swift:19-25 | three nibbles on scale 15 with full alpha, each channel within the scale |
| HexColors.FromHex4 | Quick/UIColor+Init.swift:33-40 | four nibbles on scale 15, each channel within the scale |
| HexColors.FromHex6 | Quick/UIColor+Init.swift:47-53 | three bytes on scale 255 with full alpha, each channel within the scale |
| HexColors.FromHex8 | Quick/UIColor+Init.swift:60-67 | four bytes on scale 255, each channel within the scale |
| HexColors.Nibbles3 | Quick/UIColor+Init.swift:19-25 | the masks and shifts of `init(hex3:)` give back the three nibbles, highest first |
| HexColors.Nibbles4 | Quick/UIColor+Init.swift:33-40 | the masks and shifts of `init(hex4:)` give back the four nibbles, the lowest being alpha |
| HexColors.Bytes6 | Quick/UIColor+Init.swift:47-53 | the masks and shifts of `init(hex6:)` give back the three bytes, highest first |
| HexColors.Bytes8 | Quick/UIColor+Init.swift:60-67 | the masks and shifts of `init(hex8:)` give back the four bytes, the lowest being alpha |
| HexColors.Hex | Quick/UIColor+Init.swift:86-113 | a colour exactly when the text is `#`, a hex digit, and 3, 4, 6 or 8 characters after the `#`; short forms on scale 15, long on 255; full alpha for the forms without alpha |
| HexColors.HexOptional | Quick/UIColor+Init.swift:74-79 | no text gives no colour; text gives what `hex` gives |
| HexColors.ColorOr | Quick/UIColor+Init.swift:120-147 | the colour `hex` reads whenever there is one, the default colour otherwise |
| HexColors.ScanAll | Quick/UIColor+Init.swift:91-96 | when all the text is hex digits the scan reads all of it |
| HexColors.ReadAll | Quick/UIColor+Init.swift:98-112 | with only hex digits after `#`, the value of all of them goes to the initializer that the length selects |
| HexColors.Hex3Channels | Quick/UIColor+Init.swift:19-25 | `#RGB` is red, green and blue digit by digit on scale 15, fully opaque |
| HexColors.Hex4Channels | Quick/UIColor+Init.swift:33-40 | `#RGBA` is red, green, blue and alpha digit by digit on scale 15 |
| HexColors.Hex6Channels | Quick/UIColor+Init.swift:47-53 | `#RRGGBB` is red, green and blue pair by pair on scale 255, fully opaque |
| HexColors.Hex8Channels | Quick/UIColor+Init.swift:60-67 | `#RRGGBBAA` is red, green, blue and alpha pair by pair on scale 255 |
| HexColors.HexEncodeRoundTrip | Quick/UIColor+Init.swift:86-113 | every colour on either scale is read back from its hex notation unchanged |
| HexColors.LengthCountsWholeSuffix | Quick/UIColor+Init.swift:98-107 | the length test counts the whole text after `#`, so `#12G` reads as the 3-digit colour 0x012 |
| QuickSpecs.LayoutMethodOf | Quick/Quick/ViewController.swift:97-140 | exactly the integers 0–14 name a method, each the one whose constant it is |
| QuickSpecs.MethodCodeRoundTrip | Quick/Quick/ViewController.swift:97-140 | each method is decoded from its own constant |
| QuickSpecs.MethodCodesDistinct | Quick/Quick/ViewController.swift:16-35 | the fifteen method constants are pairwise distinct |
| QuickSpecs.ArgValue | Quick/Quick/ViewController.swift:44-54 | a constant yields its value; only the safe area yields nothing |
| QuickSpecs.ViewTypeOf | Quick/Quick/ViewController.swift:592-614 | 0 is plain, 1 is label, every other integer is nil |
| QuickSpecs.DecodeSpec | Quick/Quick/ViewController.swift:638-654 | nil exactly when `name` is not a string, `type` is not an integer or is no known type; otherwise name and type are copied unchanged, the subviews are `parseSubviews`, the view spec is `parseViewSpecs` for that type and the layout specs are `parseLayout` of the same dictionary |
| QuickSpecs.DecodeData | Quick/Quick/ViewController.swift:656-678 | nil unless the document is a dictionary, and then the same node decode as `init(json:)` |
| QuickSpecs.ParseSubviews | Quick/Quick/ViewController.swift:682-687 | a missing or non-dictionary-array `subviews` gives no subviews, and never more subviews than children |
| QuickSpecs.SubviewsKeepDecodedChildrenInOrder | Quick/Quick/ViewController.swift:682-687 | the subviews are exactly the children that decode, in document order |
| QuickSpecs.FailedSubviewIsDropped | Quick/Quick/ViewController.swift:686 | removing a child that fails to decode leaves the subviews unchanged |
| QuickSpecs.NonDictionaryEmptiesSubviews | Quick/Quick/ViewController.swift:683-685 | one non-dictionary element empties the whole subview list |
| QuickSpecs.ParseViewSpecs | Quick/Quick/ViewController.swift:691-702 | every view gets the base style; only a plain view gets a plain spec |
| QuickSpecs.ParseBaseViewSpecs | Quick/Quick/ViewController.swift:704-717 | a corner radius exactly when `corner` is a string that reads as a number, with that number; the background colour is `hex` of the `backgroundColor` string, nil when that is missing, not a string or not a colour |
| QuickSpecs.ParseLabelViewSpecs | Quick/Quick/ViewController.swift:725-749 | a label spec over the given base style, with the `text` string, `hex` of the `textColor` string as text colour, and a font exactly when the `font` dictionary has the name "system", a numeric `size` string and an integer `weight`, that font being the system font of that size and weight |
| QuickSpecs.LabelAttributes | Quick/Quick/ViewController.swift:725-749 | a label's text is the `text` string, its text colour `hex` of the `textColor` string, and it has a font exactly when the `font` dictionary has the name "system", a numeric `size` string and an integer `weight`, the system font of that size and weight |
| QuickSpecs.FontNamed | Quick/Quick/ViewController.swift:797-814 | a font exactly when name, size and weight are all present and the name is "system" |
| QuickSpecs.DecodeLayoutEntry | Quick/Quick/ViewController.swift:759-767 | an entry is kept exactly when `method` is an integer in 0–14, with that method and the entry's decoded argument |
| QuickSpecs.ParseLayout | Quick/Quick/ViewController.swift:753-771 | the loop's result is the list of decoded entries, in order (`LayoutOf`) |
| QuickSpecs.LayoutKeepsKnownEntriesInOrder | Quick/Quick/ViewController.swift:753-771 | the layout specs are the entries with a known method, in document order, each carrying its own entry's method and argument |
| QuickSpecs.SentinelIsNotNumeric | Quick/Quick/ViewController.swift:782-790 | neither number parser accepts the sentinel string |
| QuickSpecs.GetArgumentValue | Quick/Quick/ViewController.swift:773-794 | the argument is a function of the first element alone: a number string gives its constant, the sentinel the safe area, anything else or nothing `constant(0)` |
| QuickSpecs.SafeAreaOnlyFromSentinel | Quick/Quick/ViewController.swift:789-791 | the safe area comes out exactly when the first argument is the sentinel string |
| QuickSpecs.ArgumentIgnoresRest | Quick/Quick/ViewController.swift:776-781 | entries that agree on the first argument decode to the same argument |
| QuickSpecs.DecodeController | Quick/Quick/ViewController.swift:618-635 | a screen exactly when the document is a dictionary with a string `name` and a `container` dictionary that decodes; name and container are taken over |
| Pinning.Uniform | Quick/Quick/ViewController.swift:277-280 | four insets equal to the constant |
| Pinning.Pin.constructor | Quick/Quick/ViewController.swift:265 | a new pin has been given no command |
| Pinning.Apply | Quick/Quick/ViewController.swift:275-322 | one command is added for the spec, the one `CallFor` names, and nothing else changes |
| Pinning.Layout | Quick/Quick/ViewController.swift:264-271 | the view's pin receives the commands of the specs, in list order (`Calls`) |
| Pinning.OneCallPerSpec | Quick/Quick/ViewController.swift:267-270 | exactly one command per spec, the i-th for the i-th |
| Pinning.CallsAppend | Quick/Quick/ViewController.swift:267-270 | laying out two lists in turn equals laying out their concatenation |
| Pinning.SizeCallsUseConstant | Quick/Quick/ViewController.swift:276-296 | size, width, height and marginTop get the constant (0 for the safe area) and ignore the container |
| Pinning.EdgeCallsUseInsets | Quick/Quick/ViewController.swift:276-306 | the edge methods get the container's safe area, or a detached view's without a container, for the safe-area argument, else four equal insets |
| Pinning.CallKeepsMethod | Quick/Quick/ViewController.swift:288-321 | every command belongs to its spec's method; only after, before and sizeToFit* are unfinished |
| Pinning.SentinelPinsToSafeArea | Quick/Quick/ViewController.swift:282-284 | an edge entry whose first argument is the sentinel pins to the safe area; any other pins to four equal insets |
| EarlyQuick.ViewTypeOf | Quick/ViewController.swift:146-157 | 0 is plain and every other integer is nil |
| EarlyQuick.DecodeData | Quick/ViewController.swift:161-183 | nil unless a dictionary with a string `name` and `type` 0; then the name is copied and the colour is `hex` of the `backgroundColor` string |
| EarlyQuick.OnlyReadKeysMatter | Quick/ViewController.swift:161-183 | keys other than name, type and backgroundColor do not affect the result |
| EarlyQuick.AgreesWithLaterDecoder | Quick/ViewController.swift:161-183 | the later decoder accepts the same documents of type plain, with the same name and background colour |
| Samples.CardDecodes | Quick/ViewController.swift:137 | the card decodes to a plain dark view with top 16, height 128 and end 8 |
| Samples.CardDecodesEarly | Quick/ViewController.swift:137 | the first iteration reads the card's name and colour alike |
| Samples.CardPins | Quick/Quick/ViewController.swift:264-271 | the card's pin is given top 16, height 128 and end 8 |

## Left out

- PinLayout geometry. Frames, anchors and the layout pass happen in the PinLayout library, which
  is not part of this model. A pin is only the list of commands it received.
- The `after`, `before` and `sizeToFit*` branches of `Pinner.apply`. They are unwritten
  placeholders in the code. The model records an `Unfinished` command for them, so that one
  command per spec still holds.
- `Pinner.action` and the `verticalAlign` argument case. The first is unused and does not cover
  every method. The decoder never produces the second.
- UIKit objects and lifecycles: `QuickView`, `QuickLabel`, `QuickController`, the
  `Bootstrapper`/`Producer` factories and `setup(with:)`. They only forward decoded values to
  UIKit.
- `JSONSerialization`. Documents are already-parsed JSON values. `JInt` stands for every value
  whose `as? Int` cast succeeds; NSNumber bridging of booleans and fractional numbers is not
  modelled.
- Pinning.Apply: the safe area of a fresh `UIView()` is the zero insets of a view outside a
  window; the real value comes from UIKit.
- Numbers.ParseDouble: exponents, hexadecimal floats, "inf" and "nan" are not accepted, and
  values are exact reals rather than doubles.
- HexColors.ScanHex: the scanner's skipping of leading whitespace, its `0x` prefix and its
  UInt32 overflow are not modelled. Overflow cannot matter: a value of at most 8 digits fits,
  and longer texts are rejected by the length test.
- HexColors.Hex: `String.count` counts grapheme clusters. The model counts characters.
- `hexString` and the commented-out colour helpers. They use floating-point arithmetic and
  truncation.
- QuickSpecs.FontNamed: the font is its size and the integer weight. `UIFont.Weight` and font
  construction are UIKit's.
