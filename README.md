# ttgen scene compiler, modelled in Dafny

ttgen compiles a YAML scene description into a Tabletop Simulator save
file. This project models its core:

- the recursive record coercer `dataclass_from_dict`. It reads a field map
  against a type descriptor (a record, `List[T]`, `Dict[K, V]` or anything
  else). Python values become the `Dataclass.Value` datatype. Dataclasses
  become `RecordType` descriptors holding each field's type and default;
- the save-file schema of `ttgen/tabletop_simulator`. These are the record
  descriptors with their defaults, the twelve-entry default tab table and
  `from_dict`;
- the annotation list and `configure_surface`, which turns snap points and
  boxes into records attached to a table's save object;
- the `OpenDeck` layout element's closed-form sizes;
- the generator components. This covers the deck counter and GUID drawing
  in `Globals`, the `generate` of every component, card numbering, the
  flexible table's scale and offset arithmetic, and URL defaulting;
- the two-player hand placement;
- `TabletopGenerator`, which resolves each entry's `__class__` tag
  against a namespace of classes and fills the ordered component registry
  and the layout list.

The files follow the source's modules. `dataclass.dfy` is
ttgen/dataclass_.py. `simulator.dfy` is the save schema.
`annotations.dfy`, `layout.dfy` and `players.dfy` match their namesakes.
`components.dfy`, `deck.dfy` and `tables.dfy` together cover
components.py. `cli.dfy` is the generator class. `text.dfy` models
`str(n)` on a natural number. `sequences.dfy` and `wrappers.dfy` are
helpers.

The outside world enters as parameters:

- A `Globals` object holds `uuid4(n)`, the text of the n-th uuid drawn,
  and `imageUrl(base, kind, name)`, the URL `gen_image_url` would find on
  disk.
- The loaded YAML document is a `Cli.Document` value.
- Each class's `schema().load` is a `Cli.Loader`, looked up by name in a
  `Cli.Namespace`.

Floats are modelled as `real`.

## Model

| member | source | states |
|---|---|---|
| Dataclass.DataclassFromDict | ttgen/dataclass_.py:4-37 | The keyword arguments are always read as the field map of `class_`. The call succeeds exactly when every key names a field whose value coerces. Each field then holds its coerced argument or its default. |
| Dataclass.CoerceInstance | ttgen/dataclass_.py:8-9 | A value that is already an instance is returned unchanged, whatever type is expected. |
| Dataclass.CoerceScalar | ttgen/dataclass_.py:30 | For a type that is not a record, list or dict, the value is returned unchanged. |
| Dataclass.CoerceList | ttgen/dataclass_.py:16-21 | `List[T]` gives a list of the same length and order with each element coerced by `T`. It fails exactly when some element fails. |
| Dataclass.CoerceMap | ttgen/dataclass_.py:23-28 | `Dict[K, V]` keeps exactly the same keys, in order, and coerces each value with `V`. The key type plays no part. |
| Dataclass.CoerceRecord | ttgen/dataclass_.py:32-35 | A record type builds an instance of that record. Supplied fields are coerced by their declared type; the others keep their defaults. It fails exactly when some key is not a field or some value does not coerce. |
| Dataclass.CoerceUnknownField | ttgen/dataclass_.py:32-34 | A supplied key that is not a field raises `KeyError` for that key once the earlier entries have coerced. |
| Dataclass.CoerceFieldFails | ttgen/dataclass_.py:33-35 | A supplied value that does not coerce raises that value's own error once the earlier entries have coerced. |
| Dataclass.FirstErrorAt | ttgen/dataclass_.py:18-21 | A list comprehension raises the error of its first failing element. |
| Dataclass.FieldsErrorAt | ttgen/dataclass_.py:33-35 | The keyword comprehension raises the error of its first bad key, either a `KeyError` or that value's coercion error. |
| Dataclass.CoerceShapeErrors | ttgen/dataclass_.py:18-28 | A record or dict type over a non-dict fails at `d.items()`. A list type over a non-iterable fails at `for i in d`. |
| Dataclass.CoerceIdempotent | ttgen/dataclass_.py:6-35 | Coercing a coerced value again with the same type changes nothing. |
| Dataclass.Iterate | ttgen/dataclass_.py:18-21 | Python iteration: a list yields its items, a dict its keys in order, and a string its characters. Other values are not iterable. |
| Dataclass.Instantiate | ttgen/dataclass_.py:33-35 | `klass(**kw)` holds every supplied value and the default for every other field. |
| Dataclass.CoerceKwargs | ttgen/dataclass_.py:32-35 | Keyword arguments that each name a field and coerce to a given value build exactly the instance of those values. |
| Dataclass.CoerceScalarKwargs | ttgen/dataclass_.py:30-35 | Keyword arguments for fields of plain type are taken as given. |
| Dataclass.CoerceListTo | ttgen/dataclass_.py:16-21 | A list whose elements coerce pointwise to `ys` becomes `List(ys)`. |
| Dataclass.CoerceDictTo | ttgen/dataclass_.py:23-28 | A dict whose values coerce pointwise becomes the dict of the coerced values under the same keys. |
| Dataclass.RgbConstructor | ttgen/dataclass_.py:47-51 | `RgbType(r, g, b)` holds the three channels. `RgbType()` is all zeros. |
| Dataclass.Point3DConstructor | ttgen/tabletop_simulator/__init__.py:5 | `Point3D(x, y, z)` holds the three coordinates. `Point3D()` is the origin. |
| Simulator.FromDict | ttgen/tabletop_simulator/__init__.py:10-13 | `from_dict` is exactly `dataclass_from_dict` applied to the class. |
| Simulator.TransformDefaults | ttgen/tabletop_simulator/__init__.py:45-55 | A default transform has every position and rotation at 0.0 and every scale at 1.0. |
| Simulator.BoardTransformDefault | ttgen/tabletop_simulator/__init__.py:229 | A board's default transform has posY 2.0 and rotY 180.0; every other field is at the transform default. |
| Simulator.BoardTransformField | ttgen/tabletop_simulator/__init__.py:225-232 | `TabletopCustomBoard.Transform` is a transform-typed field with the raised, turned default. |
| Simulator.TabStateConstructor | ttgen/tabletop_simulator/__init__.py:235-241 | A tab state built from title, colour, visible colour and id keeps `body` at "". |
| Simulator.DefaultContainerKeys | ttgen/tabletop_simulator/__init__.py:244-309 | `default_container` has exactly twelve keys, `str(0)` to `str(11)`, in that order. |
| Simulator.DefaultContainerDomain | ttgen/tabletop_simulator/__init__.py:245-309 | The table holds an entry under each of its keys and under no other key. |
| Simulator.DefaultContainerEntries | ttgen/tabletop_simulator/__init__.py:246-308 | The entry under `str(k)` has id k. Entries 1 to 11 have title equal to colour. Entry "0" is the grey "Rules" tab. |
| Simulator.SimulatorTabStates | ttgen/tabletop_simulator/__init__.py:334-336 | A new save's `TabStates` is the default tab table, typed as a dict of tab states. |
| Simulator.SimulatorNameFields | ttgen/tabletop_simulator/__init__.py:314-315 | The save has `SaveName` and `GameMode` fields. |
| Text.DecimalRoundTrip | ttgen/tabletop_simulator/__init__.py:245-309 | `int(str(n)) == n`, so distinct tab and deck numbers get distinct keys. |
| Annotations.Annotations.constructor | ttgen/tabletop_generator/annotations.py:58-59 | A new annotation list is empty. |
| Annotations.Annotations.Iter | ttgen/tabletop_generator/annotations.py:61-62 | Iteration yields the annotations in insertion order. |
| Annotations.Annotations.Update | ttgen/tabletop_generator/annotations.py:64-65 | The new list is the old list followed by the other's list, with no deduplication. |
| Annotations.Annotations.AddSnapPoint | ttgen/tabletop_generator/annotations.py:67-71 | Appends exactly one snap point at (x, y) and leaves earlier entries unchanged. |
| Annotations.Annotations.AddBox | ttgen/tabletop_generator/annotations.py:73-78 | Appends one box with vertices (x, y), (x+w, y), (x+w, y+h), (x, y+h), the given colour and thickness 0.02. |
| Annotations.ConfigureSurface | ttgen/tabletop_generator/annotations.py:19-53 | A snap point appends exactly one attached snap point at (position.x, surface_y, position.y). A box appends exactly one vector line, or fails and leaves both lists unchanged. |
| Annotations.SnapPointCoerce | ttgen/tabletop_generator/annotations.py:21-27 | The snap point's `from_dict` builds `AttachedSnapPoint(Position=Point3D(x, surface_y, y))`. |
| Annotations.BoxLineBuilt | ttgen/tabletop_generator/annotations.py:38-52 | A box's vector line has four points, vertex i lifted to (x_i, surface_y, y_i), with the coerced colour and the box's thickness. |
| Annotations.BoxLineOutcome | ttgen/tabletop_generator/annotations.py:40-52 | `Box.configure_surface` succeeds exactly when the polygon has four vertices and the colour coerces. |
| Annotations.BoxLineColourFails | ttgen/tabletop_generator/annotations.py:48-52 | A colour the coercer rejects ends the call with the coercer's error. |
| Annotations.AddedBoxLine | ttgen/tabletop_generator/annotations.py:38-53 | A box made by `add_box` becomes the closed line through its four corners at surface height, with thickness 0.02. |
| Annotations.DefaultSnapPointLine | ttgen/tabletop_generator/annotations.py:17-27 | `SnapPoint()` configures to a snap point at the origin of the surface. |
| Annotations.DefaultBoxLine | ttgen/tabletop_generator/annotations.py:34-53 | `Box()` configures to the black outline of the unit square at surface height, 0.02 thick. |
| Layout.Width | ttgen/tabletop_generator/layout.py:14-16 | The width is 2.2 per card plus 2.0. |
| Layout.DefaultWidth | ttgen/tabletop_generator/layout.py:8 | With the default single card, the width is 4.2. |
| Layout.WidthStep | ttgen/tabletop_generator/layout.py:16 | One more card widens the deck by exactly 2.2. |
| Layout.WidthIncreasing | ttgen/tabletop_generator/layout.py:16 | Width is strictly increasing in the count. |
| Layout.FixedHeight | ttgen/tabletop_generator/layout.py:18-24 | Height is 3.2 and bottom margin is 0.8, whatever the count, deck and position. |
| Components.Globals.GetDeckId | ttgen/tabletop_generator/components.py:10-13 | Increments the counter and returns its new value. |
| Components.TwoDecks | ttgen/tabletop_generator/components.py:7-13 | From a fresh counter, the first deck gets 1 and the next gets 2. |
| Components.Globals.GenGuid | ttgen/tabletop_generator/components.py:15-18 | Returns the first six characters of the next uuid and advances the draw. |
| Components.Guid | ttgen/tabletop_generator/components.py:18 | A GUID is its uuid's first six characters, or the whole uuid when it is shorter. |
| Components.PlaneTransformFields | ttgen/tabletop_generator/components.py:126-129 | A plane transform sets posX and posZ; every other field is at its default. |
| Components.Model.Generate | ttgen/tabletop_generator/components.py:121-137 | One custom model at (x, y) as posX/posZ, carrying the three URLs and a fresh GUID. |
| Components.ModelArgsCoerce | ttgen/tabletop_generator/components.py:125-136 | The model's arguments always coerce to that model record. |
| Components.TokenStackUrl | ttgen/tabletop_generator/components.py:148 | The default URL is `dest`, then `\token_stack\`, then `name`, then `.png`, each part in its place. |
| Components.TokenStack.Generate | ttgen/tabletop_generator/components.py:144-162 | The URL is filled in only when it is empty. One token stack is returned with that image and width scale 0. |
| Components.TokenStackArgsCoerce | ttgen/tabletop_generator/components.py:150-161 | The token stack's arguments always coerce to that record. |
| Components.Board.Generate | ttgen/tabletop_generator/components.py:44-61 | Fills the URL when it is empty and draws a GUID. It then always fails with `KeyError` on `TabletopTransform`. |
| Components.BoardArgsFail | ttgen/tabletop_generator/components.py:51-60 | The arguments as written fail on their first key, which is not a `TabletopCustomBoard` field. |
| Components.Board.GenerateIntended | ttgen/tabletop_generator/components.py:44-61 | With the transform passed as `Transform`, one board is returned at (x, z) with the image. |
| Components.IntendedBoardArgsCoerce | ttgen/tabletop_generator/components.py:51-60 | The corrected arguments coerce to the board record. |
| Decks.Deck.Generate | ttgen/tabletop_generator/components.py:72-112 | Draws the next deck number, defaults only empty URLs, makes `count` cards with fresh GUIDs, and returns one deck. |
| Decks.MakeCards | ttgen/tabletop_generator/components.py:82-89 | The loop makes exactly `count` cards, card i numbered `100 * deck_id + i`, in order, each with the next GUID. |
| Decks.CardsNumbered | ttgen/tabletop_generator/components.py:83-89 | Card k carries ID `100 * deck_id + k` and the k-th GUID drawn, so the ID list is that sequence. |
| Decks.CardNumbersDistinct | ttgen/tabletop_generator/components.py:84 | With at most 100 cards per deck, no two cards of the same or different decks share an ID. |
| Decks.DeckArgsCoerce | ttgen/tabletop_generator/components.py:91-111 | The deck's arguments coerce to the deck record. |
| Decks.DeckResult | ttgen/tabletop_generator/components.py:91-112 | The return value is the single deck record. |
| Decks.DeckObjectFields | ttgen/tabletop_generator/components.py:92-111 | `DeckIDs` is the card IDs, `ContainedObjects` is the cards, and `CustomDeck` is a dict under `str(deck_id)`. The nickname is the component's name. |
| Decks.DeckSheetDict | ttgen/tabletop_generator/components.py:104-109 | `CustomDeck` has the single key `str(deck_id)`, holding the sheet. |
| Decks.DeckSheetFields | ttgen/tabletop_generator/components.py:105-108 | The sheet carries the face and back URLs and keeps the default 10 by 7 grid. |
| Decks.DeckTransformFields | ttgen/tabletop_generator/components.py:94-102 | position.x maps to posX and position.y to posZ. posY is 2.0, rotY and rotZ are 180.0, and scaleX and scaleZ are 1.0. |
| Decks.GeneratedDeckIds | ttgen/tabletop_generator/components.py:82-110 | The generated deck's `DeckIDs` is `100 * deck_id + i` for i below `count`, in order. Card i of `ContainedObjects` carries that ID. |
| Tables.FlexTableGeometry | ttgen/tabletop_generator/components.py:176-179 | The width scale is table_width / 18 and the depth scale is table_height / 18. The offsets are table_width − 18 and table_height − 18. |
| Tables.DefaultFlexTableGeometry | ttgen/tabletop_generator/components.py:168-179 | The default 18 by 18 table has scales of 1 and offsets of 0. |
| Tables.FlexTable.Generate | ttgen/tabletop_generator/components.py:173-237 | Returns nine objects: the eight bundles of the loop, then the table top last. It draws eight GUIDs. |
| Tables.MakePieces | ttgen/tabletop_generator/components.py:194-221 | The loop gives leg i then side i for each i, each locked and with its own fresh GUID. |
| Tables.PieceOrder | ttgen/tabletop_generator/components.py:195-221 | Object 2k is leg k with the leg bundle (material 2). Object 2k+1 is side k with the side bundle (material 1). |
| Tables.LoadPiece | ttgen/tabletop_generator/components.py:196-220 | Each bundle's `from_dict` succeeds with that bundle. |
| Tables.BundleFromDict | ttgen/tabletop_generator/components.py:196-207 | A locked bundle whose transform and settings are plain values always coerces. |
| Tables.TopFromDict | ttgen/tabletop_generator/components.py:223-234 | The table top coerces to the locked, scaled custom model. |
| Tables.HardwoodTable.Generate | ttgen/tabletop_generator/components.py:243-271 | Returns exactly one locked hardwood bundle with a fresh GUID. |
| Tables.HardwoodResult | ttgen/tabletop_generator/components.py:246-271 | The hardwood bundle's coercion always succeeds. |
| Tables.HardwoodColour | ttgen/tabletop_generator/components.py:259 | The wood colour is RGB (0.6103, 0.4045, 0.3860). |
| Players.TwoHands | ttgen/tabletop_generator/players.py:16-41 | Exactly two hands: red at (−12, −15), then blue at (12, −15), both of size (12, 6, 6). |
| Players.HandsMirrored | ttgen/tabletop_generator/players.py:20-34 | The hands are mirror images: posX is −12 and +12, posZ is −15 for both, and all other fields are equal. |
| Players.HalfBoxes | ttgen/tabletop_generator/players.py:20-22 | `12 // 2` is 6 and `6 // 2` is 3. |
| Players.HandPosition | ttgen/tabletop_generator/players.py:19-23 | A hand transform is at the given x and z, at height 3.24. |
| Players.HandRotation | ttgen/tabletop_generator/players.py:23 | A hand transform is unrotated. |
| Players.HandScale | ttgen/tabletop_generator/players.py:24-26 | A hand transform's scale is the box size. |
| Players.FloorDiv | ttgen/tabletop_generator/players.py:20 | Python's `//` on floats gives a whole number: the largest one not above the quotient. |
| Cli.Pop | ttgen/cli.py:34-40 | `pop("__class__")` succeeds exactly on a mapping holding the tag, and returns the tag and the entry without it. A missing key is a `KeyError`, because no default is given. A list entry is a `TypeError`, because `list.pop` takes an index. Any other scalar entry has no `pop`. |
| Cli.Resolve | ttgen/cli.py:41-44 | An unknown class name raises `TypeError("Invalid … class: name.")`. A known name gives that class's loader. |
| Cli.LoadEntryOutcome | ttgen/cli.py:40-46 | The loader receives the entry without its tag. A loaded object becomes the entry's object, and a loader's message becomes its `LoaderError`. A list entry, a missing tag and an unknown class are the errors. |
| Cli.LoadComponents | ttgen/cli.py:37-47 | The component loop's result is the registry, or the first error. |
| Cli.RegistrySucceeds | ttgen/cli.py:37-47 | The registry is built exactly when every component entry loads. |
| Cli.RegistryContents | ttgen/cli.py:37-47 | `components` holds exactly the document's component names, in order, each mapped to its loaded object. |
| Cli.RegistryFirstError | ttgen/cli.py:38-47 | The error is that of the first entry that does not load. |
| Cli.LoadLayout | ttgen/cli.py:49-58 | The layout loop's result is the layout list, or the first error. |
| Cli.LayoutSucceeds | ttgen/cli.py:49-58 | The layout list is built exactly when every layout entry loads. |
| Cli.LayoutContents | ttgen/cli.py:49-58 | `layout` has one object per layout entry, in document order. |
| Cli.LayoutFirstError | ttgen/cli.py:50-58 | The error is that of the first layout entry that does not load, including "Invalid layout class". |
| Cli.Load | ttgen/cli.py:28-58 | Components are loaded first and then the layout. The first error ends construction. When both succeed, the generator is built and holds the name, registry and list. |
| Cli.TabletopGenerator.Compile | ttgen/cli.py:65-67 | A new save has both `SaveName` and `GameMode` set to the scene's name; every other field is at its default. |
| Cli.TabletopGenerator.CalculateLayout | ttgen/cli.py:73-74 | Changes nothing. |

## Left out

- YAML reading, the click command group and the `print` of each component name (ttgen/cli.py:7-23, 34, 39) are I/O. The loaded document is an input.
- `schema().load` of dataclasses_json (ttgen/cli.py:46, 57) is a foreign library. It is an abstract loader per class name.
- `getattr` on a module is a finite namespace map. Module attributes that are not component classes behave like any other namespace entry.
- Filesystem probing in `gen_image_url` (ttgen/tabletop_generator/components.py:20-31) is an abstract function. Its `RuntimeError` when no file exists is not modelled.
- `uuid4` in `gen_guid` is an abstract stream of strings indexed by draw count.
- `TabletopSimulator.save` (ttgen/tabletop_simulator/__init__.py:339-347) is JSON and file I/O.
- `compile` after its two field assignments (ttgen/cli.py:68-71) is not modelled. It calls `ttsim.generate_components`, which `TabletopSimulator` does not define, and then `save`.
- Cli.TabletopGenerator.Compile: models only the construction of the save and the two name assignments, for the reason above.
- `OpenDeck.generate` (ttgen/tabletop_generator/layout.py:11-12) has an empty body and no model member.
- sympy `Point2D` and `Polygon` become plain point pairs and a vertex list. sympy's normalisation of degenerate polygons is not modelled.
- Annotations.Annotations.AddBox: requires w ≠ 0 and h ≠ 0 so that the four vertices are those of a real rectangle.
- IEEE float rounding is not modelled. All arithmetic is exact `real`.
- Integer-valued and float-valued numbers are distinct `Value` variants. Python's `1 == 1.0` equality between them is not modelled.
- Dataclass field order is not modelled; records map field names to fields.
- Dataclass.Coerce: a dictionary's keys are strings, as YAML's base loader produces. Instances carry the name of their class, and `is_dataclass` is read as "is an instance".
- Dataclass.Point3DConstructor: `ttgen/tabletop_simulator/__init__.py:5` imports `Point3D` from `ttgen/dataclass_.py`, but that module defines only `PosType` and `RgbType`, so as written the schema module fails to import before any component runs. The model assumes a record of three floats `x`, `y` and `z` that default to 0.0, like `PosType` at `ttgen/dataclass_.py:40-44`.
- Cli.Document: the component mapping is a sequence of name–entry pairs, which may repeat a name. PyYAML keeps one value per key, so the program never sees a shadowed entry. On a document with a repeated name, `Cli.Registry` and `Cli.Load` also load the shadowed entry and can fail where the program would not.

## Findings

| source | as written | input that shows it | evidently intended | confidence | as-written member | corrected member |
|---|---|---|---|---|---|---|
| ttgen/tabletop_generator/components.py:51-53 | `Board.generate` passes the transform under the key `TabletopTransform` | any `Board`: `TabletopTransform` is not a field of `TabletopCustomBoard`, so `fieldtypes[i]` raises `KeyError` | pass it as `Transform`, as every other component does | high (not executed) | Components.Board.Generate | Components.Board.GenerateIntended |
