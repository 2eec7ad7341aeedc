# dxf2parts layer filter, modelled in Dafny

dxf2parts splits one DXF drawing into one drawing per "part". A part is a layer
whose name consists of decimal digits only. The drawing reader (dxflib) calls back
into the `layerFilter` class of `src/main.cc` for every layer declaration and every
point, line, arc and circle.

The filter's work:
- On the first declaration of a part layer it asks the codec for a writer on
  `parts/<layer>.dxf`, begins that writer's ENTITIES section, and registers it in
  the map `_writers`.
- Each entity whose current layer has a writer goes to that writer, with its
  attributes copied onto layer `"0"`. Every other entity is dropped.
- When the filter is destroyed, every registered writer gets the end of its
  section, the end of file, and a close.

The model has two layers:

- **`Routing`** is a value model of the routing. `Logs` maps each registered layer
  to the records its writer has received. Each reader callback is an `Event`, and
  `Step` applies one event. `Run` folds `Step` over a whole drawing, and `Finish`
  is the destructor. The lemmas about whole runs are proved here:
  - which layers get a file;
  - what each file holds and in which order;
  - that outputs are only ever appended to;
  - that untracked entities are dropped.
- **`Filter.LayerFilter`** is the class itself. Its real fields are the writer
  map and whether the codec is bound (`_dxf != NULL`). Writers (`Writers.Writer`)
  are heap objects: each has its path, a protocol state and the records written
  to it. Each method of the class is proved to change the writers exactly as the
  matching `Routing` function says. The class invariant ties the ghost `outputs`
  to what the writers hold.

`Program.SplitIntoParts` is `main` after its argument check. It builds the filter,
delivers the reader's callbacks, and lets the destructor run. It is proved to
produce exactly `Finish(Run(events))`, and nothing when the output directory
could not be made.

Environment inputs become parameters:
- `dirReady` is the outcome of `mkdir_or_exist`.
- `opens` on each layer declaration is whether `DL_Dxf::out` returns a writer.
- `current` on each callback is what `getAttributes()` returns at that point.
- `events` and `readerOk` are what `DL_Dxf::in` delivers and reports.

Two behaviours of the code are easy to miss; the model follows the code:
- A part layer whose file could not be created is not remembered as failed. The
  code only consults `_writers`, so a later declaration of the same layer asks
  the factory again (`Filter.LayerFilter.AddLayer`, `requests`).
- The layer record written by `addLayer` goes through `addCommon`. So it uses the
  attributes current at the declaration and goes to the writer keyed by the
  current layer, which need not be the writer just created (`Routing.DeclareLayer`).

## Model

| member | source | states |
|---|---|---|
| Layers.IsPartLayer | src/main.cc:35-41 | the part-layer test read recursively: the empty name, or a digit followed by a part layer; tied to the loop by ClassifyLayer and to "every character is a digit" by PartLayerIffDigits |
| Layers.ClassifyLayer | src/main.cc:35-41 | the character scan returns true exactly when the name is a part layer (its loop stops at the first character outside '0'..'9') |
| Layers.PartLayerIffDigits | src/main.cc:35-41 | a name is a part layer if and only if every one of its characters is a decimal digit |
| Layers.PartLayerExamples | src/main.cc:35-41 | the empty name, "0", "12" and "007" are part layers; "A7", "-1", "1 " and "1.5" are not |
| Layers.PartName | src/main.cc:28-33 | the output path of a layer: "parts/", the name, ".dxf"; its shape, inverse and injectivity are the rows below |
| Layers.PartNameShape | src/main.cc:28-33 | a part path is exactly "parts/", then the layer name, then ".dxf" |
| Layers.LayerOfPath | src/main.cc:28-33 | a layer name read back from a path rebuilds that path |
| Layers.PartNameRoundTrip | src/main.cc:28-33 | reading back the path built for any layer name gives that name |
| Layers.PartNameInjective | src/main.cc:28-33 | two layer names have the same part path if and only if they are equal |
| Entities.ToDefaultLayer | src/main.cc:56 | the rewritten attributes are on layer "0", and restoring the original layer gives back the original attributes |
| Entities.ToDefaultLayerForgetsOnlyLayer | src/main.cc:53-56 | two attribute records rewrite to the same copy if and only if they differ at most in the layer |
| Entities.ToDefaultLayerIdempotent | src/main.cc:56 | rewriting twice equals rewriting once; attributes already on layer "0" are unchanged |
| Filter.LayerFilter.constructor | src/main.cc:61-66 | a new filter has no writers and no output; it reports failure (`HasFailed`, src/main.cc:81-84) exactly when the directory step failed |
| Filter.LayerFilter.HasFailed | src/main.cc:81-84 | the filter has failed exactly when it does not hold the codec; by the constructor that is exactly when the directory step failed, and then the registry stays empty (RegistryOk) |
| Filter.LayerFilter.FindPartWriter | src/main.cc:43-48 | the lookup yields a writer exactly when the layer is registered, and then the registered one; it creates nothing |
| Filter.LayerFilter.AddCommon | src/main.cc:50-58 | it succeeds exactly when the current layer has a writer; on success it yields that writer and the current attributes moved onto layer "0", otherwise no writer |
| Filter.LayerFilter.AddLayer | src/main.cc:86-114 | the outputs follow `Routing.DeclareLayer`; the map gains one fresh writer, for this layer, exactly when a part layer without a writer is declared and its file opens, and is unchanged otherwise; the factory is asked only for a part layer without a writer |
| Filter.LayerFilter.CreateWriter | src/main.cc:96-107 | the factory is asked for this layer; when it returns a writer, that writer has begun its entities section and is registered under the layer; when it returns none, the map and outputs are unchanged |
| Filter.LayerFilter.Insert | src/main.cc:107 | the only insertion adds a writer on the layer's own part path whose entities section was just begun, and keeps the invariant |
| Filter.LayerFilter.WriteLayerRecord | src/main.cc:109-111 | the layer record, moved onto layer "0", is appended to the writer of the current layer only, or to none |
| Filter.LayerFilter.AddPoint | src/main.cc:116-121 | the map is unchanged; the point, moved onto layer "0", is appended to exactly the writer of the current layer, or nowhere if it has none (`Routing.DrawEntity`) |
| Filter.LayerFilter.AddLine | src/main.cc:123-128 | as AddPoint, for a line |
| Filter.LayerFilter.AddArc | src/main.cc:130-135 | as AddPoint, for an arc |
| Filter.LayerFilter.AddCircle | src/main.cc:137-142 | as AddPoint, for a circle |
| Filter.LayerFilter.Finalize | src/main.cc:68-79 | every registered writer, and no other, receives the trailer once and is closed; writers are visited in ascending key order, once each |
| Filter.LayerFilter.CloseAll | src/main.cc:71-78 | the loop over the map, which visits each registered layer once in std::string order and leaves its writer closed with the trailer appended |
| Filter.FinishWriter | src/main.cc:74-77 | a writer with an open section receives section end, end of file and close, in that order |
| Filter.LayerFilter.Logs | src/main.cc:18 | what the writers hold, read off the registry, equals the modelled outputs |
| Filter.LayerFilter.WritersDistinct | src/main.cc:15-18 | no writer is registered under two layers, since each sits on its own part path |
| Filter.LayerFilter.Appended | src/main.cc:116-142 | a record appended to one registered writer and to no other leaves the writers holding the dispatched outputs |
| Writers.Out | src/main.cc:97-98 | the factory yields a fresh, empty writer on the requested path exactly when the file opens, and null otherwise |
| Writers.Writer.SectionEntities | src/main.cc:106 | a created writer moves to an open entities section and receives the section marker |
| Writers.Writer.SectionEnd | src/main.cc:75 | an open section is ended and the end marker appended |
| Writers.Writer.DxfEof | src/main.cc:76 | the end of file is written after the section end |
| Writers.Writer.Close | src/main.cc:77 | the writer is closed after the end of file |
| Writers.Writer.WriteEntity | src/main.cc:120 | an entity record is appended while the section is open |
| Writers.Writer.WriteLayer | src/main.cc:111 | a layer record is appended while the section is open |
| KeyOrder.LessIrreflexive | src/main.cc:15 | no key sorts before itself in the registry's order |
| KeyOrder.LessTransitive | src/main.cc:15 | the registry's key order is transitive |
| KeyOrder.LessTotal | src/main.cc:15 | any two distinct keys are ordered one way or the other |
| KeyOrder.LeastExists | src/main.cc:72 | every non-empty set of keys has a first key, so the destructor's iteration is well defined |
| Records.CloseOpenLog | src/main.cc:68-79 | appending the trailer to an open output gives a closed output |
| Records.ClosedLogMarkersOnce | src/main.cc:68-79 | in a closed output the section start is the first record, and section end, end of file and close are the last three, each occurring exactly once |
| Routing.Dispatch | src/main.cc:50-58 | no layer is added or removed; the record is appended to the given layer's output only |
| Routing.DeclareLayer | src/main.cc:86-114 | a layer is added exactly when a part layer without a writer is declared and its file opens, and its output starts with the section marker; otherwise nothing changes; existing outputs only grow |
| Routing.DrawEntity | src/main.cc:116-142 | the entity, on layer "0", is appended to the current layer's output if it has one; all other outputs and the key set are unchanged |
| Routing.Step | src/main.cc:86-142 | no callback removes a layer or shortens an output |
| Routing.Finish | src/main.cc:68-79 | every registered output, and no other, receives the trailer |
| Routing.RunKeys | src/main.cc:91-107 | after any run, a layer has a writer if and only if it is a part layer and some declaration of it found its file opening |
| Routing.RunLogsOpen | src/main.cc:91-111 | after any run, every registered layer is a part layer and its output is the section marker followed by layer and entity records on layer "0" |
| Routing.RunAppendOnly | src/main.cc:107 | during a run the map only grows and every output is only appended to |
| Routing.DropUntracked | src/main.cc:43-58 | an entity on a layer that is not a part layer, or whose file never opened, changes no output |
| Routing.DeliverTracked | src/main.cc:50-58 | an entity on a tracked part layer is appended once, on layer "0" with its other attributes kept, to that layer's output and no other |
| Routing.FinishCloses | src/main.cc:68-79 | finalizing open outputs leaves each one closed |
| Routing.RunOutputs | src/main.cc:68-114 | after a whole run and the destructor, the files are exactly those of the part layers whose files opened, and each is closed: section marker, body records, trailer |
| Program.SplitIntoParts | src/main.cc:197-217 | the exit status is 0 exactly when the directory step and the reader succeed; the outputs are the finalized run of the delivered callbacks, or nothing when the directory step failed |
| Program.Deliver | src/main.cc:86-142 | each callback reaches the add method of its kind and changes the outputs by exactly one step |
| Scenarios.DeclareOwn | src/main.cc:86-114 | a new part layer declared while it is itself the current layer gets a writer holding the section marker and its layer record on layer "0" |
| Scenarios.DrawHeld | src/main.cc:116-121 | in the mixed drawing an entity reaches the writer of "0" or "12" and no writer for any other layer |
| Scenarios.RunDrawHeld | src/main.cc:116-121 | as DrawHeld, after a run |
| Scenarios.RunDeclareOwn | src/main.cc:86-114 | when each declaration is read while the declared layer is the current layer, a declaration of a new part layer adds its writer holding its own layer record; a declaration of a non-part layer changes nothing |
| Scenarios.MixedDeclarations | src/main.cc:86-114 | declaring "0", "12" and "A7", each read while it is the current layer, registers writers for "0" and "12" only |
| Scenarios.MixedLayers | src/main.cc:68-142 | in a drawing with layers "0", "12" and "A7", each declaration read while it is the current layer, the files of "0" and "12" each hold their layer record and their point, on layer "0", between section marker and trailer; the line on "A7" reaches no file |
| Scenarios.DeclareOn | src/main.cc:106-111 | a part layer declared while another registered layer is current gets a writer holding only the section marker; its layer record goes to the current layer's writer |
| Scenarios.DeclaredOnDefaultLayer | src/main.cc:50-58 | when "0" and "12" are declared while "0" is the current layer and a point is drawn on "12", the file of "0" collects both layer records and the file of "12" holds only the point, each between section marker and trailer |
| Scenarios.UndeclaredLayer | src/main.cc:43-58 | a point on a layer that was never declared reaches no file, and no file exists |

## Left out

- Directory creation (`mkdir_or_exist`) is file-system I/O. Its outcome is the
  boolean `dirReady`.
- dxflib is not part of this model: parsing, file creation and the DXF encoders.
  - `DL_Dxf::in` is modelled as the sequence of callbacks it delivers plus its
    success flag.
  - `DL_Dxf::out` is modelled as an oracle `opens`.
  - Each write call appends an abstract record to the writer's output. No DXF
    text is produced.
  - The version argument `VER_2000` is not modelled.
  - A write or close that fails inside dxflib is not modelled.
- `getAttributes()` of the reader base class is an explicit `current` parameter
  on every callback.
- The geometry of points, lines, arcs and circles is carried as opaque reals.
  Nothing in the filter inspects it, and floating point is not modelled.
- Of `DL_Attributes` only the layer is inspected. Colour, width and line type
  stand for the fields passed through unchanged.
- The `printf` logging is left out, as output only.
- The argument-count check of `main` is left out, since the model does not
  simulate the command line. `SplitIntoParts` starts once an input path is given.
- The code compiled out with `#if 0` is not modelled: header writing,
  `addBlock`/`endBlock`, and the empty entity stubs.
- Filter.LayerFilter.Valid: the class invariant does not itself state that every
  key is a part layer or that the outputs have the open shape. Both facts are
  proved for every run on the routing model (`Routing.RunLogsOpen`,
  `Routing.RunOutputs`). `SplitIntoParts` ties the class to that model at every
  step.
- Writers are heap objects that are never freed, as in the source. Memory
  release is not modelled.
