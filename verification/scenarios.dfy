/**
 * Two whole runs worked out on the routing model: a drawing mixing part and non-part
 * layers, and a drawing whose only entity sits on a layer that was never declared.
 */
module Scenarios {
  import opened Layers
  import opened Entities
  import opened Records
  import opened Routing

  /** Attributes as the reader reports them on the given layer. */
  function On(layer: string): (a: Attributes)
    ensures a.layer == layer
  {
    Attributes(layer, 256, -1, "BYLAYER")
  }

  /** A declaration of `name`, read while `name` is the current layer, whose part file opens. */
  function Declare(name: string): Event
  {
    LayerDecl(LayerData(name, 0), On(name), true)
  }

  /** The layer record of a declaration read on its own layer, once moved onto the default layer. */
  function Entry(name: string): Record
  {
    LayerEntry(LayerData(name, 0), On(DefaultLayer))
  }

  /**
   * A new part layer declared while it is itself the current layer gets a writer
   * holding the section marker and its layer record.
   */
  lemma DeclareOwn(logs: Logs, name: string)
    requires IsPartLayer(name) && name !in logs
    ensures Step(logs, Declare(name)) == logs[name := [BeginEntities, Entry(name)]]
  {
    DeclareCreates(logs, LayerData(name, 0), On(name), true);
    assert ToDefaultLayer(On(name)) == On(DefaultLayer);
    assert [BeginEntities] + [Entry(name)] == [BeginEntities, Entry(name)];
  }

  /** The registry of the mixed drawing: writers for "0" and "12" only, holding `zero` and `twelve`. */
  predicate Holds(r: Logs, zero: seq<Record>, twelve: seq<Record>)
  {
    r.Keys == {"0", "12"} && r["0"] == zero && r["12"] == twelve
  }

  /** An entity drawn on `layer` reaches the writer of that layer if it is "0" or "12", and no writer otherwise. */
  lemma DrawHeld(r: Logs, zero: seq<Record>, twelve: seq<Record>, e: Entity, layer: string)
    requires Holds(r, zero, twelve)
    ensures var d := Drawing(e, On(DefaultLayer));
            Holds(Step(r, Draw(e, On(layer))),
                  if layer == "0" then zero + [d] else zero,
                  if layer == "12" then twelve + [d] else twelve)
  {
    assert ToDefaultLayer(On(layer)) == On(DefaultLayer);
  }

  /** One more entity drawn after a run that left the mixed drawing's registry. */
  lemma RunDrawHeld(evs: seq<Event>, zero: seq<Record>, twelve: seq<Record>, e: Entity, layer: string)
    requires Holds(Run(evs), zero, twelve)
    ensures var d := Drawing(e, On(DefaultLayer));
            Holds(Run(evs + [Draw(e, On(layer))]),
                  if layer == "0" then zero + [d] else zero,
                  if layer == "12" then twelve + [d] else twelve)
  {
    RunSnoc(evs, Draw(e, On(layer)));
    DrawHeld(Run(evs), zero, twelve, e, layer);
  }

  /** A sequence identity used by the scenarios, kept apart so that each use stays cheap to check. */
  lemma Append3(a: Record, b: Record, c: Record)
    ensures [a, b] + [c] == [a, b, c]
  {
  }

  /** The six-event drawing of MixedLayers, built one event at a time. */
  lemma Events6(a: Event, b: Event, c: Event, d: Event, e: Event, f: Event)
    ensures [a, b, c] + [d] + [e] + [f] == [a, b, c, d, e, f]
  {
  }

  /**
   * A declaration read while the declared layer is the current layer, after a run:
   * for a part layer without a writer, and for a non-part layer.
   */
  lemma RunDeclareOwn(evs: seq<Event>, name: string)
    ensures IsPartLayer(name) && name !in Run(evs) ==>
              Run(evs + [Declare(name)]) == Run(evs)[name := [BeginEntities, Entry(name)]]
    ensures !IsPartLayer(name) ==> Run(evs + [Declare(name)]) == Run(evs)
  {
    RunSnoc(evs, Declare(name));
    if IsPartLayer(name) && name !in Run(evs) {
      DeclareOwn(Run(evs), name);
    }
  }

  /** The three-declaration prefix of the mixed drawing, built one event at a time. */
  lemma Events3(a: Event, b: Event, c: Event)
    ensures [] + [a] == [a] && [a] + [b] == [a, b] && [a, b] + [c] == [a, b, c]
  {
  }

  /** The three declarations of the mixed drawing, each read on its own layer, register "0" and "12" only. */
  lemma MixedDeclarations()
    ensures Holds(Run([Declare("0"), Declare("12"), Declare("A7")]), [BeginEntities, Entry("0")], [BeginEntities, Entry("12")])
  {
    assert IsPartLayer("0") && IsPartLayer("12") && !IsPartLayer("A7") by {
      PartLayerExamples();
    }
    Events3(Declare("0"), Declare("12"), Declare("A7"));
    RunDeclareOwn([], "0");
    RunDeclareOwn([Declare("0")], "12");
    RunDeclareOwn([Declare("0"), Declare("12")], "A7");
  }

  /**
   * Layers "0", "12" and "A7" are declared, each while it is the current layer, then a
   * point on "12", a line on "A7" and a point on "0" are drawn. Only "0" and "12" get part files; each holds its layer
   * record and its point, both moved onto layer "0", between the section marker and
   * the trailer; the line on "A7" reaches no file.
   */
  lemma MixedLayers(p: PointData, l: LineData, q: PointData)
    ensures var out := Finish(Run([Declare("0"), Declare("12"), Declare("A7"),
                                   Draw(Point(p), On("12")), Draw(Line(l), On("A7")), Draw(Point(q), On("0"))]));
            && out.Keys == {"0", "12"}
            && out["12"] == [BeginEntities, LayerEntry(LayerData("12", 0), On("0")), Drawing(Point(p), On("0"))] + Trailer
            && out["0"] == [BeginEntities, LayerEntry(LayerData("0", 0), On("0")), Drawing(Point(q), On("0"))] + Trailer
  {
    var decls := [Declare("0"), Declare("12"), Declare("A7")];
    var e4, e5, e6 := Draw(Point(p), On("12")), Draw(Line(l), On("A7")), Draw(Point(q), On("0"));
    var dp, dq := Drawing(Point(p), On("0")), Drawing(Point(q), On("0"));
    var zero, twelve := [BeginEntities, Entry("0")], [BeginEntities, Entry("12")];
    MixedDeclarations();
    RunDrawHeld(decls, zero, twelve, Point(p), "12");
    RunDrawHeld(decls + [e4], zero, twelve + [dp], Line(l), "A7");
    RunDrawHeld(decls + [e4] + [e5], zero, twelve + [dp], Point(q), "0");
    Events6(Declare("0"), Declare("12"), Declare("A7"), e4, e5, e6);
    Append3(BeginEntities, Entry("0"), dq);
    Append3(BeginEntities, Entry("12"), dp);
  }

  /**
   * A declaration of `name` whose file opens, read while `layer` is the current
   * layer: the new writer holds only the section marker, and the layer record goes to
   * the writer of `layer`.
   */
  lemma DeclareOn(logs: Logs, name: string, layer: string)
    requires IsPartLayer(name) && name !in logs && layer in logs && layer != name
    ensures Step(logs, LayerDecl(LayerData(name, 0), On(layer), true))
         == logs[name := [BeginEntities]][layer := logs[layer] + [Entry(name)]]
  {
    DeclareCreates(logs, LayerData(name, 0), On(layer), true);
    assert ToDefaultLayer(On(layer)) == On(DefaultLayer);
  }

  /**
   * Layers "0" and "12" are declared while "0" is the current layer, then a point is
   * drawn on "12". Both get part files, but the layer record of "12" follows the
   * current layer into the file of "0"; the file of "12" holds only its point.
   */
  lemma DeclaredOnDefaultLayer(p: PointData)
    ensures var out := Finish(Run([Declare("0"), LayerDecl(LayerData("12", 0), On("0"), true), Draw(Point(p), On("12"))]));
            && out.Keys == {"0", "12"}
            && out["0"] == [BeginEntities, LayerEntry(LayerData("0", 0), On("0")), LayerEntry(LayerData("12", 0), On("0"))] + Trailer
            && out["12"] == [BeginEntities, Drawing(Point(p), On("0"))] + Trailer
  {
    var d0, d12, e := Declare("0"), LayerDecl(LayerData("12", 0), On("0"), true), Draw(Point(p), On("12"));
    var zero := [BeginEntities, Entry("0"), Entry("12")];
    assert IsPartLayer("0") && IsPartLayer("12") by {
      PartLayerExamples();
    }
    Events3(d0, d12, e);
    RunDeclareOwn([], "0");
    RunSnoc([d0], d12);
    DeclareOn(Run([d0]), "12", "0");
    Append3(BeginEntities, Entry("0"), Entry("12"));
    assert Holds(Run([d0, d12]), zero, [BeginEntities]);
    RunDrawHeld([d0, d12], zero, [BeginEntities], Point(p), "12");
  }

  /**
   * No layer is declared and a single point is drawn on layer "5": the point reaches
   * no file and no part file exists.
   */
  lemma UndeclaredLayer(p: PointData)
    ensures Finish(Run([Draw(Point(p), On("5"))])) == map[]
  {
    var evs := [Draw(Point(p), On("5"))];
    RunPrefix(evs, 0);
    assert evs[..1] == evs;
    assert evs[..0] == [];
  }
}
