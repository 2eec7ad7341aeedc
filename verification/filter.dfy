/**
 * The layerFilter: the event sink the drawing reader calls back. It keeps the writer
 * registry (a map from part layer to its writer), creates writers lazily on layer
 * declarations, forwards entities with rewritten attributes, and finalizes every
 * writer when it is destroyed.
 */
module Filter {
  import opened Layers
  import opened KeyOrder
  import opened Entities
  import opened Records
  import opened Writers
  import opened Routing

  class LayerFilter {
    /** _writers */
    var writers: map<string, Writer>
    /** Whether the filter holds the DXF codec (_dxf != NULL): false when the output directory could not be made. */
    var dxfBound: bool
    /** What each registered writer has received, keyed like the registry. */
    ghost var outputs: Logs
    /** The layer names the writer factory has been asked for, in order. */
    ghost var requests: seq<string>
    /** Whether the destructor has run. */
    ghost var finalized: bool

    /**
     * The registry: each layer has a writer on its own part path (so no writer serves
     * two layers); a filter without the codec registers nothing. That every key is a
     * part layer follows from `outputs` (see Routing.RunLogsOpen).
     */
    ghost predicate RegistryOk()
      reads this`writers, this`dxfBound
    {
      && (forall k :: k in writers ==> writers[k].path == PartName(k))
      && (!dxfBound ==> writers == map[])
    }

    /**
     * The writers against a record of their output: each registered layer's writer has
     * received exactly its entry of `logs`, and all are open, or all closed. (The shape
     * of those logs is proved on the routing model: Routing.RunLogsOpen, Routing.RunOutputs.)
     */
    ghost predicate WritersHold(logs: Logs, closed: bool)
      reads this`writers, writers.Values
    {
      && logs.Keys == writers.Keys
      && (forall k :: k in writers ==> writers[k].log == logs[k])
      && (forall k :: k in writers ==> writers[k].state == if closed then Closed else EntitiesOpen)
    }

    /** The filter's invariant: `outputs` is what the writers have received, and they are closed once finalized. */
    ghost predicate Valid()
      reads this, writers.Values
    {
      RegistryOk() && WritersHold(outputs, finalized)
    }

    /** What every registered writer has received so far, read off the writers. */
    function Logs(): (logs: Logs)
      requires Valid()
      reads this, writers.Values
      ensures logs == outputs
    {
      map k | k in writers :: writers[k].log
    }

    function HasFailed(): bool
      reads this`dxfBound
    {
      !dxfBound
    }

    /** The constructor: `dirReady` is the outcome of creating the output directory. */
    constructor (dirReady: bool)
      ensures Valid() && !finalized
      ensures writers == map[] && outputs == map[] && requests == []
      ensures HasFailed() <==> !dirReady
    {
      writers := map[];
      dxfBound := dirReady;
      outputs := map[];
      requests := [];
      finalized := false;
    }

    /** find_part_writer: a lookup that never creates. */
    function FindPartWriter(layer: string): (w: Writer?)
      reads this`writers
      ensures w != null <==> layer in writers
      ensures w != null ==> w == writers[layer]
    {
      if layer in writers then writers[layer] else null
    }

    /**
     * addCommon: fails when no writer is registered for the current layer; otherwise
     * yields that writer and the current attributes moved onto the default layer.
     */
    method AddCommon(current: Attributes) returns (found: bool, w: Writer?, attrs: Attributes)
      ensures found <==> current.layer in writers
      ensures found ==> w == writers[current.layer] && attrs == ToDefaultLayer(current)
      ensures !found ==> w == null && attrs == current
    {
      attrs := current;
      w := FindPartWriter(attrs.layer);
      if w == null {
        return false, w, attrs;
      }
      attrs := ToDefaultLayer(attrs);
      found := true;
    }

    /** addPoint: the point goes, on the default layer, to the writer of the current layer, or nowhere. */
    method AddPoint(d: PointData, current: Attributes)
      requires Valid() && !finalized
      modifies this`outputs, writers.Values
      ensures Valid()
      ensures outputs == DrawEntity(old(outputs), Point(d), current)
    {
      var found, w, a := AddCommon(current);
      if found {
        WritersDistinct(current.layer);
        w.WriteEntity(Point(d), a);
        Appended(outputs, current.layer, Drawing(Point(d), a));
        outputs := Dispatch(outputs, current.layer, Drawing(Point(d), a));
      }
    }

    /** addLine: the line goes, on the default layer, to the writer of the current layer, or nowhere. */
    method AddLine(d: LineData, current: Attributes)
      requires Valid() && !finalized
      modifies this`outputs, writers.Values
      ensures Valid()
      ensures outputs == DrawEntity(old(outputs), Line(d), current)
    {
      var found, w, a := AddCommon(current);
      if found {
        WritersDistinct(current.layer);
        w.WriteEntity(Line(d), a);
        Appended(outputs, current.layer, Drawing(Line(d), a));
        outputs := Dispatch(outputs, current.layer, Drawing(Line(d), a));
      }
    }

    /** addArc: the arc goes, on the default layer, to the writer of the current layer, or nowhere. */
    method AddArc(d: ArcData, current: Attributes)
      requires Valid() && !finalized
      modifies this`outputs, writers.Values
      ensures Valid()
      ensures outputs == DrawEntity(old(outputs), Arc(d), current)
    {
      var found, w, a := AddCommon(current);
      if found {
        WritersDistinct(current.layer);
        w.WriteEntity(Arc(d), a);
        Appended(outputs, current.layer, Drawing(Arc(d), a));
        outputs := Dispatch(outputs, current.layer, Drawing(Arc(d), a));
      }
    }

    /** addCircle: the circle goes, on the default layer, to the writer of the current layer, or nowhere. */
    method AddCircle(d: CircleData, current: Attributes)
      requires Valid() && !finalized
      modifies this`outputs, writers.Values
      ensures Valid()
      ensures outputs == DrawEntity(old(outputs), Circle(d), current)
    {
      var found, w, a := AddCommon(current);
      if found {
        WritersDistinct(current.layer);
        w.WriteEntity(Circle(d), a);
        Appended(outputs, current.layer, Drawing(Circle(d), a));
        outputs := Dispatch(outputs, current.layer, Drawing(Circle(d), a));
      }
    }

    /**
     * addLayer: on the first declaration of a part layer whose file opens, a writer is
     * created on that layer's part path, its entities section is begun, and it is
     * registered; then the layer record is written through addCommon. Anything else
     * changes no writer, and only a part layer without a writer reaches the factory.
     */
    method AddLayer(d: LayerData, current: Attributes, opens: bool)
      requires Valid() && !finalized
      requires IsPartLayer(d.name) && d.name !in writers ==> !HasFailed()
      modifies this`writers, this`outputs, this`requests, writers.Values
      ensures Valid()
      ensures outputs == DeclareLayer(old(outputs), d, current, opens)
      ensures if Creates(old(outputs), d, opens)
              then d.name in writers && fresh(writers[d.name]) && writers == old(writers)[d.name := writers[d.name]]
              else writers == old(writers)
      ensures requests == old(requests) + if IsPartLayer(d.name) && d.name !in old(writers) then [d.name] else []
    {
      var isPart := ClassifyLayer(d.name);
      if !isPart {
        return;
      }
      if d.name !in writers {
        ghost var before := outputs;
        var created := CreateWriter(d.name, opens);
        if created {
          WriteLayerRecord(d, current);
          DeclareCreates(before, d, current, opens);
        }
      }
    }

    /**
     * The branch of addLayer for a part layer without a writer: ask the factory for a
     * writer on the layer's part path and, when it opens, begin its entities section
     * and register it.
     */
    method CreateWriter(name: string, opens: bool) returns (created: bool)
      requires Valid() && !finalized && !HasFailed()
      requires IsPartLayer(name) && name !in writers
      modifies this`writers, this`outputs, this`requests
      ensures Valid()
      ensures created == opens
      ensures outputs == if opens then old(outputs)[name := [BeginEntities]] else old(outputs)
      ensures opens ==> name in writers && fresh(writers[name]) && writers == old(writers)[name := writers[name]]
      ensures !opens ==> writers == old(writers)
      ensures requests == old(requests) + [name]
    {
      var partName := PartName(name);
      var writer := Out(partName, opens);
      requests := requests + [name];
      if writer == null {
        return false;
      }
      writer.SectionEntities();
      Insert(name, writer);
      created := true;
    }

    /** _writers.insert: registers a writer whose entities section was just begun. */
    method Insert(name: string, writer: Writer)
      requires Valid() && !finalized && dxfBound
      requires name !in writers
      requires writer.path == PartName(name) && writer.state == EntitiesOpen && writer.log == [BeginEntities]
      modifies this`writers, this`outputs
      ensures Valid()
      ensures writers == old(writers)[name := writer]
      ensures outputs == old(outputs)[name := [BeginEntities]]
    {
      writers := writers[name := writer];
      outputs := outputs[name := [BeginEntities]];
    }

    /** The layer record of addLayer, written through addCommon like an entity. */
    method WriteLayerRecord(d: LayerData, current: Attributes)
      requires Valid() && !finalized
      modifies this`outputs, writers.Values
      ensures Valid()
      ensures outputs == Dispatch(old(outputs), current.layer, LayerEntry(d, ToDefaultLayer(current)))
    {
      var found, w, a := AddCommon(current);
      if found {
        WritersDistinct(current.layer);
        w.WriteLayer(d, a);
        Appended(outputs, current.layer, LayerEntry(d, a));
        outputs := Dispatch(outputs, current.layer, LayerEntry(d, a));
      }
    }

    /**
     * The destructor: visits the registry in ascending key order and, for each writer,
     * ends its entities section, writes the end of file and closes it. The ghost
     * `order` is the order of the visits.
     */
    method Finalize() returns (ghost order: seq<string>)
      requires Valid() && !finalized
      modifies this`outputs, this`finalized, writers.Values
      ensures Valid() && finalized
      ensures outputs == Finish(old(outputs))
      ensures Ascending(order)
      ensures forall k :: k in order <==> k in writers
    {
      ghost var before := outputs;
      outputs := Finish(before);
      finalized := true;
      order := CloseAll(before);
    }

    /** The loop of the destructor, over the registry in ascending key order. */
    method CloseAll(ghost logs: Logs) returns (ghost order: seq<string>)
      requires RegistryOk()
      requires forall k :: k in writers ==> k in logs && writers[k].state == EntitiesOpen && writers[k].log == logs[k]
      modifies writers.Values
      ensures forall k :: k in writers ==> writers[k].state == Closed && writers[k].log == logs[k] + Trailer
      ensures Ascending(order)
      ensures forall k :: k in order <==> k in writers
    {
      var remaining := writers.Keys;
      order := [];
      while remaining != {}
        invariant remaining <= writers.Keys
        invariant forall k :: k in remaining ==> writers[k].state == EntitiesOpen && writers[k].log == logs[k]
        invariant forall k :: k in writers && k !in remaining ==> writers[k].state == Closed && writers[k].log == logs[k] + Trailer
        invariant Ascending(order)
        invariant forall k :: k in order <==> k in writers && k !in remaining
        invariant forall i, k :: 0 <= i < |order| && k in remaining ==> Less(order[i], k)
        decreases remaining
      {
        LeastExists(remaining);
        var k :| IsLeast(k, remaining);
        WritersDistinct(k);
        FinishWriter(writers[k]);
        order := order + [k];
        remaining := remaining - {k};
      }
    }

    /**
     * The bookkeeping after the record `rec` was appended to the writer of layer k0,
     * and to no other writer: the writers now hold `before` with `rec` dispatched.
     */
    lemma Appended(before: Logs, k0: string, rec: Record)
      requires before.Keys == writers.Keys && k0 in writers
      requires forall k :: k in writers ==> writers[k].state == EntitiesOpen
      requires writers[k0].log == before[k0] + [rec]
      requires forall k :: k in writers && k != k0 ==> writers[k].log == before[k]
      ensures WritersHold(Dispatch(before, k0, rec), false)
    {
    }

    /** Distinct layers have distinct writers, since their part paths differ. */
    lemma WritersDistinct(k0: string)
      requires RegistryOk() && k0 in writers
      ensures forall k :: k in writers && k != k0 ==> writers[k] != writers[k0]
    {
      forall k | k in writers && k != k0
        ensures writers[k] != writers[k0]
      {
        PartNameInjective(k, k0);
      }
    }
  }

  /** The three calls the destructor makes on each writer: end the section, write the end of file, close. */
  method FinishWriter(w: Writer)
    requires w.state == EntitiesOpen
    modifies w
    ensures w.state == Closed && w.log == old(w.log) + Trailer
  {
    w.SectionEnd();
    w.DxfEof();
    w.Close();
  }
}
