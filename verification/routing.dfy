/**
 * The routing engine on values: the registry is a map from part layer to what that
 * layer's writer has received, and each reader callback is a step on that map. A
 * whole run is the steps of the callbacks in document order, followed by the
 * finalizer. The filter class is proved to follow these steps exactly; the lemmas
 * below state what a run guarantees.
 */
module Routing {
  import opened Layers
  import opened Entities
  import opened Records

  /** What every registered writer has received, keyed by its part layer. */
  type Logs = map<string, seq<Record>>

  /**
   * One callback of the drawing reader, with the attributes current at that point;
   * for a layer declaration, `opens` says whether the writer factory succeeds.
   */
  datatype Event =
    | LayerDecl(data: LayerData, current: Attributes, opens: bool)
    | Draw(entity: Entity, current: Attributes)

  /**
   * addCommon followed by a write: the record goes to exactly the writer keyed by the
   * given layer (the current attributes' layer); with no such writer nothing is
   * written anywhere.
   */
  function Dispatch(logs: Logs, layer: string, rec: Record): (r: Logs)
    ensures r.Keys == logs.Keys
    ensures forall k :: k in logs ==> r[k] == if k == layer then logs[k] + [rec] else logs[k]
  {
    if layer in logs then logs[layer := logs[layer] + [rec]] else logs
  }

  /** A layer declaration makes the factory produce a writer: a part layer not yet registered, and the file opens. */
  predicate Creates(logs: Logs, d: LayerData, opens: bool)
  {
    IsPartLayer(d.name) && d.name !in logs && opens
  }

  /**
   * addLayer: a new writer is registered, with its entities section open, only for a
   * part layer that has none yet and whose file opens; then the layer record is
   * dispatched on the current attributes. Otherwise nothing changes.
   */
  function DeclareLayer(logs: Logs, d: LayerData, current: Attributes, opens: bool): (r: Logs)
    ensures r.Keys == if Creates(logs, d, opens) then logs.Keys + {d.name} else logs.Keys
    ensures !Creates(logs, d, opens) ==> r == logs
    ensures Creates(logs, d, opens) ==> |r[d.name]| >= 1 && r[d.name][0] == BeginEntities
    ensures forall k :: k in logs ==> logs[k] <= r[k]
  {
    if Creates(logs, d, opens) then
      Dispatch(logs[d.name := [BeginEntities]], current.layer, LayerEntry(d, ToDefaultLayer(current)))
    else
      logs
  }

  /** The creating branch of DeclareLayer, for callers that build its result step by step. */
  lemma DeclareCreates(logs: Logs, d: LayerData, current: Attributes, opens: bool)
    requires Creates(logs, d, opens)
    ensures DeclareLayer(logs, d, current, opens)
         == Dispatch(logs[d.name := [BeginEntities]], current.layer, LayerEntry(d, ToDefaultLayer(current)))
  {
  }

  /** addPoint, addLine, addArc, addCircle: the entity, on the default layer, to the writer of its layer. */
  function DrawEntity(logs: Logs, e: Entity, current: Attributes): (r: Logs)
    ensures r.Keys == logs.Keys
    ensures current.layer in logs ==> r[current.layer] == logs[current.layer] + [Drawing(e, ToDefaultLayer(current))]
    ensures forall k :: k in logs && k != current.layer ==> r[k] == logs[k]
  {
    Dispatch(logs, current.layer, Drawing(e, ToDefaultLayer(current)))
  }

  function Step(logs: Logs, ev: Event): (r: Logs)
    ensures logs.Keys <= r.Keys
    ensures forall k :: k in logs ==> logs[k] <= r[k]
  {
    match ev
    case LayerDecl(d, current, opens) => DeclareLayer(logs, d, current, opens)
    case Draw(e, current) => DrawEntity(logs, e, current)
  }

  /** The registry after the reader has delivered `evs`, starting from an empty registry. */
  function Run(evs: seq<Event>): Logs
  {
    if |evs| == 0 then map[] else Step(Run(evs[..|evs| - 1]), evs[|evs| - 1])
  }

  /** The finalizer: every registered writer, and no other, receives the trailer. */
  function Finish(logs: Logs): (r: Logs)
    ensures r.Keys == logs.Keys
    ensures forall k :: k in logs ==> r[k] == logs[k] + Trailer
  {
    map k | k in logs :: logs[k] + Trailer
  }

  /** The event is a declaration of layer k whose file opens. */
  predicate OpensWriter(ev: Event, k: string)
  {
    ev.LayerDecl? && ev.data.name == k && ev.opens
  }

  lemma RunPrefix(evs: seq<Event>, n: nat)
    requires n < |evs|
    ensures Run(evs[..n + 1]) == Step(Run(evs[..n]), evs[n])
  {
    assert evs[..n + 1][..n] == evs[..n];
  }

  /** One more callback is one more step. */
  lemma RunSnoc(evs: seq<Event>, ev: Event)
    ensures Run(evs + [ev]) == Step(Run(evs), ev)
  {
    assert (evs + [ev])[..|evs|] == evs;
  }

  /**
   * The registry holds a writer for layer k exactly when k is a part layer and some
   * declaration of k found its file opening. A failed creation leaves the layer
   * untracked, and an entity layer that was never declared is never tracked.
   */
  lemma {:induction false} RunKeys(evs: seq<Event>, k: string)
    ensures k in Run(evs) <==> IsPartLayer(k) && exists i :: 0 <= i < |evs| && OpensWriter(evs[i], k)
  {
    if |evs| > 0 {
      var pre := evs[..|evs| - 1];
      var ev := evs[|evs| - 1];
      RunKeys(pre, k);
      assert forall i :: 0 <= i < |pre| ==> pre[i] == evs[i];
      if IsPartLayer(k) && (exists i :: 0 <= i < |evs| && OpensWriter(evs[i], k)) {
        var i :| 0 <= i < |evs| && OpensWriter(evs[i], k);
        if i < |pre| {
          assert OpensWriter(pre[i], k);
        }
      }
    }
  }

  /** Dispatching a body record keeps every output well formed. */
  lemma DispatchKeepsOpen(logs: Logs, layer: string, rec: Record)
    requires forall k :: k in logs ==> OpenLog(logs[k])
    requires IsBody(rec)
    ensures forall k :: k in Dispatch(logs, layer, rec) ==> OpenLog(Dispatch(logs, layer, rec)[k])
  {
    forall k | k in logs && k == layer
      ensures OpenLog(logs[k] + [rec])
    {
      var extended := logs[k] + [rec];
      assert forall i :: 1 <= i < |logs[k]| ==> extended[i] == logs[k][i];
    }
  }

  /**
   * Every writer in the registry belongs to a part layer, was created with its
   * entities section opened first, and has since received only layer and entity
   * records moved onto the default layer.
   */
  lemma {:induction false} RunLogsOpen(evs: seq<Event>)
    ensures forall k :: k in Run(evs) ==> IsPartLayer(k) && OpenLog(Run(evs)[k])
  {
    if |evs| > 0 {
      var pre := evs[..|evs| - 1];
      var logs := Run(pre);
      RunLogsOpen(pre);
      match evs[|evs| - 1]
      case LayerDecl(d, current, opens) =>
        if Creates(logs, d, opens) {
          var started := logs[d.name := [BeginEntities]];
          DispatchKeepsOpen(started, current.layer, LayerEntry(d, ToDefaultLayer(current)));
        }
      case Draw(e, current) =>
        DispatchKeepsOpen(logs, current.layer, Drawing(e, ToDefaultLayer(current)));
    }
  }

  /**
   * The registry only grows during a run and a writer's output is only ever
   * appended to: what any earlier point of the run wrote stays, in its order.
   */
  lemma {:induction false} RunAppendOnly(evs: seq<Event>, n: nat)
    requires n <= |evs|
    ensures Run(evs[..n]).Keys <= Run(evs).Keys
    ensures forall k :: k in Run(evs[..n]) ==> Run(evs[..n])[k] <= Run(evs)[k]
  {
    if n < |evs| {
      var pre := evs[..|evs| - 1];
      RunAppendOnly(pre, n);
      assert pre[..n] == evs[..n];
    } else {
      assert evs[..n] == evs;
    }
  }

  /**
   * An entity on a layer without a writer (not a part layer, or never declared with
   * its file opening) appears in no output.
   */
  lemma DropUntracked(evs: seq<Event>, e: Entity, current: Attributes)
    requires !IsPartLayer(current.layer) || forall i :: 0 <= i < |evs| ==> !OpensWriter(evs[i], current.layer)
    ensures Run(evs + [Draw(e, current)]) == Run(evs)
  {
    RunKeys(evs, current.layer);
    assert (evs + [Draw(e, current)])[..|evs|] == evs;
  }

  /**
   * An entity on a tracked part layer appears once, on the default layer with its
   * other attributes unchanged, at the end of that layer's output and in no other.
   */
  lemma DeliverTracked(evs: seq<Event>, e: Entity, current: Attributes)
    requires IsPartLayer(current.layer)
    requires exists i :: 0 <= i < |evs| && OpensWriter(evs[i], current.layer)
    ensures current.layer in Run(evs)
    ensures Run(evs + [Draw(e, current)]).Keys == Run(evs).Keys
    ensures Run(evs + [Draw(e, current)])[current.layer]
         == Run(evs)[current.layer] + [Drawing(e, current.(layer := DefaultLayer))]
    ensures forall k :: k in Run(evs) && k != current.layer ==> Run(evs + [Draw(e, current)])[k] == Run(evs)[k]
  {
    RunKeys(evs, current.layer);
    assert (evs + [Draw(e, current)])[..|evs|] == evs;
  }

  /** The finalizer leaves every writer closed: its open output, then the trailer. */
  lemma FinishCloses(logs: Logs)
    requires forall k :: k in logs ==> OpenLog(logs[k])
    ensures forall k :: k in Finish(logs) ==> ClosedLog(Finish(logs)[k])
  {
    forall k | k in logs
      ensures ClosedLog(logs[k] + Trailer)
    {
      CloseOpenLog(logs[k]);
    }
  }

  /**
   * The outputs of a whole run: each part layer declared with its file opening gets
   * one closed file, started by a single section marker and ended by the trailer.
   */
  lemma RunOutputs(evs: seq<Event>)
    ensures forall k :: k in Finish(Run(evs)) <==> IsPartLayer(k) && exists i :: 0 <= i < |evs| && OpensWriter(evs[i], k)
    ensures forall k :: k in Finish(Run(evs)) ==> ClosedLog(Finish(Run(evs))[k])
  {
    forall k
      ensures k in Run(evs) <==> IsPartLayer(k) && exists i :: 0 <= i < |evs| && OpensWriter(evs[i], k)
    {
      RunKeys(evs, k);
    }
    RunLogsOpen(evs);
    FinishCloses(Run(evs));
  }
}
