/**
 * The program's entry point: make the filter, let the reader deliver the drawing's
 * callbacks to it, and let the filter's destructor finalize every part file when it
 * goes out of scope.
 */
module Program {
  import opened Entities
  import opened Routing
  import opened Filter

  /**
   * main, once an input path was given. `dirReady` says whether the output directory
   * exists or could be made, `events` is what the reader delivered and `readerOk`
   * whether it reported success. The result is the exit status and what each part
   * file received, keyed by its layer.
   */
  method SplitIntoParts(dirReady: bool, events: seq<Event>, readerOk: bool)
    returns (exitCode: int, outputs: Logs)
    ensures exitCode == if dirReady && readerOk then 0 else -1
    ensures outputs == if dirReady then Finish(Run(events)) else map[]
  {
    var filter := new LayerFilter(dirReady);
    if filter.HasFailed() {
      ghost var order := filter.Finalize();
      outputs := filter.Logs();
      return -1, outputs;
    }
    var i := 0;
    while i < |events|
      invariant 0 <= i <= |events|
      invariant filter.Valid() && !filter.finalized && !filter.HasFailed()
      invariant filter.outputs == Run(events[..i])
      invariant forall k :: k in filter.writers ==> fresh(filter.writers[k])
    {
      RunPrefix(events, i);
      Deliver(filter, events[i]);
      i := i + 1;
    }
    assert events[..i] == events;
    ghost var order := filter.Finalize();
    outputs := filter.Logs();
    exitCode := if readerOk then 0 else -1;
  }

  /**
   * One callback of the reader: a layer declaration goes to addLayer, each entity to
   * the add method of its kind.
   */
  method Deliver(filter: LayerFilter, ev: Event)
    requires filter.Valid() && !filter.finalized && !filter.HasFailed()
    modifies filter`writers, filter`outputs, filter`requests, filter.writers.Values
    ensures filter.Valid() && !filter.finalized && !filter.HasFailed()
    ensures filter.outputs == Step(old(filter.outputs), ev)
    ensures forall k :: k in filter.writers ==> fresh(filter.writers[k]) || (k in old(filter.writers) && filter.writers[k] == old(filter.writers[k]))
  {
    match ev
    case LayerDecl(d, current, opens) =>
      filter.AddLayer(d, current, opens);
    case Draw(e, current) =>
      match e
      case Point(p) => filter.AddPoint(p, current);
      case Line(l) => filter.AddLine(l, current);
      case Arc(a) => filter.AddArc(a, current);
      case Circle(c) => filter.AddCircle(c, current);
  }
}
