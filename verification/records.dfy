/**
 * What a part writer receives, as an abstract record per call, and the shape of a
 * writer's output while its entities section is open and once it is closed.
 */
module Records {
  import opened Layers
  import opened Entities

  datatype Record =
    | BeginEntities                                    // sectionEntities()
    | LayerEntry(data: LayerData, attrs: Attributes)   // writeLayer
    | Drawing(entity: Entity, attrs: Attributes)       // writePoint, writeLine, writeArc, writeCircle
    | EndSection                                       // sectionEnd()
    | EndOfFile                                        // dxfEOF()
    | CloseFile                                        // close()

  /** The markers the finalizer gives every writer, in this order. */
  const Trailer: seq<Record> := [EndSection, EndOfFile, CloseFile]

  /** A layer or entity record whose attributes were moved onto the default layer. */
  predicate IsBody(r: Record)
  {
    (r.LayerEntry? || r.Drawing?) && r.attrs.layer == DefaultLayer
  }

  /** Output of a writer whose entities section is open: the section marker, then body records. */
  predicate OpenLog(log: seq<Record>)
  {
    |log| >= 1 && log[0] == BeginEntities && forall i :: 1 <= i < |log| ==> IsBody(log[i])
  }

  /** Output of a finalized writer: an open log followed by the trailer. */
  predicate ClosedLog(log: seq<Record>)
  {
    |log| >= 1 + |Trailer| && OpenLog(log[..|log| - |Trailer|]) && log[|log| - |Trailer|..] == Trailer
  }

  /** Appending the trailer closes an open log. */
  lemma CloseOpenLog(log: seq<Record>)
    requires OpenLog(log)
    ensures ClosedLog(log + Trailer)
  {
    var closed := log + Trailer;
    assert closed[..|closed| - |Trailer|] == log;
  }

  /**
   * In a closed log every marker occurs exactly once and in its place: the section
   * start first, then the section end, end of file and close as the last three records.
   */
  lemma ClosedLogMarkersOnce(log: seq<Record>)
    requires ClosedLog(log)
    ensures forall i :: 0 <= i < |log| ==> (log[i] == BeginEntities <==> i == 0)
    ensures forall i :: 0 <= i < |log| ==> (log[i] == EndSection <==> i == |log| - 3)
    ensures forall i :: 0 <= i < |log| ==> (log[i] == EndOfFile <==> i == |log| - 2)
    ensures forall i :: 0 <= i < |log| ==> (log[i] == CloseFile <==> i == |log| - 1)
  {
    var n := |log| - |Trailer|;
    var body := log[..n];
    forall i | 0 <= i < |log|
      ensures log[i] == BeginEntities <==> i == 0
      ensures log[i] == EndSection <==> i == |log| - 3
      ensures log[i] == EndOfFile <==> i == |log| - 2
      ensures log[i] == CloseFile <==> i == |log| - 1
    {
      if i < n {
        assert log[i] == body[i];
        if i > 0 {
          assert IsBody(body[i]);
        }
      } else {
        assert log[i] == log[n..][i - n];
      }
    }
  }
}
