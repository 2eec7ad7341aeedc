/**
 * The part writers (DL_WriterA) as the filter sees them: each is an output file
 * whose content is the sequence of records written to it, and which moves through
 * the section structure of a DXF file one step at a time.
 */
module Writers {
  import opened Entities
  import opened Records

  datatype WriterState = Created | EntitiesOpen | SectionEnded | EofWritten | Closed

  class Writer {
    const path: string
    var state: WriterState
    var log: seq<Record>

    constructor Open(path: string)
      ensures this.path == path && state == Created && log == []
    {
      this.path := path;
      state := Created;
      log := [];
    }

    method SectionEntities()
      requires state == Created
      modifies this
      ensures state == EntitiesOpen && log == old(log) + [BeginEntities]
    {
      state := EntitiesOpen;
      log := log + [BeginEntities];
    }

    method WriteLayer(data: LayerData, attrs: Attributes)
      requires state == EntitiesOpen
      modifies this
      ensures state == EntitiesOpen && log == old(log) + [LayerEntry(data, attrs)]
    {
      log := log + [LayerEntry(data, attrs)];
    }

    method WriteEntity(entity: Entity, attrs: Attributes)
      requires state == EntitiesOpen
      modifies this
      ensures state == EntitiesOpen && log == old(log) + [Drawing(entity, attrs)]
    {
      log := log + [Drawing(entity, attrs)];
    }

    method SectionEnd()
      requires state == EntitiesOpen
      modifies this
      ensures state == SectionEnded && log == old(log) + [EndSection]
    {
      state := SectionEnded;
      log := log + [EndSection];
    }

    method DxfEof()
      requires state == SectionEnded
      modifies this
      ensures state == EofWritten && log == old(log) + [EndOfFile]
    {
      state := EofWritten;
      log := log + [EndOfFile];
    }

    method Close()
      requires state == EofWritten
      modifies this
      ensures state == Closed && log == old(log) + [CloseFile]
    {
      state := Closed;
      log := log + [CloseFile];
    }
  }

  /**
   * The writer factory DL_Dxf::out: a fresh writer on the given path, or null when
   * the file cannot be created; `opens` stands for that outcome.
   */
  method Out(path: string, opens: bool) returns (w: Writer?)
    ensures opens <==> w != null
    ensures w != null ==> fresh(w) && w.path == path && w.state == Created && w.log == []
  {
    if opens {
      w := new Writer.Open(path);
    } else {
      w := null;
    }
  }
}
