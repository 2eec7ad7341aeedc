/**
 * Layer names: which layers of the drawing are "part" layers, and the path of the
 * output file a part layer is extracted to.
 */
module Layers {
  import opened Wrappers

  /** The layer every extracted entity is moved onto inside its own file. */
  const DefaultLayer: string := "0"

  /** Directory and extension of the per-part output files. */
  const PartDir: string := "parts/"
  const PartExt: string := ".dxf"

  predicate IsDigit(c: char) {
    '0' <= c <= '9'
  }

  /**
   * A part layer is one whose name consists of decimal digits only. The scan never
   * fails on an empty name, so the empty name is a part layer too.
   */
  predicate IsPartLayer(name: string)
  {
    |name| == 0 || (IsDigit(name[0]) && IsPartLayer(name[1..]))
  }

  /** The classification looks at every character and at nothing else. */
  lemma {:induction false} PartLayerIffDigits(name: string)
    ensures IsPartLayer(name) <==> forall i :: 0 <= i < |name| ==> IsDigit(name[i])
  {
    if |name| > 0 {
      PartLayerIffDigits(name[1..]);
      assert forall i :: 1 <= i < |name| ==> name[i] == name[1..][i - 1];
    }
  }

  /** The character scan of is_part_layer: stops at the first non-digit. */
  method ClassifyLayer(name: string) returns (isPart: bool)
    ensures isPart == IsPartLayer(name)
  {
    PartLayerIffDigits(name);
    var i := 0;
    while i < |name|
      invariant 0 <= i <= |name|
      invariant forall j :: 0 <= j < i ==> IsDigit(name[j])
    {
      if name[i] < '0' || name[i] > '9' {
        return false;
      }
      i := i + 1;
    }
    return true;
  }

  /** Which names classify as part layers: digits only, the empty name included. */
  lemma PartLayerExamples()
    ensures IsPartLayer("") && IsPartLayer(DefaultLayer) && IsPartLayer("12") && IsPartLayer("007")
    ensures !IsPartLayer("A7") && !IsPartLayer("-1") && !IsPartLayer("1 ") && !IsPartLayer("1.5")
  {
    assert !IsDigit("A7"[0]);
    assert !IsDigit("-1"[0]);
    assert !IsDigit("1 "[1]);
    assert !IsDigit("1.5"[1]);
  }

  /** The output path of a part layer: the layer name inside the parts directory, with the DXF extension. */
  function PartName(name: string): string
  {
    PartDir + name + PartExt
  }

  /** An output path is the directory, then exactly the layer name, then the extension. */
  lemma PartNameShape(name: string)
    ensures |PartName(name)| == |PartDir| + |name| + |PartExt|
    ensures PartName(name)[..|PartDir|] == PartDir
    ensures PartName(name)[|PartDir|..|PartDir| + |name|] == name
    ensures PartName(name)[|PartDir| + |name|..] == PartExt
  {
  }

  /** Reads the layer name back from an output path; None when the path is not of that shape. */
  function LayerOfPath(path: string): (name: Option<string>)
    ensures name.Some? ==> PartName(name.value) == path
  {
    if |path| >= |PartDir| + |PartExt| && path[..|PartDir|] == PartDir && path[|path| - |PartExt|..] == PartExt
    then
      var name := path[|PartDir|..|path| - |PartExt|];
      assert path == path[..|PartDir|] + name + path[|path| - |PartExt|..];
      Some(name)
    else None
  }

  /** Every output path names its layer back. */
  lemma PartNameRoundTrip(name: string)
    ensures LayerOfPath(PartName(name)) == Some(name)
  {
    PartNameShape(name);
    var path := PartName(name);
    assert path[|path| - |PartExt|..] == PartExt;
  }

  /** Distinct layers never share an output file. */
  lemma PartNameInjective(a: string, b: string)
    ensures PartName(a) == PartName(b) <==> a == b
  {
    if PartName(a) == PartName(b) {
      PartNameRoundTrip(a);
      PartNameRoundTrip(b);
    }
  }
}
