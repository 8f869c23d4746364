/**
 * The VTI volume loader of the 3D viewport example: the volume record
 * built from a VTK image's scalar type, geometry and data, and the URL
 * taken from the first imageId. Reading the file is not modelled.
 */
module VtiVolumeLoader {
  import opened Wrappers
  import Strings
  import opened VolumeLoading

  /**
   * The bits stored per sample for a VTK scalar type name: 8 when it holds
   * "int8", else 16 when it holds "16", else 32 when it holds "32", else 0.
   */
  function BitsStoredFor(volumeType: string): (bits: int)
    ensures bits == 0 || bits == 8 || bits == 16 || bits == 32
    ensures bits == 8 <==> Strings.Occurs(volumeType, "int8")
    ensures bits == 16 <==> !Strings.Occurs(volumeType, "int8") && Strings.Occurs(volumeType, "16")
    ensures bits == 32 <==> !Strings.Occurs(volumeType, "int8") && !Strings.Occurs(volumeType, "16")
                            && Strings.Occurs(volumeType, "32")
  {
    if Strings.IndexOf(volumeType, "int8") >= 0 then 8
    else if Strings.IndexOf(volumeType, "16") >= 0 then 16
    else if Strings.IndexOf(volumeType, "32") >= 0 then 32
    else 0
  }

  /**
   * `createImageVolume`: bit depths chosen from the type name, with the high
   * bit one below the bits stored (both 0 for an unknown type); columns and
   * rows from the first two dimensions; the byte size rounded down from
   * samples times bits over 8.
   */
  function CreateImageVolume(volumeType: string, dimensions: seq<int>, spacing: seq<real>, origin: seq<real>,
                             direction: seq<real>, scalarData: seq<real>, volumeId: string): (v: ImageVolume)
    requires |dimensions| == 3
    ensures Strings.Occurs(volumeType, "int8") ==> v.metadata.BitsStored == 8
    ensures !Strings.Occurs(volumeType, "int8") && Strings.Occurs(volumeType, "16") ==> v.metadata.BitsStored == 16
    ensures !Strings.Occurs(volumeType, "int8") && !Strings.Occurs(volumeType, "16") && Strings.Occurs(volumeType, "32")
            ==> v.metadata.BitsStored == 32
    ensures !Strings.Occurs(volumeType, "int8") && !Strings.Occurs(volumeType, "16") && !Strings.Occurs(volumeType, "32")
            ==> v.metadata.BitsStored == 0 && v.metadata.HighBit == 0
    ensures v.metadata.BitsStored > 0 ==> v.metadata.HighBit == v.metadata.BitsStored - 1
    ensures v.metadata.BitsAllocated == v.metadata.BitsStored
    ensures v.metadata.Columns == dimensions[0] && v.metadata.Rows == dimensions[1]
    ensures v.metadata.PixelSpacing == spacing && FixedSecondaryCapture(v.metadata)
    ensures v.sizeInBytes * 8 <= |scalarData| * v.metadata.BitsStored < v.sizeInBytes * 8 + 8
    ensures v.volumeId == volumeId && v.dimensions == dimensions && v.spacing == spacing
    ensures v.origin == origin && v.direction == direction && v.scalarData == scalarData
  {
    var bitsStored := BitsStoredFor(volumeType);
    var highBit := if bitsStored == 0 then 0 else bitsStored - 1;
    var metadata := SecondaryCaptureMetadata(bitsStored, highBit, spacing, dimensions);
    ImageVolume(volumeId, metadata, dimensions, spacing, origin, direction, scalarData,
                (|scalarData| * bitsStored) / 8)
  }

  /** Uint8Array holds "int8" and gets 8 bits. */
  lemma {:induction false} UnsignedByteTypeGets8Bits()
    ensures BitsStoredFor("Uint8Array") == 8
  {
    assert Strings.OccursAt("Uint8Array", "int8", 1);
  }

  /**
   * Int8Array matches none of the case-sensitive tests ("Int8" is not
   * "int8"): a signed 8-bit volume gets 0 bits, high bit 0 and a size of
   * 0 bytes, whatever its data.
   */
  lemma {:induction false} SignedByteTypeGetsNoBits(dimensions: seq<int>, spacing: seq<real>, origin: seq<real>,
                                                    direction: seq<real>, scalarData: seq<real>, volumeId: string)
    requires |dimensions| == 3
    ensures BitsStoredFor("Int8Array") == 0
    ensures var v := CreateImageVolume("Int8Array", dimensions, spacing, origin, direction, scalarData, volumeId);
            v.metadata.BitsAllocated == 0 && v.metadata.HighBit == 0 && v.sizeInBytes == 0
  {
    Strings.AbsentCharNotOccurs("Int8Array", "int8", 'i');
    Strings.AbsentCharNotOccurs("Int8Array", "16", '1');
    Strings.AbsentCharNotOccurs("Int8Array", "32", '3');
  }

  /**
   * The evidently intended depth: 8 bits for a name holding "int8" or
   * "Int8" (both byte types), otherwise as `BitsStoredFor`.
   */
  function IntendedBitsStored(volumeType: string): (bits: int)
    ensures !Strings.Occurs(volumeType, "Int8") ==> bits == BitsStoredFor(volumeType)
    ensures bits in {0, 8, 16, 32}
  {
    if Strings.Occurs(volumeType, "Int8") then 8 else BitsStoredFor(volumeType)
  }

  /** Under the intended depth both byte types get 8 bits and the other types keep theirs. */
  lemma {:induction false} IntendedBitsForByteTypes()
    ensures IntendedBitsStored("Int8Array") == 8 && IntendedBitsStored("Uint8Array") == 8
    ensures IntendedBitsStored("Uint16Array") == BitsStoredFor("Uint16Array")
    ensures IntendedBitsStored("Float64Array") == BitsStoredFor("Float64Array")
  {
    assert Strings.OccursAt("Int8Array", "Int8", 0);
    UnsignedByteTypeGets8Bits();
    Strings.AbsentCharNotOccurs("Uint16Array", "Int8", 'I');
    Strings.AbsentCharNotOccurs("Float64Array", "Int8", 'I');
  }

  /** The 16-bit integer arrays get 16 bits. */
  lemma {:induction false} ShortTypesGet16Bits()
    ensures BitsStoredFor("Uint16Array") == 16 && BitsStoredFor("Int16Array") == 16
  {
    Strings.AbsentCharNotOccurs("Int16Array", "int8", '8');
    assert Strings.OccursAt("Int16Array", "16", 3);
    Strings.AbsentCharNotOccurs("Uint16Array", "int8", '8');
    assert Strings.OccursAt("Uint16Array", "16", 4);
  }

  /** The 32-bit integer arrays get 32 bits. */
  lemma {:induction false} WordTypesGet32Bits()
    ensures BitsStoredFor("Uint32Array") == 32 && BitsStoredFor("Int32Array") == 32
  {
    Strings.AbsentCharNotOccurs("Uint32Array", "int8", '8');
    Strings.AbsentCharNotOccurs("Uint32Array", "16", '1');
    assert Strings.OccursAt("Uint32Array", "32", 4);
    Strings.AbsentCharNotOccurs("Int32Array", "int8", '8');
    Strings.AbsentCharNotOccurs("Int32Array", "16", '1');
    assert Strings.OccursAt("Int32Array", "32", 3);
  }

  /** Float32Array gets 32 bits, like the 32-bit integers. */
  lemma {:induction false} FloatTypeGets32Bits()
    ensures BitsStoredFor("Float32Array") == 32
  {
    Strings.AbsentCharNotOccurs("Float32Array", "int8", 'i');
    Strings.AbsentCharNotOccurs("Float32Array", "16", '1');
    assert Strings.OccursAt("Float32Array", "32", 5);
  }

  /** Float64Array matches no rule: no bits stored and a volume of 0 bytes. */
  lemma {:induction false} DoubleTypeGetsNoBits(dimensions: seq<int>, spacing: seq<real>, origin: seq<real>,
                                               direction: seq<real>, scalarData: seq<real>, volumeId: string)
    requires |dimensions| == 3
    ensures BitsStoredFor("Float64Array") == 0
    ensures CreateImageVolume("Float64Array", dimensions, spacing, origin, direction, scalarData, volumeId).sizeInBytes == 0
  {
    Strings.AbsentCharNotOccurs("Float64Array", "int8", 'i');
    Strings.AbsentCharNotOccurs("Float64Array", "16", '1');
    Strings.AbsentCharNotOccurs("Float64Array", "32", '3');
  }

  /**
   * `vtiVolumeLoader`'s URL: taken from `imageIds[0]` without its scheme;
   * with no imageId the access throws and the promise is rejected (`None`).
   */
  method LoaderUrl(imageIds: seq<string>) returns (url: Option<string>)
    ensures |imageIds| == 0 ==> url == None
    ensures |imageIds| > 0 ==> url == Some(AfterScheme(imageIds[0]))
  {
    if |imageIds| == 0 {
      return None;
    }
    var u := UrlFromImageId(imageIds[0]);
    url := Some(u);
  }
}
