/**
 * The VTI volume loader of the core example: only 8-bit unsigned volumes
 * become a volume record; the URL is taken from the first imageId in the
 * options. Reading the file is not modelled.
 */
module CsVtiVolumeLoader {
  import opened Wrappers
  import opened VolumeLoading
  import VtiVolumeLoader
  import Strings

  /**
   * `createImageVolume`: a volume for type "Uint8Array" only, with 8 bits
   * allocated and stored, high bit 7, one byte per sample; nothing for any
   * other type.
   */
  function CreateImageVolume(volumeType: string, dimensions: seq<int>, spacing: seq<real>, origin: seq<real>,
                             direction: seq<real>, scalarData: seq<real>, volumeId: string): (r: Option<ImageVolume>)
    requires |dimensions| == 3
    ensures r.Some? <==> volumeType == "Uint8Array"
    ensures r.Some? ==> && r.value.metadata.BitsAllocated == 8 && r.value.metadata.BitsStored == 8
                        && r.value.metadata.HighBit == 7
                        && r.value.metadata.Columns == dimensions[0] && r.value.metadata.Rows == dimensions[1]
                        && r.value.metadata.PixelSpacing == spacing && FixedSecondaryCapture(r.value.metadata)
                        && r.value.sizeInBytes == |scalarData|
    ensures r.Some? ==> && r.value.volumeId == volumeId && r.value.dimensions == dimensions
                        && r.value.spacing == spacing && r.value.origin == origin
                        && r.value.direction == direction && r.value.scalarData == scalarData
  {
    if volumeType == "Uint8Array" then
      Some(ImageVolume(volumeId, SecondaryCaptureMetadata(8, 7, spacing, dimensions), dimensions, spacing, origin,
                       direction, scalarData, |scalarData|))
    else None
  }

  /** For 8-bit unsigned data the two loaders build the same volume. */
  lemma {:induction false} AgreesWithToolsLoader(dimensions: seq<int>, spacing: seq<real>, origin: seq<real>,
                                                 direction: seq<real>, scalarData: seq<real>, volumeId: string)
    requires |dimensions| == 3
    ensures CreateImageVolume("Uint8Array", dimensions, spacing, origin, direction, scalarData, volumeId)
            == Some(VtiVolumeLoader.CreateImageVolume("Uint8Array", dimensions, spacing, origin, direction,
                                                      scalarData, volumeId))
  {
    assert Strings.OccursAt("Uint8Array", "int8", 1);
  }

  /**
   * `vtiVolumeLoader`'s URL: taken from `options['imageIds'][0]` without its
   * scheme; with no options, no imageIds or an empty list the access throws
   * and the promise is rejected (`None`).
   */
  method LoaderUrl(imageIds: Option<seq<string>>) returns (url: Option<string>)
    ensures imageIds.None? || |imageIds.value| == 0 ==> url == None
    ensures imageIds.Some? && |imageIds.value| > 0 ==> url == Some(AfterScheme(imageIds.value[0]))
  {
    if imageIds.None? || |imageIds.value| == 0 {
      return None;
    }
    var u := UrlFromImageId(imageIds.value[0]);
    url := Some(u);
  }
}
