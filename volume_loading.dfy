/**
 * What the two VTI volume loaders share: the record they hand to the
 * host's `ImageVolume` constructor, the fixed secondary-capture metadata
 * they fill in, and the extraction of the file URL from an imageId of the
 * form `scheme:url`.
 */
module VolumeLoading {
  import Strings

  /** The image metadata of a loaded volume, under its DICOM attribute names. */
  datatype Metadata = Metadata(
    BitsAllocated: int,
    BitsStored: int,
    HighBit: int,
    ImageOrientationPatient: seq<int>,
    SamplesPerPixel: int,
    PhotometricInterpretation: string,
    PixelRepresentation: int,
    Modality: string,
    PixelSpacing: seq<real>,
    FrameOfReferenceUID: string,
    Columns: int,
    Rows: int,
    voiLut: seq<real>)

  /** The options object given to the `ImageVolume` constructor. */
  datatype ImageVolume = ImageVolume(
    volumeId: string,
    metadata: Metadata,
    dimensions: seq<int>,
    spacing: seq<real>,
    origin: seq<real>,
    direction: seq<real>,
    scalarData: seq<real>,
    sizeInBytes: int)

  /**
   * The fields both loaders fix: one unsigned MONOCHROME2 sample per pixel,
   * secondary-capture modality, an axial orientation, frame of reference
   * "11111" and no VOI LUT.
   */
  predicate FixedSecondaryCapture(m: Metadata)
  {
    && m.ImageOrientationPatient == [0, 0, 1, 1, 0, 0, 0, 1, 0]
    && m.SamplesPerPixel == 1
    && m.PhotometricInterpretation == "MONOCHROME2"
    && m.PixelRepresentation == 0
    && m.Modality == "SC"
    && m.FrameOfReferenceUID == "11111"
    && m.voiLut == []
  }

  /** The metadata literal both loaders write, for given bit depths, spacing and dimensions. */
  function SecondaryCaptureMetadata(bitsStored: int, highBit: int, spacing: seq<real>, dimensions: seq<int>): (m: Metadata)
    requires |dimensions| == 3
    ensures m.BitsAllocated == bitsStored && m.BitsStored == bitsStored && m.HighBit == highBit
    ensures m.Columns == dimensions[0] && m.Rows == dimensions[1] && m.PixelSpacing == spacing
    ensures FixedSecondaryCapture(m)
  {
    Metadata(
      BitsAllocated := bitsStored,
      BitsStored := bitsStored,
      HighBit := highBit,
      ImageOrientationPatient := [0, 0, 1, 1, 0, 0, 0, 1, 0],
      SamplesPerPixel := 1,
      PhotometricInterpretation := "MONOCHROME2",
      PixelRepresentation := 0,
      Modality := "SC",
      PixelSpacing := spacing,
      FrameOfReferenceUID := "11111",
      Columns := dimensions[0],
      Rows := dimensions[1],
      voiLut := [])
  }

  /**
   * The URL inside an imageId: everything after the first ':', all later
   * colons kept (nothing when there is no ':').
   */
  function AfterScheme(imageId: string): (url: string)
    ensures ':' !in imageId ==> url == ""
    ensures ':' in imageId ==>
              && |url| < |imageId|
              && imageId[|imageId| - |url| - 1] == ':'
              && ':' !in imageId[..|imageId| - |url| - 1]
              && imageId[|imageId| - |url|..] == url
  {
    Strings.CharIndexOf(imageId, ':');
    var k := Strings.IndexOf(imageId, ":");
    if k >= 0 then imageId[k + 1..] else ""
  }

  /** The URL starts right after the first ':' that `FirstIndex` finds. */
  lemma AfterFirstColon(imageId: string)
    ensures AfterScheme(imageId) == if ':' in imageId then imageId[Strings.FirstIndex(imageId, ':') + 1..] else ""
  {
    Strings.CharIndexOf(imageId, ':');
  }

  /**
   * `tokens = imageId.split(':'); tokens.shift(); url = tokens.join(':')`:
   * the imageId without its scheme and the colon after it.
   */
  method UrlFromImageId(imageId: string) returns (url: string)
    ensures url == AfterScheme(imageId)
    ensures ':' in imageId ==> imageId == Strings.Split(imageId, ':')[0] + ":" + url
  {
    var tokens := Strings.Split(imageId, ':');
    tokens := tokens[1..];
    url := Strings.Join(tokens, ':');
    Strings.JoinSplitTail(imageId, ':');
    Strings.SplitHead(imageId, ':');
    AfterFirstColon(imageId);
    if ':' in imageId {
      var k := Strings.FirstIndex(imageId, ':');
      assert imageId == imageId[..k] + ":" + imageId[k + 1..];
    }
  }
}
