/**
 * The EXIF attribute builder (EXIFMaker): fixed-size character fields of
 * the attribute record written with bounded copies, the orientation tag
 * derived from the JPEG rotation, the reset and initialisation of the
 * record, and the makernote size.  The EXIF encoder, the clock, the
 * Parameters store and the floating-point GPS and lens fields are not part
 * of this model.
 */
module ExifMaker {
  import opened Common

  newtype Byte = x: int | 0 <= x < 256

  /** Values of the Orientation tag (EXIF 2.2, section 4.6.4 A). */
  const EXIF_ORIENTATION_UP: int := 1
  const EXIF_ORIENTATION_90: int := 6
  const EXIF_ORIENTATION_180: int := 3
  const EXIF_ORIENTATION_270: int := 8
  const DEFAULT_ISO_SPEED: int := 100

  /** A C string's contents: no NUL byte inside. */
  predicate NoNul(s: seq<Byte>)
  {
    forall i :: 0 <= i < |s| ==> s[i] != 0
  }

  function Zeros(n: nat): (z: seq<Byte>)
    ensures |z| == n && forall i :: 0 <= i < n ==> z[i] == 0
  {
    seq(n, _ => 0 as Byte)
  }

  /** The length strlen reads from a buffer: up to the first NUL, or the whole buffer. */
  function CStrLen(buf: seq<Byte>): (n: nat)
    ensures n <= |buf| && NoNul(buf[..n]) && (n < |buf| ==> buf[n] == 0)
  {
    if |buf| == 0 || buf[0] == 0 then 0
    else
      var n := 1 + CStrLen(buf[1..]);
      assert buf[..n] == [buf[0]] + buf[1..][..n - 1];
      n
  }

  /** The text a NUL-terminated field holds. */
  function CStringOf(buf: seq<Byte>): seq<Byte>
  {
    buf[..CStrLen(buf)]
  }

  /** The number of characters a field of `size` bytes keeps of `src`: one byte stays for the NUL. */
  function KeptLength(size: nat, src: seq<Byte>): (n: nat)
    requires size >= 1
    ensures n <= |src| && n < size
    ensures n == |src| || n == size - 1
  {
    Min(size - 1, |src|)
  }

  /** A zero-filled field of `size` bytes after copying `src` into it with truncation. */
  function Field(size: nat, src: seq<Byte>): (f: seq<Byte>)
    requires size >= 1
    ensures |f| == size
  {
    var n := KeptLength(size, src);
    src[..n] + Zeros(size - n)
  }

  /** A field always reads back as the kept prefix of the text copied into it. */
  lemma FieldReadsBack(size: nat, src: seq<Byte>)
    requires size >= 1 && NoNul(src)
    ensures CStringOf(Field(size, src)) == src[..KeptLength(size, src)]
    ensures |src| < size ==> CStringOf(Field(size, src)) == src
  {
    var n := KeptLength(size, src);
    var f := Field(size, src);
    assert f[..n] == src[..n];
    assert f[n] == 0;
  }

  /** The orientation tag pictureTaken writes for a JPEG rotation in degrees; any other rotation is UP. */
  function OrientationOf(rotation: int): (o: int)
    ensures o in {EXIF_ORIENTATION_UP, EXIF_ORIENTATION_90, EXIF_ORIENTATION_180, EXIF_ORIENTATION_270}
    ensures rotation !in {0, 90, 180, 270} ==> o == EXIF_ORIENTATION_UP
  {
    if rotation == 90 then EXIF_ORIENTATION_90
    else if rotation == 180 then EXIF_ORIENTATION_180
    else if rotation == 270 then EXIF_ORIENTATION_270
    else EXIF_ORIENTATION_UP
  }

  /** The rotation an orientation tag stands for. */
  function RotationOf(o: int): int
  {
    if o == EXIF_ORIENTATION_90 then 90
    else if o == EXIF_ORIENTATION_180 then 180
    else if o == EXIF_ORIENTATION_270 then 270
    else 0
  }

  /** The four right-angle rotations are recorded faithfully: the tag gives the rotation back. */
  lemma OrientationRoundTrip(rotation: int)
    ensures rotation in {0, 90, 180, 270} <==> RotationOf(OrientationOf(rotation)) == rotation
  {
  }

  /** makeExif: no output buffer or an encoder failure give size 0, otherwise the encoded size. */
  function ExifSize(hasData: bool, encodeOk: bool, encodedSize: nat): (n: nat)
    ensures n > 0 ==> hasData && encodeOk && n == encodedSize
    ensures hasData && encodeOk ==> n == encodedSize
  {
    if !hasData || !encodeOk then 0 else encodedSize
  }

  /** The text bytes of an ASCII string literal. */
  function Ascii(s: string): (b: seq<Byte>)
    requires forall i :: 0 <= i < |s| ==> 0 < s[i] as int < 128
    ensures |b| == |s| && NoNul(b)
  {
    seq(|s|, i requires 0 <= i < |s| => s[i] as int as Byte)
  }

  const INTEL: seq<Byte> := Ascii("INTEL")
  const CHROME: seq<Byte> := Ascii("Chrome")

  class Exif {
    const imageDescription: array<Byte>
    const maker: array<Byte>
    const model: array<Byte>
    const software: array<Byte>
    /** EXIF_DEF_IMAGE_DESCRIPTION and EXIF_DEF_SOFTWARE, from the attribute header. */
    const defaultDescription: seq<Byte>
    const defaultSoftware: seq<Byte>
    /** MAKERNOTE_SECTION1_SIZE + MAKERNOTE_SECTION2_SIZE */
    const makernoteCapacity: nat

    var width: int
    var height: int
    var orientation: int
    var isoSpeedRating: int
    var zoomRatioNum: int
    var zoomRatioDen: int
    var customRenderedHdr: bool
    var enableThumb: bool
    var widthThumb: int
    var heightThumb: int
    var makerNoteDataSize: nat
    var initialized: bool

    predicate Valid()
      reads this
    {
      imageDescription.Length >= 1 && maker.Length >= 1 && model.Length >= 1 && software.Length >= 1 &&
      imageDescription != maker && imageDescription != model && imageDescription != software &&
      maker != model && maker != software && model != software
    }

    /** The text fields after clear. */
    predicate FieldsCleared()
      reads this, imageDescription, maker, model, software
      requires Valid()
    {
      imageDescription[..] == Field(imageDescription.Length, defaultDescription) &&
      maker[..] == Field(maker.Length, INTEL) &&
      model[..] == Field(model.Length, CHROME) &&
      software[..] == Field(software.Length, defaultSoftware)
    }

    constructor (descSize: nat, makerSize: nat, modelSize: nat, softwareSize: nat,
                 desc: seq<Byte>, soft: seq<Byte>, capacity: nat)
      requires descSize >= 1 && makerSize >= 1 && modelSize >= 1 && softwareSize >= 1
      ensures Valid() && !initialized && makerNoteDataSize == 0
      ensures imageDescription.Length == descSize && maker.Length == makerSize
      ensures model.Length == modelSize && software.Length == softwareSize
      ensures defaultDescription == desc && defaultSoftware == soft && makernoteCapacity == capacity
      ensures fresh(imageDescription) && fresh(maker) && fresh(model) && fresh(software)
    {
      imageDescription := new Byte[descSize](_ => 0);
      maker := new Byte[makerSize](_ => 0);
      model := new Byte[modelSize](_ => 0);
      software := new Byte[softwareSize](_ => 0);
      defaultDescription := desc;
      defaultSoftware := soft;
      makernoteCapacity := capacity;
      width, height, orientation, isoSpeedRating := 0, 0, 0, 0;
      zoomRatioNum, zoomRatioDen := 0, 0;
      customRenderedHdr, enableThumb := false, false;
      widthThumb, heightThumb := 0, 0;
      makerNoteDataSize := 0;
      initialized := false;
    }

    /**
     * copyAttribute: copies at most size - 1 characters and writes the NUL
     * right after them; the rest of the field keeps what it held.
     */
    static method CopyAttribute(dst: array<Byte>, src: seq<Byte>)
      requires dst.Length >= 1
      modifies dst
      ensures var n := KeptLength(dst.Length, src);
        dst[..n] == src[..n] && dst[n] == 0 && dst[n + 1..] == old(dst[n + 1..])
    {
      var n := KeptLength(dst.Length, src);
      var i := 0;
      while i < n
        invariant 0 <= i <= n
        invariant dst[..i] == src[..i]
        invariant dst[i..] == old(dst[i..])
      {
        dst[i] := src[i];
        assert dst[..i + 1] == dst[..i] + [src[i]];
        i := i + 1;
        assert dst[i..] == old(dst[..])[i..];
      }
      dst[n] := 0;
      assert dst[n + 1..] == old(dst[..])[n + 1..];
    }

    /** Over a zeroed field, copyAttribute leaves exactly Field(size, src). */
    static lemma CopyOverZeros(before: seq<Byte>, after: seq<Byte>, src: seq<Byte>)
      requires |before| == |after| >= 1 && forall i :: 0 <= i < |before| ==> before[i] == 0
      requires var n := KeptLength(|after|, src);
        after[..n] == src[..n] && after[n] == 0 && after[n + 1..] == before[n + 1..]
      ensures after == Field(|after|, src)
    {
      var n := KeptLength(|after|, src);
      var f := Field(|after|, src);
      forall i | 0 <= i < |after|
        ensures after[i] == f[i]
      {
        if i < n {
          assert after[..n][i] == after[i];
        } else if i > n {
          assert after[n + 1..][i - n - 1] == after[i];
        }
      }
    }

    static method ZeroFill(dst: array<Byte>)
      modifies dst
      ensures forall i :: 0 <= i < dst.Length ==> dst[i] == 0
    {
      var i := 0;
      while i < dst.Length
        invariant 0 <= i <= dst.Length
        invariant forall j :: 0 <= j < i ==> dst[j] == 0
      {
        dst[i] := 0;
        i := i + 1;
      }
    }

    /** CLEAR on one field followed by copyAttribute of its default. */
    static method ResetField(dst: array<Byte>, src: seq<Byte>)
      requires dst.Length >= 1
      modifies dst
      ensures dst[..] == Field(dst.Length, src)
    {
      ZeroFill(dst);
      ghost var before := dst[..];
      CopyAttribute(dst, src);
      CopyOverZeros(before, dst[..], src);
    }

    /**
     * setMaker, setModel and setSoftware: strncpy of at most size - 1
     * characters, which pads the rest with NULs, then a NUL in the last byte.
     */
    static method SetField(dst: array<Byte>, data: seq<Byte>)
      requires dst.Length >= 1 && NoNul(data)
      modifies dst
      ensures dst[..] == Field(dst.Length, data)
    {
      var n := KeptLength(dst.Length, data);
      var i := 0;
      while i < dst.Length - 1
        invariant 0 <= i <= dst.Length - 1
        invariant forall j :: 0 <= j < i ==> dst[j] == (if j < n then data[j] else 0)
      {
        dst[i] := if i < n then data[i] else 0;
        i := i + 1;
      }
      dst[dst.Length - 1] := 0;
      assert forall j :: 0 <= j < dst.Length ==> dst[j] == Field(dst.Length, data)[j];
    }

    method SetMaker(data: seq<Byte>)
      requires Valid() && NoNul(data)
      modifies maker
      ensures maker[..] == Field(maker.Length, data)
      ensures CStringOf(maker[..]) == data[..KeptLength(maker.Length, data)]
    {
      SetField(maker, data);
      FieldReadsBack(maker.Length, data);
    }

    method SetModel(data: seq<Byte>)
      requires Valid() && NoNul(data)
      modifies model
      ensures model[..] == Field(model.Length, data)
      ensures CStringOf(model[..]) == data[..KeptLength(model.Length, data)]
    {
      SetField(model, data);
      FieldReadsBack(model.Length, data);
    }

    method SetSoftware(data: seq<Byte>)
      requires Valid() && NoNul(data)
      modifies software
      ensures software[..] == Field(software.Length, data)
      ensures CStringOf(software[..]) == data[..KeptLength(software.Length, data)]
    {
      SetField(software, data);
      FieldReadsBack(software.Length, data);
    }

    /**
     * clear: every attribute back to zero, the four text fields to their
     * defaults, no thumbnail, an empty makernote and not initialised.
     */
    method Clear()
      requires Valid()
      modifies this, imageDescription, maker, model, software
      ensures Valid() && FieldsCleared()
      ensures width == 0 && height == 0 && orientation == 0 && isoSpeedRating == 0
      ensures zoomRatioNum == 0 && zoomRatioDen == 0 && !customRenderedHdr
      ensures !enableThumb && widthThumb == 0 && heightThumb == 0
      ensures makerNoteDataSize == 0 && !initialized
    {
      ResetField(imageDescription, defaultDescription);
      ResetField(maker, INTEL);
      ResetField(model, CHROME);
      ResetField(software, defaultSoftware);
      width, height, orientation, isoSpeedRating := 0, 0, 0, 0;
      zoomRatioNum, zoomRatioDen := 0, 0;
      customRenderedHdr, enableThumb := false, false;
      widthThumb, heightThumb := 0, 0;
      makerNoteDataSize := 0;
      initialized := false;
    }

    /** initialize: clear, then the picture size, orientation UP, the default ISO, and initialised. */
    method Initialize(w: int, h: int)
      requires Valid()
      modifies this, imageDescription, maker, model, software
      ensures Valid() && FieldsCleared() && initialized
      ensures width == w && height == h
      ensures orientation == EXIF_ORIENTATION_UP && isoSpeedRating == DEFAULT_ISO_SPEED
      ensures makerNoteDataSize == 0 && !enableThumb && !customRenderedHdr
    {
      Clear();
      isoSpeedRating := DEFAULT_ISO_SPEED;
      width := w;
      height := h;
      orientation := EXIF_ORIENTATION_UP;
      initialized := true;
    }

    /** pictureTaken: orientation from the rotation, zoom in hundredths, default ISO, HDR rendering flag. */
    method PictureTaken(rotation: int, zoomRatio: int, hdr: bool)
      requires Valid()
      modifies this
      ensures Valid()
      ensures orientation == OrientationOf(rotation)
      ensures zoomRatioNum == zoomRatio && zoomRatioDen == 100
      ensures isoSpeedRating == DEFAULT_ISO_SPEED && customRenderedHdr == hdr
      ensures width == old(width) && height == old(height) && initialized == old(initialized)
      ensures makerNoteDataSize == old(makerNoteDataSize) && enableThumb == old(enableThumb)
      ensures widthThumb == old(widthThumb) && heightThumb == old(heightThumb)
    {
      isoSpeedRating := DEFAULT_ISO_SPEED;
      orientation := OrientationOf(rotation);
      zoomRatioNum := zoomRatio;
      zoomRatioDen := 100;
      customRenderedHdr := hdr;
    }

    /** setThumbnail: the thumbnail is enabled with its size, whatever the encoder says. */
    method SetThumbnail(w: int, h: int)
      requires Valid()
      modifies this
      ensures Valid() && enableThumb && widthThumb == w && heightThumb == h
      ensures width == old(width) && height == old(height) && orientation == old(orientation)
      ensures makerNoteDataSize == old(makerNoteDataSize) && initialized == old(initialized)
    {
      enableThumb := true;
      widthThumb := w;
      heightThumb := h;
    }

    /**
     * saveMakernote: without parameters nothing happens; otherwise the size
     * the store reports is kept only when its read succeeded.
     */
    method SaveMakernote(hasParams: bool, readStatus: Status, readSize: nat)
      requires Valid()
      modifies this
      ensures Valid()
      ensures hasParams && readStatus == OK ==> makerNoteDataSize == readSize
      ensures !(hasParams && readStatus == OK) ==> makerNoteDataSize == old(makerNoteDataSize)
      ensures width == old(width) && height == old(height) && orientation == old(orientation)
      ensures initialized == old(initialized) && enableThumb == old(enableThumb)
    {
      if !hasParams {
        return;
      }
      if readStatus == OK {
        makerNoteDataSize := readSize;
      }
    }
  }
}
