/** `WorkingDicomWriter`: the minimal writer. It decodes the JPEG fully,
    converts it to 8-bit RGB and writes the pixels uncompressed as one OB
    element under the Explicit VR Little Endian transfer syntax. Its UIDs are
    fixed constants. */
module WorkingDicom {
  import opened GoRuntime
  import opened GoTime
  import opened DicomEncoding
  import opened SimpleDicom
  import opened ExplicitDataset

  /** A colour as `color.Color.RGBA()` returns it: 16-bit components. */
  datatype Rgba = Rgba(r: uint32, g: uint32, b: uint32, a: uint32)

  /** A decoded image whose bounds start at the origin: `At(x, y)` for
      `0 <= x < width`, `0 <= y < height`. */
  datatype Image = Image(width: nat, height: nat, at: (nat, nat) -> Rgba)

  /** `byte(v >> 8)`: the high byte of a 16-bit component, truncated to a byte. */
  function HighByte(v: uint32): uint8
  {
    ((v / 256) % 256) as uint8
  }

  /** Component `c` (0 red, 1 green, 2 blue) of a colour, as a byte. */
  function Channel(color: Rgba, c: nat): uint8
    requires c < 3
  {
    if c == 0 then HighByte(color.r) else if c == 1 then HighByte(color.g) else HighByte(color.b)
  }

  /** The three bytes of one pixel: red, green, blue. */
  function PixelBytes(color: Rgba): (b: Bytes)
    ensures |b| == 3
  {
    [HighByte(color.r), HighByte(color.g), HighByte(color.b)]
  }

  /** The bytes of the first `k` pixels of row `y`. */
  function RowPrefix(img: Image, y: nat, k: nat): (s: Bytes)
    ensures |s| == 3 * k
  {
    if k == 0 then [] else RowPrefix(img, y, k - 1) + PixelBytes(img.at(k - 1, y))
  }

  /** The bytes of the first `k` rows, row after row. */
  function Rows(img: Image, k: nat): (s: Bytes)
  {
    if k == 0 then [] else Rows(img, k - 1) + RowPrefix(img, k - 1, img.width)
  }

  /** The image as 8-bit RGB, three bytes per pixel, row after row. */
  function RgbPixels(img: Image): (s: Bytes)
    ensures |s| == img.width * img.height * 3
  {
    RowsLength(img, img.height);
    Rows(img, img.height)
  }

  /** Each row adds `3 * width` bytes. */
  lemma {:induction false} RowsLength(img: Image, k: nat)
    ensures |Rows(img, k)| == 3 * img.width * k
    decreases k
  {
    if k > 0 {
      RowsLength(img, k - 1);
      assert 3 * img.width * k == 3 * img.width * (k - 1) + 3 * img.width;
    }
  }

  /** A row that is not the last leaves room for a full row after it. */
  lemma {:induction false} RowsRoom(img: Image, y: nat, k: nat)
    requires y < k
    ensures |Rows(img, y)| + 3 * img.width <= |Rows(img, k)|
    decreases k
  {
    if y < k - 1 {
      RowsRoom(img, y, k - 1);
    }
  }

  /** Within a row, pixel x's bytes start at 3 * x. */
  lemma {:induction false} RowPrefixIndex(img: Image, y: nat, k: nat, x: nat, c: nat)
    requires x < k && c < 3
    ensures RowPrefix(img, y, k)[3 * x + c] == PixelBytes(img.at(x, y))[c]
    decreases k
  {
    if x < k - 1 {
      RowPrefixIndex(img, y, k - 1, x, c);
    }
  }

  /** Pixel (x, y)'s bytes start at 3 * (y * width + x), as the source's
      running index `idx` has it. */
  lemma {:induction false} PixelIndex(img: Image, k: nat, x: nat, y: nat, c: nat)
    requires x < img.width && y < k && c < 3
    ensures 3 * (y * img.width + x) + c < |Rows(img, k)|
    ensures Rows(img, k)[3 * (y * img.width + x) + c] == PixelBytes(img.at(x, y))[c]
    decreases k
  {
    var w := img.width;
    RowsLength(img, k);
    RowStart(w, y, x, c);
    if y < k - 1 {
      PixelIndex(img, k - 1, x, y, c);
      PositionBound(w, k - 1, x, y);
    } else {
      RowsLength(img, y);
      RowPrefixIndex(img, y, w, x, c);
    }
  }

  lemma RowStart(w: nat, y: nat, x: nat, c: nat)
    ensures 3 * (y * w + x) + c == 3 * w * y + (3 * x + c)
  {
  }

  lemma PositionBound(w: nat, k: nat, x: nat, y: nat)
    requires x < w && y < k
    ensures 3 * (y * w + x) + 2 < 3 * w * k
    ensures 3 * w * y + 3 * x + 3 <= w * k * 3
  {
    MulMonotone(3 * w, y, k);
  }

  lemma {:induction false} MulAtLeast(d: nat, k: nat)
    requires k >= 1
    ensures d * k >= d
    decreases k
  {
    if k > 1 {
      MulAtLeast(d, k - 1);
      assert d * k == d * (k - 1) + d;
    }
  }

  lemma MulMonotone(d: nat, a: nat, b: nat)
    ensures a < b ==> d * a + d <= d * b
  {
    if a < b {
      assert d * b == d * a + d * (b - a);
      MulAtLeast(d, b - a);
    }
  }

  /** The conversion loop of `CreateFromDataURL`: for each row, for each
      column, the high bytes of red, green and blue at `idx`, `idx + 1`, `idx + 2`. */
  method ConvertToRgb(img: Image) returns (rgb: Bytes)
    ensures rgb == RgbPixels(img)
  {
    var w, h := img.width, img.height;
    var rgbData := new uint8[w * h * 3];
    RowsLength(img, h);
    var idx := 0;
    var y := 0;
    while y < h
      invariant 0 <= y <= h
      invariant rgbData.Length == |Rows(img, h)|
      invariant idx == |Rows(img, y)| <= rgbData.Length
      invariant rgbData[..idx] == Rows(img, y)
    {
      RowsRoom(img, y, h);
      FillRow(img, y, rgbData, idx);
      assert Rows(img, y + 1) == Rows(img, y) + RowPrefix(img, y, w);
      idx := idx + 3 * w;
      y := y + 1;
    }
    assert rgbData[..] == rgbData[..idx];
    rgb := rgbData[..];
  }

  /** The inner loop: the pixels of row `y`, left to right, from `start` on. */
  method FillRow(img: Image, y: nat, rgbData: array<uint8>, start: nat)
    requires start + 3 * img.width <= rgbData.Length
    modifies rgbData
    ensures rgbData[..start + 3 * img.width] == old(rgbData[..start]) + RowPrefix(img, y, img.width)
  {
    var x := 0;
    var idx := start;
    while x < img.width
      invariant 0 <= x <= img.width
      invariant idx == start + 3 * x
      invariant rgbData[..idx] == old(rgbData[..start]) + RowPrefix(img, y, x)
    {
      ghost var done := rgbData[..idx];
      PutPixel(rgbData, idx, img.at(x, y));
      assert rgbData[..idx + 3] == done + PixelBytes(img.at(x, y));
      idx := idx + 3;
      x := x + 1;
    }
  }

  /** The three byte stores of one pixel. */
  method PutPixel(rgbData: array<uint8>, idx: nat, color: Rgba)
    requires idx + 3 <= rgbData.Length
    modifies rgbData
    ensures rgbData[..idx + 3] == old(rgbData[..idx]) + PixelBytes(color)
  {
    rgbData[idx] := HighByte(color.r);
    rgbData[idx + 1] := HighByte(color.g);
    rgbData[idx + 2] := HighByte(color.b);
  }

  const WorkingSopInstanceUid: GoString := "1.2.3.4.5"
  const WorkingUids := DatasetUids(WorkingSopInstanceUid, "1.2.3.4.6", "1.2.3.4.7")

  /** The group length the source writes for (0002,0000). */
  const WorkingGroupLength: uint32 := 132

  /** The dataset before the pixel data; the photometric interpretation is RGB
      and the rows and columns are the image's bounds. */
  function WorkingDataset(patient: PatientInfo, img: Image, date: Instant, time: Instant): seq<ExplicitElement>
  {
    DatasetElements(WorkingUids, date, time, patient, "RGB", Dimensions(img.width, img.height))
  }

  /** (7FE0,0010) OB holding the RGB bytes, written with `tagExplicit`. */
  function PixelElement(img: Image): ExplicitElement
  {
    ExplicitElement(PixelDataTag, "OB", RgbPixels(img))
  }

  function WorkingElements(patient: PatientInfo, img: Image, date: Instant, time: Instant): seq<ExplicitElement>
  {
    WorkingDataset(patient, img, date, time) + [PixelElement(img)]
  }

  /** The whole file `CreateFromDataURL` writes. */
  function WorkingFile(patient: PatientInfo, img: Image, date: Instant, time: Instant): Bytes
  {
    FileHeader() + EncodeExplicit(ExplicitLongVRs, GroupLengthElement(WorkingGroupLength))
    + MetaBytes(WorkingSopInstanceUid, ExplicitVRLittleEndianUid)
    + ExplicitStream(ExplicitLongVRs, WorkingElements(patient, img, date, time))
  }

  /** The file cut after "DICM": the group length, the meta elements, the dataset. */
  lemma WorkingFileSplit(patient: PatientInfo, img: Image, date: Instant, time: Instant)
    ensures var f := WorkingFile(patient, img, date, time);
            var meta := MetaBytes(WorkingSopInstanceUid, ExplicitVRLittleEndianUid);
            var rest := ExplicitStream(ExplicitLongVRs, WorkingElements(patient, img, date, time));
            |f| >= 132 && f[..132] == FileHeader()
            && f[132..] == EncodeExplicit(ExplicitLongVRs, GroupLengthElement(WorkingGroupLength)) + meta + rest
  {
    ExplicitFileSplit(ExplicitLongVRs, WorkingGroupLength as int, MetaBytes(WorkingSopInstanceUid, ExplicitVRLittleEndianUid),
                      ExplicitStream(ExplicitLongVRs, WorkingElements(patient, img, date, time)));
  }

  // ---------------------------------------------------------------------------
  // Properties

  /** The meta elements take 110 bytes, not the 132 the source announces. */
  lemma WorkingMetaLength()
    ensures |MetaBytes(WorkingSopInstanceUid, ExplicitVRLittleEndianUid)| == 110
  {
    MetaLength(WorkingSopInstanceUid, ExplicitVRLittleEndianUid);
    assert |WorkingSopInstanceUid| == 9 && |ExplicitVRLittleEndianUid| == 19;
  }

  /** As written, a reader that trusts the group length does not find the meta
      elements followed by the dataset: it takes the first 22 dataset bytes for meta. */
  lemma WorkingGroupLengthMisread(patient: PatientInfo, img: Image, date: Instant, time: Instant)
    ensures var f := WorkingFile(patient, img, date, time);
            var rest := ExplicitStream(ExplicitLongVRs, WorkingElements(patient, img, date, time));
            |f| >= 132
            && ParseMetaGroup(ExplicitLongVRs, f[132..])
               != Some((MetaElements(WorkingSopInstanceUid, ExplicitVRLittleEndianUid), rest))
  {
    var rest := ExplicitStream(ExplicitLongVRs, WorkingElements(patient, img, date, time));
    WorkingFileSplit(patient, img, date, time);
    WorkingMetaLength();
    ExplicitVRForms();
    MetaGroupMisread(ExplicitLongVRs, WorkingGroupLength as nat,
                     MetaElements(WorkingSopInstanceUid, ExplicitVRLittleEndianUid), rest);
  }

  /** The file as evidently intended: the group length the meta elements take. */
  function WorkingFileCorrected(patient: PatientInfo, img: Image, date: Instant, time: Instant): Bytes
  {
    var meta := MetaBytes(WorkingSopInstanceUid, ExplicitVRLittleEndianUid);
    FileHeader() + EncodeExplicit(ExplicitLongVRs, GroupLengthElement(|meta|)) + meta
    + ExplicitStream(ExplicitLongVRs, WorkingElements(patient, img, date, time))
  }

  /** The corrected file reads back: the meta elements, then the dataset
      with the RGB pixel data as its last element. */
  lemma WorkingFileCorrectedReadsBack(patient: PatientInfo, img: Image, date: Instant, time: Instant)
    requires PatientFits(patient) && img.width * img.height * 3 < 0xFFFF_FFFF
    ensures ReadExplicitFile(ExplicitLongVRs, WorkingFileCorrected(patient, img, date, time))
            == Some((MetaElements(WorkingSopInstanceUid, ExplicitVRLittleEndianUid),
                     WorkingElements(patient, img, date, time), []))
  {
    WorkingMetaLength();
    MetaFits(WorkingSopInstanceUid, ExplicitVRLittleEndianUid);
    ExplicitVRForms();
    WorkingElementsReadable(patient, img, date, time);
    ExplicitFileReadsBackWhole(ExplicitLongVRs, MetaElements(WorkingSopInstanceUid, ExplicitVRLittleEndianUid),
                               WorkingElements(patient, img, date, time));
  }

  /** Every element fits its length field, and none is an encapsulated-pixel header. */
  lemma WorkingElementsReadable(patient: PatientInfo, img: Image, date: Instant, time: Instant)
    requires PatientFits(patient) && img.width * img.height * 3 < 0xFFFF_FFFF
    ensures DatasetReadable(ExplicitLongVRs, WorkingElements(patient, img, date, time))
  {
    var ds := WorkingDataset(patient, img, date, time);
    DatasetElementsReadable(WorkingUids, date, time, patient, "RGB", Dimensions(img.width, img.height));
    assert DatasetReadable(ExplicitLongVRs, [PixelElement(img)]);
    DatasetReadableAppend(ExplicitLongVRs, ds, [PixelElement(img)]);
  }

  /** Rows and columns read back as the image's height and width, and the pixel
      data holds rows * columns * 3 bytes, as 8-bit RGB requires, while both
      dimensions are below 65536 (beyond that `uint16(...)` wraps). */
  lemma WorkingPixelDataConsistent(patient: PatientInfo, img: Image, date: Instant, time: Instant)
    requires img.width < 0x1_0000 && img.height < 0x1_0000
    ensures var es := WorkingElements(patient, img, date, time);
            && |es| == 19
            && es[12].tag == Tag(0x0028, 0x0010) && DecodeLE16(es[12].value) == img.height
            && es[13].tag == Tag(0x0028, 0x0011) && DecodeLE16(es[13].value) == img.width
            && es[18].tag == PixelDataTag
            && |es[18].value| == DecodeLE16(es[12].value) * DecodeLE16(es[13].value) * 3
  {
    var es := WorkingElements(patient, img, date, time);
    var dims := Dimensions(img.width, img.height);
    assert es[12] == PixelFormatElements("RGB", dims)[3];
    assert es[13] == PixelFormatElements("RGB", dims)[4];
    LE16RoundTrip(img.height);
    LE16RoundTrip(img.width);
    assert img.width * img.height * 3 == img.height * img.width * 3;
  }

  /** The dataset's tags ascend, with the pixel data last. */
  lemma WorkingTagsAscending(patient: PatientInfo, img: Image, date: Instant, time: Instant)
    ensures StrictlyAscending(ExplicitTags(WorkingElements(patient, img, date, time)))
  {
    var ds := WorkingDataset(patient, img, date, time);
    DatasetTagsAscending(WorkingUids, date, time, patient, "RGB", Dimensions(img.width, img.height));
    ExplicitTagsAppend(ds, [PixelElement(img)]);
    assert ExplicitTags([PixelElement(img)]) == [PixelDataTag];
  }

  /** The meta group declares Explicit VR Little Endian, and both SOP instance UIDs agree. */
  lemma WorkingDeclaresExplicitVR(patient: PatientInfo, img: Image, date: Instant, time: Instant)
    ensures MetaElements(WorkingSopInstanceUid, ExplicitVRLittleEndianUid)[3]
            == ExplicitElement(Tag(0x0002, 0x0010), "UI", PadUid(ExplicitVRLittleEndianUid))
    ensures MetaElements(WorkingSopInstanceUid, ExplicitVRLittleEndianUid)[2].value
            == WorkingElements(patient, img, date, time)[1].value
  {
    SopInstancePositions(WorkingSopInstanceUid, ExplicitVRLittleEndianUid, WorkingUids, date, time, patient, "RGB",
                         Dimensions(img.width, img.height));
    assert WorkingElements(patient, img, date, time)[1] == WorkingDataset(patient, img, date, time)[1];
  }

  // ---------------------------------------------------------------------------
  // The writer

  /** The dataset writes of `CreateFromDataURL`, ending with the RGB pixel data. */
  method WriteWorkingDataset(file: ByteWriter, patient: PatientInfo, img: Image, rgb: Bytes, date: Instant, time: Instant)
    requires rgb == RgbPixels(img)
    modifies file
    ensures file.data == old(file.data) + ExplicitStream(ExplicitLongVRs, WorkingElements(patient, img, date, time))
  {
    WriteDataset(file, WorkingUids, date, time, patient, "RGB", Dimensions(img.width, img.height));
    TagExplicit(file, 0x7FE0, 0x0010, "OB", rgb);
    ExplicitStreamSnoc(ExplicitLongVRs, WorkingDataset(patient, img, date, time), PixelElement(img));
  }

  class WorkingDicomWriter {
    var patient: PatientInfo
    var study: StudyInfo

    constructor ()
      ensures patient == EmptyPatient && study == EmptyStudy
    {
      patient := EmptyPatient;
      study := EmptyStudy;
    }

    method SetPatientInfo(p: PatientInfo)
      modifies this
      ensures patient == p && study == old(study)
    {
      patient := p;
    }

    method SetStudyInfo(s: StudyInfo)
      modifies this
      ensures study == s && patient == old(patient)
    {
      study := s;
    }

    /** `CreateFromDataURL`. The base64 decoder and the JPEG decoder are
        passed in (`None` when they fail), as are the outcome of creating the
        file and the two clock readings. The outcome of `MkdirAll` is ignored,
        as in the source. The result is the file's content. */
    method CreateFromDataURL(dataURL: GoString, date: Instant, time: Instant,
                             base64: GoString -> Option<Bytes>, decode: Bytes -> Option<Image>, createOk: bool)
      returns (r: Result<Bytes>)
      ensures !HasPrefix(dataURL, JpegDataUrlPrefix) ==> r == Err("unsupported format")
      ensures r.Ok? <==> (HasPrefix(dataURL, JpegDataUrlPrefix)
                           && base64(TrimPrefix(dataURL, JpegDataUrlPrefix)).Some?
                           && decode(base64(TrimPrefix(dataURL, JpegDataUrlPrefix)).value).Some?
                           && createOk)
      ensures r.Ok? ==>
                var jpeg := base64(TrimPrefix(dataURL, JpegDataUrlPrefix)).value;
                r.value == WorkingFile(patient, decode(jpeg).value, date, time)
    {
      var payload := JpegDataUrlPayload(dataURL);
      if payload.None? {
        return Err("unsupported format");
      }
      var jpegData := base64(payload.value);
      if jpegData.None? {
        return Err("illegal base64 data");
      }
      var img := decode(jpegData.value);
      if img.None? {
        return Err("invalid JPEG format");
      }
      var rgbData := ConvertToRgb(img.value);
      if !createOk {
        return Err("failed to create file");
      }
      var file := new ByteWriter();
      file.Write(Zeros(128));
      file.Write(ToBytes("DICM"));
      assert file.data == FileHeader();
      WriteMeta(file, WorkingGroupLength, WorkingSopInstanceUid, ExplicitVRLittleEndianUid);
      WriteWorkingDataset(file, patient, img.value, rgbData, date, time);
      return Ok(file.data);
    }
  }
}
