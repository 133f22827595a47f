/** `JpegDicomWriter`: writes the JPEG stream as encapsulated pixel data under
    the JPEG Baseline transfer syntax. Both the meta group and the dataset are
    explicit VR. Every UID is "1.2.3.4.<unix seconds>.<nanoseconds>", read
    from the clock when it is needed. */
module JpegDicom {
  import opened GoRuntime
  import opened GoTime
  import opened DicomEncoding
  import opened SimpleDicom
  import opened ExplicitDataset
  import CambridgeStyleDicom

  /** The two readings of `time.Now()` one `generateUID` call makes: the
      first for its seconds, the second for its nanoseconds. */
  datatype UidReading = UidReading(seconds: Instant, nanos: Instant)

  /** `generateUID`. */
  function GenerateUid(t: UidReading): GoString
  {
    "1.2.3.4." + Itoa(t.seconds.unix) + "." + Itoa(t.nanos.nanosecond)
  }

  /** The readings of `time.Now()` that `CreateFromDataURL` makes, in the
      order it makes them: the meta SOP instance UID, the dataset SOP instance
      UID, the study date, the study time, the study UID, the series UID. */
  datatype JpegClock = JpegClock(metaUid: UidReading, sopUid: UidReading, date: Instant, time: Instant,
                                 studyUid: UidReading, seriesUid: UidReading)

  /** The group length the source writes for (0002,0000). */
  const JpegGroupLength: uint32 := 166

  function JpegUids(clock: JpegClock): DatasetUids
  {
    DatasetUids(GenerateUid(clock.sopUid), GenerateUid(clock.studyUid), GenerateUid(clock.seriesUid))
  }

  /** The dataset before the pixel data; the photometric interpretation is YBR_FULL_422. */
  function JpegDataset(patient: PatientInfo, dims: Dimensions, clock: JpegClock): seq<ExplicitElement>
  {
    DatasetElements(JpegUids(clock), clock.date, clock.time, patient, "YBR_FULL_422", dims)
  }

  /** `writeEncapsulatedPixelData`: (7FE0,0010) OB with undefined length, then the items. */
  function EncapsulatedPixelData(jpeg: Bytes): Bytes
  {
    ExplicitPixelHeader() + EncapsulatedItems(jpeg)
  }

  /** The whole file `CreateFromDataURL` writes. */
  function JpegFile(patient: PatientInfo, jpeg: Bytes, dims: Dimensions, clock: JpegClock): Bytes
  {
    FileHeader() + EncodeExplicit(ExplicitLongVRs, GroupLengthElement(JpegGroupLength))
    + MetaBytes(GenerateUid(clock.metaUid), JpegBaselineUid)
    + ExplicitStream(ExplicitLongVRs, JpegDataset(patient, dims, clock)) + EncapsulatedPixelData(jpeg)
  }

  // ---------------------------------------------------------------------------
  // UIDs

  lemma NanosecondDigits(n: int)
    requires 0 <= n < 1_000_000_000
    ensures |Itoa(n)| <= 9
  {
    Pow10Values();
    ItoaLength(n, 9);
  }

  /** A generated UID has at most 38 characters: eight of prefix, at most 20
      for an `int64` number of seconds, a dot and at most nine digits of nanoseconds. */
  lemma GenerateUidLength(t: UidReading)
    ensures |GenerateUid(t)| <= 38
  {
    ItoaInt64Length(t.seconds.unix);
    NanosecondDigits(t.nanos.nanosecond);
  }

  /** Two calls give the same UID only when their seconds and nanoseconds agree. */
  lemma GenerateUidInjective(s: UidReading, t: UidReading)
    requires GenerateUid(s) == GenerateUid(t)
    ensures s.seconds.unix == t.seconds.unix && s.nanos.nanosecond == t.nanos.nanosecond
  {
    var p := "1.2.3.4.";
    var a1, b1 := Itoa(s.seconds.unix), Itoa(s.nanos.nanosecond);
    var a2, b2 := Itoa(t.seconds.unix), Itoa(t.nanos.nanosecond);
    assert GenerateUid(s) == p + (a1 + ['.'] + b1);
    assert GenerateUid(t) == p + (a2 + ['.'] + b2);
    assert a1 + ['.'] + b1 == GenerateUid(s)[|p|..] == GenerateUid(t)[|p|..] == a2 + ['.'] + b2;
    ItoaHasNoDot(s.seconds.unix);
    ItoaHasNoDot(t.seconds.unix);
    SplitAtSeparator(a1, b1, a2, b2, '.');
    ItoaInjective(s.seconds.unix, t.seconds.unix);
    ItoaInjective(s.nanos.nanosecond, t.nanos.nanosecond);
  }

  /** From 1970 on, a generated UID is a valid UID in the sense of section 9.1 of PS3.5. */
  lemma GenerateUidValid(t: UidReading)
    requires t.seconds.unix >= 0
    ensures ValidUid(GenerateUid(t))
  {
    GenerateUidLength(t);
    var p := "1.2.3.4.";
    assert UidChars(p);
    UidCharsAppend(p, Itoa(t.seconds.unix));
    UidCharsAppend(p + Itoa(t.seconds.unix), ".");
    UidCharsAppend(p + Itoa(t.seconds.unix) + ".", Itoa(t.nanos.nanosecond));
  }

  // ---------------------------------------------------------------------------
  // The file

  /** The meta elements take 102 bytes besides the padded SOP instance UID, so
      at most 140 in all: never the 166 the source announces. */
  lemma JpegMetaLength(clock: JpegClock)
    ensures var uid := GenerateUid(clock.metaUid);
            && |MetaBytes(uid, JpegBaselineUid)| == 102 + |PadUid(uid)|
            && |MetaBytes(uid, JpegBaselineUid)| <= 140
            && |MetaBytes(uid, JpegBaselineUid)| != JpegGroupLength as int
  {
    var uid := GenerateUid(clock.metaUid);
    MetaLength(uid, JpegBaselineUid);
    assert |JpegBaselineUid| == 22;
    GenerateUidLength(clock.metaUid);
  }

  /** Where the meta group starts in the file as written. */
  lemma JpegFileSplit(patient: PatientInfo, jpeg: Bytes, dims: Dimensions, clock: JpegClock)
    ensures var f := JpegFile(patient, jpeg, dims, clock);
            var meta := MetaBytes(GenerateUid(clock.metaUid), JpegBaselineUid);
            var rest := ExplicitStream(ExplicitLongVRs, JpegDataset(patient, dims, clock)) + EncapsulatedPixelData(jpeg);
            |f| >= 132 && f[..132] == FileHeader()
            && f[132..] == EncodeExplicit(ExplicitLongVRs, GroupLengthElement(JpegGroupLength)) + meta + rest
  {
    FileHeaderShape();
    FileSplit(FileHeader(), EncodeExplicit(ExplicitLongVRs, GroupLengthElement(JpegGroupLength)),
              MetaBytes(GenerateUid(clock.metaUid), JpegBaselineUid),
              ExplicitStream(ExplicitLongVRs, JpegDataset(patient, dims, clock)), EncapsulatedPixelData(jpeg));
  }

  /** As written, a reader that trusts the group length does not find the meta
      elements followed by the dataset: it runs 166 bytes into a group of at most 140. */
  lemma JpegGroupLengthMisread(patient: PatientInfo, jpeg: Bytes, dims: Dimensions, clock: JpegClock)
    ensures var f := JpegFile(patient, jpeg, dims, clock);
            var rest := ExplicitStream(ExplicitLongVRs, JpegDataset(patient, dims, clock)) + EncapsulatedPixelData(jpeg);
            |f| >= 132
            && ParseMetaGroup(ExplicitLongVRs, f[132..]) != Some((MetaElements(GenerateUid(clock.metaUid), JpegBaselineUid), rest))
  {
    var uid := GenerateUid(clock.metaUid);
    var rest := ExplicitStream(ExplicitLongVRs, JpegDataset(patient, dims, clock)) + EncapsulatedPixelData(jpeg);
    JpegFileSplit(patient, jpeg, dims, clock);
    JpegMetaLength(clock);
    ExplicitVRForms();
    MetaGroupMisread(ExplicitLongVRs, JpegGroupLength as nat, MetaElements(uid, JpegBaselineUid), rest);
  }

  /** As written, the meta group's media storage SOP instance UID (0002,0003)
      and the dataset's SOP instance UID (0008,0018) come from two readings of
      the clock, and differ whenever the readings do. */
  lemma JpegSopInstanceMismatch(patient: PatientInfo, dims: Dimensions, clock: JpegClock)
    requires clock.metaUid.seconds.unix != clock.sopUid.seconds.unix
             || clock.metaUid.nanos.nanosecond != clock.sopUid.nanos.nanosecond
    ensures var meta := MetaElements(GenerateUid(clock.metaUid), JpegBaselineUid);
            var ds := JpegDataset(patient, dims, clock);
            && meta[2] == ExplicitElement(Tag(0x0002, 0x0003), "UI", PadUid(GenerateUid(clock.metaUid)))
            && ds[1] == ExplicitElement(Tag(0x0008, 0x0018), "UI", PadUid(GenerateUid(clock.sopUid)))
            && GenerateUid(clock.metaUid) != GenerateUid(clock.sopUid)
  {
    SopInstancePositions(GenerateUid(clock.metaUid), JpegBaselineUid, JpegUids(clock), clock.date, clock.time,
                         patient, "YBR_FULL_422", dims);
    if GenerateUid(clock.metaUid) == GenerateUid(clock.sopUid) {
      GenerateUidInjective(clock.metaUid, clock.sopUid);
    }
  }

  /** The file as evidently intended: one SOP instance UID for both places,
      and the group length the meta elements actually take. */
  function JpegFileCorrected(patient: PatientInfo, jpeg: Bytes, dims: Dimensions, clock: JpegClock): Bytes
  {
    var uid := GenerateUid(clock.metaUid);
    var meta := MetaBytes(uid, JpegBaselineUid);
    FileHeader() + EncodeExplicit(ExplicitLongVRs, GroupLengthElement(|meta|)) + meta
    + ExplicitStream(ExplicitLongVRs, JpegDataset(patient, dims, clock.(sopUid := clock.metaUid)))
    + EncapsulatedPixelData(jpeg)
  }

  /** The corrected file reads back: the meta elements, the dataset, and the
      items holding the JPEG stream; and both SOP instance UIDs agree. */
  lemma JpegFileCorrectedReadsBack(patient: PatientInfo, jpeg: Bytes, dims: Dimensions, clock: JpegClock)
    requires PatientFits(patient) && |jpeg| < 0x1_0000_0000
    ensures var uid := GenerateUid(clock.metaUid);
            var meta := MetaElements(uid, JpegBaselineUid);
            var ds := JpegDataset(patient, dims, clock.(sopUid := clock.metaUid));
            && ReadExplicitFile(ExplicitLongVRs, JpegFileCorrected(patient, jpeg, dims, clock))
               == Some((meta, ds, EncapsulatedItems(jpeg)))
            && ParseEncapsulatedItems(EncapsulatedItems(jpeg)) == Some(jpeg)
            && meta[2].value == ds[1].value
  {
    var c := clock.(sopUid := clock.metaUid);
    var uid := GenerateUid(clock.metaUid);
    var ds := JpegDataset(patient, dims, c);
    JpegUidsFit(c);
    JpegMetaLength(clock);
    MetaFits(uid, JpegBaselineUid);
    ExplicitVRForms();
    DatasetElementsReadable(JpegUids(c), c.date, c.time, patient, "YBR_FULL_422", dims);
    var tail := EncapsulatedPixelData(jpeg);
    assert tail[..12] == ExplicitPixelHeader() && tail[12..] == EncapsulatedItems(jpeg);
    ExplicitFileReadsBack(ExplicitLongVRs, MetaElements(uid, JpegBaselineUid), ds, tail);
    EncapsulatedItemsRoundTrip(jpeg);
    SopInstancePositions(uid, JpegBaselineUid, JpegUids(c), c.date, c.time, patient, "YBR_FULL_422", dims);
  }

  lemma JpegUidsFit(clock: JpegClock)
    ensures UidsFit(JpegUids(clock)) && |GenerateUid(clock.metaUid)| < 0xFFFF
  {
    GenerateUidLength(clock.metaUid);
    GenerateUidLength(clock.sopUid);
    GenerateUidLength(clock.studyUid);
    GenerateUidLength(clock.seriesUid);
  }

  /** The pixel data element is 36 bytes longer than the JPEG stream: a
      12-byte explicit header with undefined length, then 24 + |jpeg| bytes of items. */
  lemma JpegPixelDataLayout(jpeg: Bytes)
    ensures var b := EncapsulatedPixelData(jpeg);
            && |b| == 36 + |jpeg|
            && b[..4] == TagBytes(PixelDataTag) && b[4..6] == ToBytes("OB") && b[6..8] == [0, 0]
            && b[8..12] == [0xFF, 0xFF, 0xFF, 0xFF]
            && b[12..] == EncapsulatedItems(jpeg)
  {
    EncapsulatedItemsLayout(jpeg);
  }

  /** The dataset's tags ascend, with the pixel data last. */
  lemma JpegTagsAscending(patient: PatientInfo, dims: Dimensions, clock: JpegClock)
    ensures StrictlyAscending(ExplicitTags(JpegDataset(patient, dims, clock)) + [PixelDataTag])
  {
    DatasetTagsAscending(JpegUids(clock), clock.date, clock.time, patient, "YBR_FULL_422", dims);
  }

  /** The meta group declares JPEG Baseline, whose datasets are explicit VR,
      and the dataset is explicit VR. */
  lemma JpegDeclaresJpegBaseline(clock: JpegClock)
    ensures MetaElements(GenerateUid(clock.metaUid), JpegBaselineUid)[3]
            == ExplicitElement(Tag(0x0002, 0x0010), "UI", PadUid(JpegBaselineUid))
  {
  }

  /** This writer and the CamBridge-style writer disagree about UT and OF: here
      a UT element has a 12-byte header with a 32-bit length, there an 8-byte
      header with a 16-bit length. */
  lemma LongVRSetsDiffer()
    ensures "UT" in ExplicitLongVRs && "UT" !in CambridgeStyleDicom.CambridgeLongVRs
    ensures "OF" in ExplicitLongVRs && "OF" !in CambridgeStyleDicom.CambridgeLongVRs
    ensures ExplicitHeaderLength(ExplicitLongVRs, "UT") == 12
    ensures ExplicitHeaderLength(CambridgeStyleDicom.CambridgeLongVRs, "UT") == 8
  {
    assert "UT"[1] != "OB"[1] && "UT"[1] != "OW"[1] && "UT"[1] != "SQ"[1] && "UT"[1] != "UN"[1];
    assert "OF"[1] != "OB"[1] && "OF"[1] != "OW"[1] && "OF"[0] != "SQ"[0] && "OF"[0] != "UN"[0];
  }

  // ---------------------------------------------------------------------------
  // The writer

  class JpegDicomWriter {
    var patient: PatientInfo
    var study: StudyInfo

    constructor ()
      ensures patient == EmptyPatient && study == EmptyStudy
    {
      patient := EmptyPatient;
      study := EmptyStudy;
    }

    method SetPatientInfo(p: PatientInfo)
      modifies this
      ensures patient == p && study == old(study)
    {
      patient := p;
    }

    method GetPatientInfo() returns (p: PatientInfo)
      ensures p == patient
    {
      p := patient;
    }

    method SetStudyInfo(s: StudyInfo)
      modifies this
      ensures study == s && patient == old(patient)
    {
      study := s;
    }

    method GetStudyInfo() returns (s: StudyInfo)
      ensures s == study
    {
      s := study;
    }

    /** `writeEncapsulatedPixelData`. */
    method WriteEncapsulatedPixelData(file: ByteWriter, jpeg: Bytes)
      modifies file
      ensures file.data == old(file.data) + EncapsulatedPixelData(jpeg)
    {
      var group, element, vr, reserved, length := LE16(0x7FE0), LE16(0x0010), ToBytes("OB"), [0x00, 0x00], LE32(0xFFFF_FFFF);
      file.Write(group);
      file.Write(element);
      file.Write(vr);
      file.Write(reserved);
      file.Write(length);
      ExplicitPixelHeaderParts();
      AppendFive(old(file.data), group, element, vr, reserved, length);
      WriteEncapsulatedItems(file, jpeg);
    }

    /** `CreateFromDataURL`. The base64 and JPEG-header decoders are passed in
        (`None` when they fail), as are the outcome of creating the file and
        the clock readings. The outcome of `MkdirAll` is ignored, as in the
        source. The result is the file's content. */
    method CreateFromDataURL(dataURL: GoString, clock: JpegClock,
                             base64: GoString -> Option<Bytes>, decodeConfig: Bytes -> Option<Dimensions>,
                             createOk: bool)
      returns (r: Result<Bytes>)
      ensures !HasPrefix(dataURL, JpegDataUrlPrefix) ==> r == Err("unsupported format")
      ensures r.Ok? <==> (HasPrefix(dataURL, JpegDataUrlPrefix)
                           && base64(TrimPrefix(dataURL, JpegDataUrlPrefix)).Some?
                           && decodeConfig(base64(TrimPrefix(dataURL, JpegDataUrlPrefix)).value).Some?
                           && createOk)
      ensures r.Ok? ==>
                var jpeg := base64(TrimPrefix(dataURL, JpegDataUrlPrefix)).value;
                r.value == JpegFile(patient, jpeg, decodeConfig(jpeg).value, clock)
    {
      var payload := JpegDataUrlPayload(dataURL);
      if payload.None? {
        return Err("unsupported format");
      }
      var jpegData := base64(payload.value);
      if jpegData.None? {
        return Err("illegal base64 data");
      }
      var img := decodeConfig(jpegData.value);
      if img.None? {
        return Err("failed to decode JPEG config");
      }
      if !createOk {
        return Err("failed to create file");
      }
      var file := new ByteWriter();
      file.Write(Zeros(128));
      file.Write(ToBytes("DICM"));
      assert file.data == FileHeader();
      WriteMeta(file, JpegGroupLength, GenerateUid(clock.metaUid), JpegBaselineUid);
      WriteDataset(file, JpegUids(clock), clock.date, clock.time, patient, "YBR_FULL_422", img.value);
      WriteEncapsulatedPixelData(file, jpegData.value);
      return Ok(file.data);
    }
  }
}
