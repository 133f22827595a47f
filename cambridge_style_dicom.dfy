/** `CambridgeStyleDicomWriter`: writes a DICOM file the way CamBridge v1 does.
    The file meta group is explicit VR, buffered first so that its group length
    can be computed. The main dataset is implicit VR. The JPEG stream becomes
    encapsulated pixel data of undefined length. */
module CambridgeStyleDicom {
  import opened GoRuntime
  import opened GoTime
  import opened DicomEncoding
  import opened SimpleDicom

  /** The VRs `writeExplicitVR` writes with two reserved bytes and a 32-bit length. */
  const CambridgeLongVRs: set<GoString> := {"OB", "OW", "SQ", "UN"}

  const CambridgeImplementationUid: GoString := "1.2.276.0.7230010.3.0.3.6.0"

  datatype CambridgeUids = CambridgeUids(sopInstance: GoString, study: GoString, series: GoString)

  /** The clock readings of one `CreateFromDataURL`: the one the UIDs are
      stamped with, then the separate `time.Now()` calls for the study date,
      the content date, the study time and the content time. */
  datatype CambridgeClock = CambridgeClock(uid: Instant, studyDate: Instant, contentDate: Instant,
                                           studyTime: Instant, contentTime: Instant)

  /** `time.Now().Unix() % 10000000000`, with Go's truncating remainder. */
  function UidTimestamp(now: Instant): int
  {
    GoRem(now.unix, 10_000_000_000)
  }

  /** "1.2.276.0.7230010.3.1.<kind>.<timestamp>.<process>.1" */
  function CambridgeUid(kind: GoString, timestamp: int, processId: int): GoString
  {
    "1.2.276.0.7230010.3.1." + kind + "." + Itoa(timestamp) + "." + Itoa(processId) + ".1"
  }

  /** The three UIDs of one file: kind 4 for the SOP instance, 2 for the study,
      3 for the series, all from the same timestamp and process id. */
  function MakeUids(now: Instant, pid: nat): CambridgeUids
  {
    var ts := UidTimestamp(now);
    var p := pid % 10000;
    CambridgeUids(CambridgeUid("4", ts, p), CambridgeUid("2", ts, p), CambridgeUid("3", ts, p))
  }

  /** The meta elements after the group length, in the order written to `metaBuf`. */
  function MetaElements(uids: CambridgeUids): seq<ExplicitElement>
  {
    [ ExplicitElement(Tag(0x0002, 0x0001), "OB", [0x00, 0x01]),
      ExplicitElement(Tag(0x0002, 0x0002), "UI", PadUid(SecondaryCaptureUid)),
      ExplicitElement(Tag(0x0002, 0x0003), "UI", PadUid(uids.sopInstance)),
      ExplicitElement(Tag(0x0002, 0x0010), "UI", PadUid(JpegBaselineUid)),
      ExplicitElement(Tag(0x0002, 0x0012), "UI", PadUid(CambridgeImplementationUid)),
      ExplicitElement(Tag(0x0002, 0x0013), "SH", PadText("SMARTBOX_1.0")) ]
  }

  function MetaBytes(uids: CambridgeUids): Bytes
  {
    ExplicitStream(CambridgeLongVRs, MetaElements(uids))
  }



  /** Character set, image type and the SOP class and instance UIDs. */
  function InstanceElements(uids: CambridgeUids): seq<ImplicitElement>
  {
    [ ImplicitElement(Tag(0x0008, 0x0005), PadText("ISO_IR 192")),
      ImplicitElement(Tag(0x0008, 0x0008), PadText("ORIGINAL\\PRIMARY")),
      ImplicitElement(Tag(0x0008, 0x0016), PadUid(SecondaryCaptureUid)),
      ImplicitElement(Tag(0x0008, 0x0018), PadUid(uids.sopInstance)) ]
  }

  /** Study and content dates and times, each from its own clock reading. */
  function DateTimeElements(clock: CambridgeClock): seq<ImplicitElement>
  {
    [ ImplicitElement(Tag(0x0008, 0x0020), PadText(FormatDate(clock.studyDate))),
      ImplicitElement(Tag(0x0008, 0x0023), PadText(FormatDate(clock.contentDate))),
      ImplicitElement(Tag(0x0008, 0x0030), PadText(FormatClock(clock.studyTime))),
      ImplicitElement(Tag(0x0008, 0x0033), PadText(FormatClock(clock.contentTime))) ]
  }

  /** Accession number, modality, conversion type and manufacturer. */
  function StudyElements(study: StudyInfo): seq<ImplicitElement>
  {
    [ ImplicitElement(Tag(0x0008, 0x0050), PadText(study.accessionNumber)),
      ImplicitElement(Tag(0x0008, 0x0060), PadText("OT")),
      ImplicitElement(Tag(0x0008, 0x0064), PadText("DI")),
      ImplicitElement(Tag(0x0008, 0x0070), PadText("CIRSS")) ]
  }

  /** Referring physician, study description and series description. */
  function DescriptionElements(study: StudyInfo): seq<ImplicitElement>
  {
    [ ImplicitElement(Tag(0x0008, 0x0090), PadText(study.referringPhysician)),
      ImplicitElement(Tag(0x0008, 0x1030), PadText(study.studyDescription)),
      ImplicitElement(Tag(0x0008, 0x103E), PadText("SmartBox Capture")) ]
  }

  /** Patient name, id, birth date and sex. */
  function PatientElements(patient: PatientInfo): seq<ImplicitElement>
  {
    [ ImplicitElement(Tag(0x0010, 0x0010), PadText(patient.name)),
      ImplicitElement(Tag(0x0010, 0x0020), PadText(patient.id)),
      ImplicitElement(Tag(0x0010, 0x0030), PadText(patient.birthDate)),
      ImplicitElement(Tag(0x0010, 0x0040), PadText(patient.sex)) ]
  }

  /** Study and series instance UIDs, study id, series and instance numbers. */
  function RelationshipElements(uids: CambridgeUids): seq<ImplicitElement>
  {
    [ ImplicitElement(Tag(0x0020, 0x000D), PadUid(uids.study)),
      ImplicitElement(Tag(0x0020, 0x000E), PadUid(uids.series)),
      ImplicitElement(Tag(0x0020, 0x0010), PadText("1")),
      ImplicitElement(Tag(0x0020, 0x0011), PadText("1")),
      ImplicitElement(Tag(0x0020, 0x0013), PadText("1")) ]
  }

  /** Samples per pixel, photometric interpretation, planar configuration,
      rows and columns; rows and columns are the decoder's `int`s converted with `uint16(...)`. */
  function PixelFormatElements(dims: Dimensions): seq<ImplicitElement>
  {
    [ ImplicitElement(Tag(0x0028, 0x0002), LE16(3)),
      ImplicitElement(Tag(0x0028, 0x0004), PadText("YBR_FULL_422")),
      ImplicitElement(Tag(0x0028, 0x0006), LE16(0)),
      ImplicitElement(Tag(0x0028, 0x0010), LE16(ToUint16(dims.height))),
      ImplicitElement(Tag(0x0028, 0x0011), LE16(ToUint16(dims.width))) ]
  }

  /** Bits allocated, bits stored, high bit and pixel representation. */
  function BitsElements(): seq<ImplicitElement>
  {
    [ ImplicitElement(Tag(0x0028, 0x0100), LE16(8)),
      ImplicitElement(Tag(0x0028, 0x0101), LE16(8)),
      ImplicitElement(Tag(0x0028, 0x0102), LE16(7)),
      ImplicitElement(Tag(0x0028, 0x0103), LE16(0)) ]
  }

  /** The main dataset before the pixel data, in the order written. */
  function MainElements(patient: PatientInfo, study: StudyInfo, clock: CambridgeClock, uids: CambridgeUids,
                        dims: Dimensions): seq<ImplicitElement>
  {
    InstanceElements(uids) + DateTimeElements(clock) + StudyElements(study) + DescriptionElements(study)
    + PatientElements(patient) + RelationshipElements(uids) + PixelFormatElements(dims) + BitsElements()
  }

  /** (7FE0,0010) with undefined length, then the encapsulated items. */
  function PixelData(jpeg: Bytes): Bytes
  {
    ImplicitPixelHeader() + EncapsulatedItems(jpeg)
  }

  /** The whole file `CreateFromDataURL` writes. */
  function CambridgeFile(patient: PatientInfo, study: StudyInfo, jpeg: Bytes, dims: Dimensions,
                         clock: CambridgeClock, pid: nat): Bytes
  {
    var uids := MakeUids(clock.uid, pid);
    var meta := MetaBytes(uids);
    FileHeader() + EncodeExplicit(CambridgeLongVRs, GroupLengthElement(|meta|)) + meta
    + ImplicitStream(MainElements(patient, study, clock, uids, dims)) + PixelData(jpeg)
  }

  // ---------------------------------------------------------------------------
  // Properties of the file

  /** Which of the VRs the writer uses take the long form. */
  lemma CambridgeVRForms()
    ensures "OB" in CambridgeLongVRs
    ensures "UI" !in CambridgeLongVRs && "SH" !in CambridgeLongVRs && "UL" !in CambridgeLongVRs
  {
    assert "UI"[0] != "OB"[0] && "UI"[0] != "OW"[0] && "UI"[0] != "SQ"[0];
    assert "UI"[1] != "UN"[1];
    assert "SH"[0] != "OB"[0] && "SH"[1] != "SQ"[1];
    assert "UL"[1] != "UN"[1];
  }

  lemma CambridgeUidLength(kind: GoString, timestamp: int, processId: int)
    requires |kind| == 1
    requires -10_000_000_000 < timestamp < 10_000_000_000 && 0 <= processId < 10_000
    ensures var u := CambridgeUid(kind, timestamp, processId);
            |u| <= 42 && u[22] == kind[0]
  {
    TimestampDigits(timestamp);
    ProcessIdDigits(processId);
  }

  lemma TimestampDigits(timestamp: int)
    requires -10_000_000_000 < timestamp < 10_000_000_000
    ensures |Itoa(timestamp)| <= 11
  {
    Pow10Values();
    ItoaLength(timestamp, 10);
  }

  lemma ProcessIdDigits(processId: int)
    requires 0 <= processId < 10_000
    ensures |Itoa(processId)| <= 4
  {
    Pow10Values();
    ItoaLength(processId, 4);
  }

  lemma CambridgeUidChars(kind: GoString, timestamp: nat, processId: nat)
    requires UidChars(kind)
    ensures UidChars(CambridgeUid(kind, timestamp, processId))
  {
    var a := "1.2.276.0.7230010.3.1.";
    assert UidChars(a);
    UidCharsAppend(a, kind);
    var b := a + kind;
    UidCharsAppend(b, ".");
    var c := b + ".";
    var t := Itoa(timestamp);
    UidCharsAppend(c, t);
    var d := c + t;
    UidCharsAppend(d, ".");
    var e := d + ".";
    var q := Itoa(processId);
    UidCharsAppend(e, q);
    UidCharsAppend(e + q, ".1");
  }

  /** The three UIDs of a file are distinct and at most 42 characters long (PS3.5
      allows 64); they consist of digits and dots only when the clock is at or
      after 1970, since a negative timestamp prints with a minus sign. */
  lemma CambridgeUidsWellFormed(now: Instant, pid: nat)
    ensures var u := MakeUids(now, pid);
            && |u.sopInstance| <= 42 && |u.study| <= 42 && |u.series| <= 42
            && u.sopInstance != u.study && u.sopInstance != u.series && u.study != u.series
    ensures now.unix >= 0 ==>
            var u := MakeUids(now, pid);
            ValidUid(u.sopInstance) && ValidUid(u.study) && ValidUid(u.series)
  {
    var ts := UidTimestamp(now);
    var p := pid % 10000;
    CambridgeUidLength("4", ts, p);
    CambridgeUidLength("2", ts, p);
    CambridgeUidLength("3", ts, p);
    if now.unix >= 0 {
      CambridgeUidChars("4", ts, p);
      CambridgeUidChars("2", ts, p);
      CambridgeUidChars("3", ts, p);
    }
  }

  /** The meta elements take 142 bytes besides the padded SOP instance UID. */
  lemma CambridgeMetaLength(uids: CambridgeUids)
    ensures |MetaBytes(uids)| == 142 + |PadUid(uids.sopInstance)|
  {
    var es := MetaElements(uids);
    MetaElementLengths(uids);
    assert es == es[..5] + [es[5]];
    ExplicitStreamSnoc(CambridgeLongVRs, es[..5], es[5]);
    assert es[..5] == es[..4] + [es[4]];
    ExplicitStreamSnoc(CambridgeLongVRs, es[..4], es[4]);
    assert es[..4] == es[..3] + [es[3]];
    ExplicitStreamSnoc(CambridgeLongVRs, es[..3], es[3]);
    assert es[..3] == es[..2] + [es[2]];
    ExplicitStreamSnoc(CambridgeLongVRs, es[..2], es[2]);
    assert es[..2] == es[..1] + [es[1]];
    ExplicitStreamSnoc(CambridgeLongVRs, es[..1], es[1]);
    assert es[..1] == [] + [es[0]];
    ExplicitStreamSnoc(CambridgeLongVRs, [], es[0]);
  }

  lemma MetaElementLengths(uids: CambridgeUids)
    ensures var es := MetaElements(uids);
            && |EncodeExplicit(CambridgeLongVRs, es[0])| == 14
            && |EncodeExplicit(CambridgeLongVRs, es[1])| == 34
            && |EncodeExplicit(CambridgeLongVRs, es[2])| == 8 + |PadUid(uids.sopInstance)|
            && |EncodeExplicit(CambridgeLongVRs, es[3])| == 30
            && |EncodeExplicit(CambridgeLongVRs, es[4])| == 36
            && |EncodeExplicit(CambridgeLongVRs, es[5])| == 20
  {
    CambridgeVRForms();
    assert |SecondaryCaptureUid| == 25 && |JpegBaselineUid| == 22 && |CambridgeImplementationUid| == 27;
  }

  /** Every UID fits a UI element (PS3.5 allows 64 characters). */
  predicate UidsFit(uids: CambridgeUids) {
    |uids.sopInstance| <= 64 && |uids.study| <= 64 && |uids.series| <= 64
  }

  /** Each written text field fits a 32-bit length once padded. */
  predicate PatientFits(patient: PatientInfo) {
    && |patient.name| < 0xFFFF_FFFF && |patient.id| < 0xFFFF_FFFF
    && |patient.birthDate| < 0xFFFF_FFFF && |patient.sex| < 0xFFFF_FFFF
  }

  predicate StudyFits(study: StudyInfo) {
    |study.accessionNumber| < 0xFFFF_FFFF && |study.referringPhysician| < 0xFFFF_FFFF
    && |study.studyDescription| < 0xFFFF_FFFF
  }

  lemma CambridgeMetaFits(uids: CambridgeUids)
    requires UidsFit(uids)
    ensures AllExplicitFit(CambridgeLongVRs, MetaElements(uids))
  {
    CambridgeVRForms();
  }

  lemma InstanceElementsFit(uids: CambridgeUids)
    requires UidsFit(uids)
    ensures AllImplicitFit(InstanceElements(uids))
  {
  }

  lemma DateTimeElementsFit(clock: CambridgeClock)
    ensures AllImplicitFit(DateTimeElements(clock))
  {
  }

  lemma StudyElementsFit(study: StudyInfo)
    requires StudyFits(study)
    ensures AllImplicitFit(StudyElements(study))
  {
  }

  lemma DescriptionElementsFit(study: StudyInfo)
    requires StudyFits(study)
    ensures AllImplicitFit(DescriptionElements(study))
  {
  }

  lemma PatientElementsFit(patient: PatientInfo)
    requires PatientFits(patient)
    ensures AllImplicitFit(PatientElements(patient))
  {
  }

  lemma RelationshipElementsFit(uids: CambridgeUids)
    requires UidsFit(uids)
    ensures AllImplicitFit(RelationshipElements(uids))
  {
  }

  lemma PixelFormatElementsFit(dims: Dimensions)
    ensures AllImplicitFit(PixelFormatElements(dims))
  {
  }

  lemma BitsElementsFit()
    ensures AllImplicitFit(BitsElements())
  {
  }

  lemma {:induction false} MainElementsFit(patient: PatientInfo, study: StudyInfo, clock: CambridgeClock, uids: CambridgeUids,
                                           dims: Dimensions)
    requires PatientFits(patient) && StudyFits(study) && UidsFit(uids)
    ensures AllImplicitFit(MainElements(patient, study, clock, uids, dims))
  {
    InstanceElementsFit(uids);
    DateTimeElementsFit(clock);
    StudyElementsFit(study);
    DescriptionElementsFit(study);
    PatientElementsFit(patient);
    RelationshipElementsFit(uids);
    PixelFormatElementsFit(dims);
    BitsElementsFit();
    var a, b, c, d := InstanceElements(uids), DateTimeElements(clock), StudyElements(study), DescriptionElements(study);
    var e, f, g, h := PatientElements(patient), RelationshipElements(uids), PixelFormatElements(dims), BitsElements();
    AllImplicitFitAppend(a, b);
    AllImplicitFitAppend(a + b, c);
    AllImplicitFitAppend(a + b + c, d);
    AllImplicitFitAppend(a + b + c + d, e);
    AllImplicitFitAppend(a + b + c + d + e, f);
    AllImplicitFitAppend(a + b + c + d + e + f, g);
    AllImplicitFitAppend(a + b + c + d + e + f + g, h);
  }

  lemma InstanceElementsAscending(uids: CambridgeUids)
    ensures ImplicitTags(InstanceElements(uids)) == [Tag(0x0008, 0x0005), Tag(0x0008, 0x0008), Tag(0x0008, 0x0016), Tag(0x0008, 0x0018)]
    ensures StrictlyAscending(ImplicitTags(InstanceElements(uids)))
  {
    AdjacentAscendingIsSorted(ImplicitTags(InstanceElements(uids)));
  }

  lemma DateTimeElementsAscending(clock: CambridgeClock)
    ensures ImplicitTags(DateTimeElements(clock)) == [Tag(0x0008, 0x0020), Tag(0x0008, 0x0023), Tag(0x0008, 0x0030), Tag(0x0008, 0x0033)]
    ensures StrictlyAscending(ImplicitTags(DateTimeElements(clock)))
  {
    AdjacentAscendingIsSorted(ImplicitTags(DateTimeElements(clock)));
  }

  lemma StudyElementsAscending(study: StudyInfo)
    ensures ImplicitTags(StudyElements(study)) == [Tag(0x0008, 0x0050), Tag(0x0008, 0x0060), Tag(0x0008, 0x0064), Tag(0x0008, 0x0070)]
    ensures StrictlyAscending(ImplicitTags(StudyElements(study)))
  {
    AdjacentAscendingIsSorted(ImplicitTags(StudyElements(study)));
  }

  lemma DescriptionElementsAscending(study: StudyInfo)
    ensures ImplicitTags(DescriptionElements(study)) == [Tag(0x0008, 0x0090), Tag(0x0008, 0x1030), Tag(0x0008, 0x103E)]
    ensures StrictlyAscending(ImplicitTags(DescriptionElements(study)))
  {
    AdjacentAscendingIsSorted(ImplicitTags(DescriptionElements(study)));
  }

  lemma PatientElementsAscending(patient: PatientInfo)
    ensures ImplicitTags(PatientElements(patient)) == [Tag(0x0010, 0x0010), Tag(0x0010, 0x0020), Tag(0x0010, 0x0030), Tag(0x0010, 0x0040)]
    ensures StrictlyAscending(ImplicitTags(PatientElements(patient)))
  {
    AdjacentAscendingIsSorted(ImplicitTags(PatientElements(patient)));
  }

  lemma RelationshipElementsAscending(uids: CambridgeUids)
    ensures ImplicitTags(RelationshipElements(uids)) == [Tag(0x0020, 0x000D), Tag(0x0020, 0x000E), Tag(0x0020, 0x0010), Tag(0x0020, 0x0011), Tag(0x0020, 0x0013)]
    ensures StrictlyAscending(ImplicitTags(RelationshipElements(uids)))
  {
    AdjacentAscendingIsSorted(ImplicitTags(RelationshipElements(uids)));
  }

  lemma PixelFormatElementsAscending(dims: Dimensions)
    ensures ImplicitTags(PixelFormatElements(dims)) == [Tag(0x0028, 0x0002), Tag(0x0028, 0x0004), Tag(0x0028, 0x0006), Tag(0x0028, 0x0010), Tag(0x0028, 0x0011)]
    ensures StrictlyAscending(ImplicitTags(PixelFormatElements(dims)))
  {
    AdjacentAscendingIsSorted(ImplicitTags(PixelFormatElements(dims)));
  }

  lemma BitsElementsAscending()
    ensures ImplicitTags(BitsElements()) == [Tag(0x0028, 0x0100), Tag(0x0028, 0x0101), Tag(0x0028, 0x0102), Tag(0x0028, 0x0103)]
    ensures StrictlyAscending(ImplicitTags(BitsElements()))
  {
    AdjacentAscendingIsSorted(ImplicitTags(BitsElements()));
  }

  /** The dataset's tags ascend, from (0008,0005) to pixel data (7FE0,0010) last. */
  lemma CambridgeMainTagsAscending(patient: PatientInfo, study: StudyInfo, clock: CambridgeClock, uids: CambridgeUids,
                                   dims: Dimensions)
    ensures StrictlyAscending(ImplicitTags(MainElements(patient, study, clock, uids, dims)) + [PixelDataTag])
  {
    InstanceElementsAscending(uids);
    DateTimeElementsAscending(clock);
    StudyElementsAscending(study);
    DescriptionElementsAscending(study);
    PatientElementsAscending(patient);
    RelationshipElementsAscending(uids);
    PixelFormatElementsAscending(dims);
    BitsElementsAscending();
    var a, b, c, d := InstanceElements(uids), DateTimeElements(clock), StudyElements(study), DescriptionElements(study);
    var e, f, g, h := PatientElements(patient), RelationshipElements(uids), PixelFormatElements(dims), BitsElements();
    ImplicitTagsAppend(a, b);
    AscendingAppend(ImplicitTags(a), ImplicitTags(b));
    ImplicitTagsAppend(a + b, c);
    AscendingAppend(ImplicitTags(a) + ImplicitTags(b), ImplicitTags(c));
    ImplicitTagsAppend(a + b + c, d);
    AscendingAppend(ImplicitTags(a) + ImplicitTags(b) + ImplicitTags(c), ImplicitTags(d));
    ImplicitTagsAppend(a + b + c + d, e);
    AscendingAppend(ImplicitTags(a) + ImplicitTags(b) + ImplicitTags(c) + ImplicitTags(d), ImplicitTags(e));
    ImplicitTagsAppend(a + b + c + d + e, f);
    AscendingAppend(ImplicitTags(a) + ImplicitTags(b) + ImplicitTags(c) + ImplicitTags(d) + ImplicitTags(e), ImplicitTags(f));
    ImplicitTagsAppend(a + b + c + d + e + f, g);
    AscendingAppend(ImplicitTags(a) + ImplicitTags(b) + ImplicitTags(c) + ImplicitTags(d) + ImplicitTags(e) + ImplicitTags(f), ImplicitTags(g));
    ImplicitTagsAppend(a + b + c + d + e + f + g, h);
    AscendingAppend(ImplicitTags(a) + ImplicitTags(b) + ImplicitTags(c) + ImplicitTags(d) + ImplicitTags(e) + ImplicitTags(f) + ImplicitTags(g), ImplicitTags(h));
    AscendingAppend(ImplicitTags(a) + ImplicitTags(b) + ImplicitTags(c) + ImplicitTags(d) + ImplicitTags(e) + ImplicitTags(f) + ImplicitTags(g) + ImplicitTags(h), [PixelDataTag]);
  }

  /** No dataset element is pixel data, and each fits its length field. */
  lemma MainElementsReadable(patient: PatientInfo, study: StudyInfo, clock: CambridgeClock, uids: CambridgeUids,
                             dims: Dimensions)
    requires PatientFits(patient) && StudyFits(study) && UidsFit(uids)
    ensures var main := MainElements(patient, study, clock, uids, dims);
            forall i | 0 <= i < |main| :: ImplicitFits(main[i]) && main[i].tag != PixelDataTag
  {
    var main := MainElements(patient, study, clock, uids, dims);
    MainElementsFit(patient, study, clock, uids, dims);
    CambridgeMainTagsAscending(patient, study, clock, uids, dims);
    var ts := ImplicitTags(main) + [PixelDataTag];
    forall i | 0 <= i < |main| ensures main[i].tag != PixelDataTag {
      assert ts[i] == main[i].tag && ts[|main|] == PixelDataTag;
    }
  }

  /** A reader that trusts the group length recovers the meta elements, the
      dataset and the JPEG stream the writer put in. */
  lemma CambridgeFileReadsBack(patient: PatientInfo, study: StudyInfo, jpeg: Bytes, dims: Dimensions,
                               clock: CambridgeClock, pid: nat)
    requires PatientFits(patient) && StudyFits(study) && |jpeg| < 0x1_0000_0000
    ensures var uids := MakeUids(clock.uid, pid);
            ReadImplicitFile(CambridgeLongVRs, CambridgeFile(patient, study, jpeg, dims, clock, pid))
            == Some((MetaElements(uids), MainElements(patient, study, clock, uids, dims), jpeg))
  {
    var uids := MakeUids(clock.uid, pid);
    CambridgeUidsWellFormed(clock.uid, pid);
    CambridgeMetaFits(uids);
    CambridgeMetaLength(uids);
    CambridgeVRForms();
    var main := MainElements(patient, study, clock, uids, dims);
    MainElementsReadable(patient, study, clock, uids, dims);
    var meta := MetaBytes(uids);
    var gl := EncodeExplicit(CambridgeLongVRs, GroupLengthElement(|meta|));
    var items := EncapsulatedItems(jpeg);
    FileHeaderShape();
    FileSplit(FileHeader(), gl, meta, ImplicitStream(main), PixelData(jpeg));
    assert ImplicitStream(main) + PixelData(jpeg) == ImplicitStream(main) + ImplicitPixelHeader() + items;
    MetaGroupRoundTrip(CambridgeLongVRs, MetaElements(uids), ImplicitStream(main) + ImplicitPixelHeader() + items);
    ImplicitDatasetRoundTrip(main, items);
    EncapsulatedItemsRoundTrip(jpeg);
  }

  /** The pixel data element is 32 bytes longer than the JPEG stream: an 8-byte
      header with undefined length, then the 24 + |jpeg| bytes of items. */
  lemma CambridgePixelDataLayout(jpeg: Bytes)
    ensures var b := PixelData(jpeg);
            && |b| == 32 + |jpeg|
            && b[..4] == TagBytes(PixelDataTag) && b[4..8] == [0xFF, 0xFF, 0xFF, 0xFF]
            && b[8..] == EncapsulatedItems(jpeg)
  {
    EncapsulatedItemsLayout(jpeg);
  }

  /** The meta group announces JPEG Baseline, a transfer syntax whose
      datasets are explicit VR little endian. */
  lemma CambridgeDeclaresJpegBaseline(uids: CambridgeUids)
    ensures MetaElements(uids)[3] == ExplicitElement(Tag(0x0002, 0x0010), "UI", PadUid(JpegBaselineUid))
  {
  }

  /** (0008,0005) "ISO_IR 192", the element the dataset opens with. */
  const CharacterSetElement := ImplicitElement(Tag(0x0008, 0x0005), PadText("ISO_IR 192"))

  lemma MainStartsWithCharacterSet(patient: PatientInfo, study: StudyInfo, clock: CambridgeClock, uids: CambridgeUids,
                                   dims: Dimensions)
    ensures |MainElements(patient, study, clock, uids, dims)| > 0
    ensures MainElements(patient, study, clock, uids, dims)[0] == CharacterSetElement
  {
  }

  /** Yet the dataset is implicit VR: where an explicit reader looks for the
      first element's VR it finds the low bytes of its 32-bit length, 0x0A and 0x00. */
  lemma CambridgeDatasetIsImplicit(main: seq<ImplicitElement>)
    requires |main| > 0 && main[0] == CharacterSetElement
    ensures var ds := ImplicitStream(main);
            |ds| >= 8 && ds[..4] == TagBytes(Tag(0x0008, 0x0005)) && ds[4] == 0x0A && ds[5] == 0x00
  {
    ImplicitStreamStart(main);
    assert |"ISO_IR 192"| == 10;
  }

  class CambridgeStyleDicomWriter {
    var patient: PatientInfo
    var study: StudyInfo

    constructor ()
      ensures patient == EmptyPatient && study == EmptyStudy
    {
      patient := EmptyPatient;
      study := EmptyStudy;
    }

    method SetPatientInfo(p: PatientInfo)
      modifies this
      ensures patient == p && study == old(study)
    {
      patient := p;
    }

    method SetStudyInfo(s: StudyInfo)
      modifies this
      ensures study == s && patient == old(patient)
    {
      study := s;
    }

    /** `writeExplicitVR`: tag, VR, then two reserved bytes and a 32-bit
        length for OB, OW, SQ and UN, or a 16-bit length for every other VR. */
    method WriteExplicitVR(w: ByteWriter, group: uint16, element: uint16, vr: GoString, data: Bytes)
      modifies w
      ensures w.data == old(w.data) + EncodeExplicit(CambridgeLongVRs, ExplicitElement(Tag(group, element), vr, data))
    {
      w.Write(LE16(group));
      w.Write(LE16(element));
      w.Write(ToBytes(vr));
      if vr == "OB" || vr == "OW" || vr == "SQ" || vr == "UN" {
        w.Write([0x00, 0x00]);
        w.Write(LE32(ToUint32(|data|)));
      } else {
        w.Write(LE16(ToUint16(|data|)));
      }
      w.Write(data);
    }

    /** `writeImplicitVR`: tag, 32-bit length, value. */
    method WriteImplicitVR(w: ByteWriter, group: uint16, element: uint16, data: Bytes)
      modifies w
      ensures w.data == old(w.data) + EncodeImplicit(ImplicitElement(Tag(group, element), data))
    {
      w.Write(LE16(group));
      w.Write(LE16(element));
      w.Write(LE32(ToUint32(|data|)));
      w.Write(data);
    }

    method WriteMeta(metaBuf: ByteWriter, uids: CambridgeUids)
      modifies metaBuf
      ensures metaBuf.data == old(metaBuf.data) + MetaBytes(uids)
    {
      ghost var start := metaBuf.data;
      ghost var es := MetaElements(uids);
      WriteExplicitVR(metaBuf, 0x0002, 0x0001, "OB", [0x00, 0x01]);
      WriteExplicitVR(metaBuf, 0x0002, 0x0002, "UI", PadUid(SecondaryCaptureUid));
      WriteExplicitVR(metaBuf, 0x0002, 0x0003, "UI", PadUid(uids.sopInstance));
      WriteExplicitVR(metaBuf, 0x0002, 0x0010, "UI", PadUid(JpegBaselineUid));
      WriteExplicitVR(metaBuf, 0x0002, 0x0012, "UI", PadUid(CambridgeImplementationUid));
      WriteExplicitVR(metaBuf, 0x0002, 0x0013, "SH", PadText("SMARTBOX_1.0"));
      ExplicitStreamSix(CambridgeLongVRs, es);
      AppendSix(start, EncodeExplicit(CambridgeLongVRs, es[0]), EncodeExplicit(CambridgeLongVRs, es[1]), EncodeExplicit(CambridgeLongVRs, es[2]), EncodeExplicit(CambridgeLongVRs, es[3]), EncodeExplicit(CambridgeLongVRs, es[4]), EncodeExplicit(CambridgeLongVRs, es[5]));
    }

    method WriteInstance(file: ByteWriter, uids: CambridgeUids)
      modifies file
      ensures file.data == old(file.data) + ImplicitStream(InstanceElements(uids))
    {
      ghost var start := file.data;
      ghost var es := InstanceElements(uids);
      WriteImplicitVR(file, 0x0008, 0x0005, PadText("ISO_IR 192"));
      WriteImplicitVR(file, 0x0008, 0x0008, PadText("ORIGINAL\\PRIMARY"));
      WriteImplicitVR(file, 0x0008, 0x0016, PadUid(SecondaryCaptureUid));
      WriteImplicitVR(file, 0x0008, 0x0018, PadUid(uids.sopInstance));
      ImplicitStreamFour(es);
      AppendFour(start, EncodeImplicit(es[0]), EncodeImplicit(es[1]), EncodeImplicit(es[2]), EncodeImplicit(es[3]));
    }

    method WriteDateTime(file: ByteWriter, clock: CambridgeClock)
      modifies file
      ensures file.data == old(file.data) + ImplicitStream(DateTimeElements(clock))
    {
      ghost var start := file.data;
      ghost var es := DateTimeElements(clock);
      WriteImplicitVR(file, 0x0008, 0x0020, PadText(FormatDate(clock.studyDate)));
      WriteImplicitVR(file, 0x0008, 0x0023, PadText(FormatDate(clock.contentDate)));
      WriteImplicitVR(file, 0x0008, 0x0030, PadText(FormatClock(clock.studyTime)));
      WriteImplicitVR(file, 0x0008, 0x0033, PadText(FormatClock(clock.contentTime)));
      ImplicitStreamFour(es);
      AppendFour(start, EncodeImplicit(es[0]), EncodeImplicit(es[1]), EncodeImplicit(es[2]), EncodeImplicit(es[3]));
    }

    method WriteStudy(file: ByteWriter)
      modifies file
      ensures file.data == old(file.data) + ImplicitStream(StudyElements(study))
    {
      ghost var start := file.data;
      ghost var es := StudyElements(study);
      WriteImplicitVR(file, 0x0008, 0x0050, PadText(study.accessionNumber));
      WriteImplicitVR(file, 0x0008, 0x0060, PadText("OT"));
      WriteImplicitVR(file, 0x0008, 0x0064, PadText("DI"));
      WriteImplicitVR(file, 0x0008, 0x0070, PadText("CIRSS"));
      ImplicitStreamFour(es);
      AppendFour(start, EncodeImplicit(es[0]), EncodeImplicit(es[1]), EncodeImplicit(es[2]), EncodeImplicit(es[3]));
    }

    method WriteDescription(file: ByteWriter)
      modifies file
      ensures file.data == old(file.data) + ImplicitStream(DescriptionElements(study))
    {
      ghost var start := file.data;
      ghost var es := DescriptionElements(study);
      WriteImplicitVR(file, 0x0008, 0x0090, PadText(study.referringPhysician));
      WriteImplicitVR(file, 0x0008, 0x1030, PadText(study.studyDescription));
      WriteImplicitVR(file, 0x0008, 0x103E, PadText("SmartBox Capture"));
      ImplicitStreamThree(es);
      AppendThree(start, EncodeImplicit(es[0]), EncodeImplicit(es[1]), EncodeImplicit(es[2]));
    }

    method WritePatient(file: ByteWriter)
      modifies file
      ensures file.data == old(file.data) + ImplicitStream(PatientElements(patient))
    {
      ghost var start := file.data;
      ghost var es := PatientElements(patient);
      WriteImplicitVR(file, 0x0010, 0x0010, PadText(patient.name));
      WriteImplicitVR(file, 0x0010, 0x0020, PadText(patient.id));
      WriteImplicitVR(file, 0x0010, 0x0030, PadText(patient.birthDate));
      WriteImplicitVR(file, 0x0010, 0x0040, PadText(patient.sex));
      ImplicitStreamFour(es);
      AppendFour(start, EncodeImplicit(es[0]), EncodeImplicit(es[1]), EncodeImplicit(es[2]), EncodeImplicit(es[3]));
    }

    method WriteRelationship(file: ByteWriter, uids: CambridgeUids)
      modifies file
      ensures file.data == old(file.data) + ImplicitStream(RelationshipElements(uids))
    {
      ghost var start := file.data;
      ghost var es := RelationshipElements(uids);
      WriteImplicitVR(file, 0x0020, 0x000D, PadUid(uids.study));
      WriteImplicitVR(file, 0x0020, 0x000E, PadUid(uids.series));
      WriteImplicitVR(file, 0x0020, 0x0010, PadText("1"));
      WriteImplicitVR(file, 0x0020, 0x0011, PadText("1"));
      WriteImplicitVR(file, 0x0020, 0x0013, PadText("1"));
      ImplicitStreamFive(es);
      AppendFive(start, EncodeImplicit(es[0]), EncodeImplicit(es[1]), EncodeImplicit(es[2]), EncodeImplicit(es[3]), EncodeImplicit(es[4]));
    }

    method WritePixelFormat(file: ByteWriter, dims: Dimensions)
      modifies file
      ensures file.data == old(file.data) + ImplicitStream(PixelFormatElements(dims))
    {
      ghost var start := file.data;
      ghost var es := PixelFormatElements(dims);
      WriteImplicitVR(file, 0x0028, 0x0002, LE16(3));
      WriteImplicitVR(file, 0x0028, 0x0004, PadText("YBR_FULL_422"));
      WriteImplicitVR(file, 0x0028, 0x0006, LE16(0));
      WriteImplicitVR(file, 0x0028, 0x0010, LE16(ToUint16(dims.height)));
      WriteImplicitVR(file, 0x0028, 0x0011, LE16(ToUint16(dims.width)));
      ImplicitStreamFive(es);
      AppendFive(start, EncodeImplicit(es[0]), EncodeImplicit(es[1]), EncodeImplicit(es[2]), EncodeImplicit(es[3]), EncodeImplicit(es[4]));
    }

    method WriteBits(file: ByteWriter)
      modifies file
      ensures file.data == old(file.data) + ImplicitStream(BitsElements())
    {
      ghost var start := file.data;
      ghost var es := BitsElements();
      WriteImplicitVR(file, 0x0028, 0x0100, LE16(8));
      WriteImplicitVR(file, 0x0028, 0x0101, LE16(8));
      WriteImplicitVR(file, 0x0028, 0x0102, LE16(7));
      WriteImplicitVR(file, 0x0028, 0x0103, LE16(0));
      ImplicitStreamFour(es);
      AppendFour(start, EncodeImplicit(es[0]), EncodeImplicit(es[1]), EncodeImplicit(es[2]), EncodeImplicit(es[3]));
    }

    /** The main dataset, group after group, in the order the source writes it. */
    method WriteMain(file: ByteWriter, clock: CambridgeClock, uids: CambridgeUids, dims: Dimensions)
      modifies file
      ensures file.data == old(file.data) + ImplicitStream(MainElements(patient, study, clock, uids, dims))
    {
      ghost var start := file.data;
      ghost var a, b, c, d := InstanceElements(uids), DateTimeElements(clock), StudyElements(study), DescriptionElements(study);
      ghost var e, f, g, h := PatientElements(patient), RelationshipElements(uids), PixelFormatElements(dims), BitsElements();
      WriteInstance(file, uids);
      WriteDateTime(file, clock);
      ImplicitStreamConcat(start, a, b);
      assert file.data == start + ImplicitStream(a + b);
      WriteStudy(file);
      ImplicitStreamConcat(start, a + b, c);
      assert file.data == start + ImplicitStream(a + b + c);
      WriteDescription(file);
      ImplicitStreamConcat(start, a + b + c, d);
      assert file.data == start + ImplicitStream(a + b + c + d);
      WritePatient(file);
      ImplicitStreamConcat(start, a + b + c + d, e);
      assert file.data == start + ImplicitStream(a + b + c + d + e);
      WriteRelationship(file, uids);
      ImplicitStreamConcat(start, a + b + c + d + e, f);
      assert file.data == start + ImplicitStream(a + b + c + d + e + f);
      WritePixelFormat(file, dims);
      ImplicitStreamConcat(start, a + b + c + d + e + f, g);
      assert file.data == start + ImplicitStream(a + b + c + d + e + f + g);
      WriteBits(file);
      ImplicitStreamConcat(start, a + b + c + d + e + f + g, h);
      assert file.data == start + ImplicitStream(a + b + c + d + e + f + g + h);
    }

    /** The pixel data element as the source writes it: tag, undefined length,
        an empty basic offset table, one fragment, the sequence delimiter. */
    method WritePixelData(file: ByteWriter, jpeg: Bytes)
      modifies file
      ensures file.data == old(file.data) + PixelData(jpeg)
    {
      ghost var start := file.data;
      file.Write(LE16(0x7FE0));
      file.Write(LE16(0x0010));
      file.Write(LE32(0xFFFF_FFFF));
      assert file.data == start + ImplicitPixelHeader();
      WriteEncapsulatedItems(file, jpeg);
    }

    /** `CreateFromDataURL`. The base64 and JPEG-header decoders are passed in
        (`None` when they fail), as are the outcomes of creating the directory
        and the file, the clock readings and the process id. The result is the
        file's content. */
    method CreateFromDataURL(dataURL: GoString, clock: CambridgeClock, pid: nat,
                             base64: GoString -> Option<Bytes>, decodeConfig: Bytes -> Option<Dimensions>,
                             mkdirOk: bool, createOk: bool)
      returns (r: Result<Bytes>)
      ensures !HasPrefix(dataURL, JpegDataUrlPrefix) ==> r == Err("unsupported data URL format")
      ensures r.Ok? <==> (HasPrefix(dataURL, JpegDataUrlPrefix)
                           && base64(TrimPrefix(dataURL, JpegDataUrlPrefix)).Some?
                           && decodeConfig(base64(TrimPrefix(dataURL, JpegDataUrlPrefix)).value).Some?
                           && mkdirOk && createOk)
      ensures r.Ok? ==>
                var jpeg := base64(TrimPrefix(dataURL, JpegDataUrlPrefix)).value;
                r.value == CambridgeFile(patient, study, jpeg, decodeConfig(jpeg).value, clock, pid)
    {
      var payload := JpegDataUrlPayload(dataURL);
      if payload.None? {
        return Err("unsupported data URL format");
      }
      var jpegData := base64(payload.value);
      if jpegData.None? {
        return Err("failed to decode base64");
      }
      var img := decodeConfig(jpegData.value);
      if img.None? {
        return Err("failed to decode JPEG config");
      }
      if !mkdirOk {
        return Err("failed to create directory");
      }
      if !createOk {
        return Err("failed to create file");
      }
      var file := new ByteWriter();
      file.Write(Zeros(128));
      file.Write(ToBytes("DICM"));
      assert file.data == FileHeader();
      var uids := MakeUids(clock.uid, pid);
      var metaBuf := new ByteWriter();
      WriteMeta(metaBuf, uids);
      ghost var meta := MetaBytes(uids);
      assert metaBuf.data == meta;
      WriteExplicitVR(file, 0x0002, 0x0000, "UL", LE32(ToUint32(|metaBuf.data|)));
      file.Write(metaBuf.data);
      assert file.data == FileHeader() + EncodeExplicit(CambridgeLongVRs, GroupLengthElement(|meta|)) + meta;
      WriteMain(file, clock, uids, img.value);
      WritePixelData(file, jpegData.value);
      r := Ok(file.data);
    }
  }
}
