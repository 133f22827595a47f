/** What the JPEG writer (`JpegDicomWriter`) and the minimal writer
    (`WorkingDicomWriter`) have in common. Both write every element with
    `tagExplicit`, which gives OB, OW, OF, SQ, UT and UN the long form. Both
    write the same five meta elements after the group length and the same
    eighteen dataset elements before the pixel data. The two files differ only
    in the UIDs, the transfer syntax, the photometric interpretation and the
    pixel data element. */
module ExplicitDataset {
  import opened GoRuntime
  import opened GoTime
  import opened DicomEncoding
  import opened SimpleDicom

  /** The VRs `tagExplicit` writes with two reserved bytes and a 32-bit length. */
  const ExplicitLongVRs: set<GoString> := {"OB", "OW", "OF", "SQ", "UT", "UN"}

  /** The implementation class UID both writers declare. */
  const MinimalImplementationUid: GoString := "1.2.3.4"

  /** Which of the VRs the writers use take the long form. */
  lemma ExplicitVRForms()
    ensures "OB" in ExplicitLongVRs && "UT" in ExplicitLongVRs
    ensures "UL" !in ExplicitLongVRs && "UI" !in ExplicitLongVRs && "DA" !in ExplicitLongVRs
    ensures "TM" !in ExplicitLongVRs && "CS" !in ExplicitLongVRs && "PN" !in ExplicitLongVRs
    ensures "LO" !in ExplicitLongVRs && "US" !in ExplicitLongVRs
  {
    assert "UL"[1] != "UN"[1] && "UL"[1] != "UT"[1] && "UI"[1] != "UN"[1] && "UI"[1] != "UT"[1];
    assert "US"[1] != "UN"[1] && "US"[1] != "UT"[1];
    assert "DA"[0] != "OB"[0] && "TM"[0] != "OB"[0] && "CS"[0] != "OB"[0] && "PN"[0] != "OB"[0];
    assert "LO"[0] != "OB"[0];
  }

  /** `da`: `t.Format("20060102")`, eight characters, so never padded. */
  function Da(t: Instant): (b: Bytes)
    ensures |b| == 8 && b == ToBytes(FormatDate(t))
  {
    ToBytes(FormatDate(t))
  }

  /** `tm`: `t.Format("150405")`, six characters, so never padded. */
  function Tm(t: Instant): (b: Bytes)
    ensures |b| == 6 && b == ToBytes(FormatClock(t))
  {
    ToBytes(FormatClock(t))
  }

  /** The meta elements after the group length: version, SOP class, SOP
      instance, transfer syntax and implementation class. */
  function MetaElements(sopInstance: GoString, transferSyntax: GoString): seq<ExplicitElement>
  {
    [ ExplicitElement(Tag(0x0002, 0x0001), "OB", [0x00, 0x01]),
      ExplicitElement(Tag(0x0002, 0x0002), "UI", PadUid(SecondaryCaptureUid)),
      ExplicitElement(Tag(0x0002, 0x0003), "UI", PadUid(sopInstance)),
      ExplicitElement(Tag(0x0002, 0x0010), "UI", PadUid(transferSyntax)),
      ExplicitElement(Tag(0x0002, 0x0012), "UI", PadUid(MinimalImplementationUid)) ]
  }

  function MetaBytes(sopInstance: GoString, transferSyntax: GoString): Bytes
  {
    ExplicitStream(ExplicitLongVRs, MetaElements(sopInstance, transferSyntax))
  }

  /** The meta elements take 80 bytes besides the two padded UIDs that vary. */
  lemma MetaLength(sopInstance: GoString, transferSyntax: GoString)
    ensures |MetaBytes(sopInstance, transferSyntax)| == 80 + |PadUid(sopInstance)| + |PadUid(transferSyntax)|
  {
    var es := MetaElements(sopInstance, transferSyntax);
    MetaElementLengths(sopInstance, transferSyntax);
    assert es == es[..4] + [es[4]];
    ExplicitStreamSnoc(ExplicitLongVRs, es[..4], es[4]);
    assert es[..4] == es[..3] + [es[3]];
    ExplicitStreamSnoc(ExplicitLongVRs, es[..3], es[3]);
    assert es[..3] == es[..2] + [es[2]];
    ExplicitStreamSnoc(ExplicitLongVRs, es[..2], es[2]);
    assert es[..2] == es[..1] + [es[1]];
    ExplicitStreamSnoc(ExplicitLongVRs, es[..1], es[1]);
    assert es[..1] == [] + [es[0]];
    ExplicitStreamSnoc(ExplicitLongVRs, [], es[0]);
  }

  lemma MetaElementLengths(sopInstance: GoString, transferSyntax: GoString)
    ensures var es := MetaElements(sopInstance, transferSyntax);
            && |EncodeExplicit(ExplicitLongVRs, es[0])| == 14
            && |EncodeExplicit(ExplicitLongVRs, es[1])| == 34
            && |EncodeExplicit(ExplicitLongVRs, es[2])| == 8 + |PadUid(sopInstance)|
            && |EncodeExplicit(ExplicitLongVRs, es[3])| == 8 + |PadUid(transferSyntax)|
            && |EncodeExplicit(ExplicitLongVRs, es[4])| == 16
  {
    ExplicitVRForms();
    assert |SecondaryCaptureUid| == 25 && |MinimalImplementationUid| == 7;
  }

  /** SOP class, SOP instance, study date and time, and modality. */
  function InstanceElements(sopInstance: GoString, date: Instant, time: Instant): seq<ExplicitElement>
  {
    [ ExplicitElement(Tag(0x0008, 0x0016), "UI", PadUid(SecondaryCaptureUid)),
      ExplicitElement(Tag(0x0008, 0x0018), "UI", PadUid(sopInstance)),
      ExplicitElement(Tag(0x0008, 0x0020), "DA", Da(date)),
      ExplicitElement(Tag(0x0008, 0x0030), "TM", Tm(time)),
      ExplicitElement(Tag(0x0008, 0x0060), "CS", PadText("OT")) ]
  }

  /** Patient name and id, then the study and series instance UIDs. */
  function PatientElements(patient: PatientInfo, studyUid: GoString, seriesUid: GoString): seq<ExplicitElement>
  {
    [ ExplicitElement(Tag(0x0010, 0x0010), "PN", PadText(patient.name)),
      ExplicitElement(Tag(0x0010, 0x0020), "LO", PadText(patient.id)),
      ExplicitElement(Tag(0x0020, 0x000D), "UI", PadUid(studyUid)),
      ExplicitElement(Tag(0x0020, 0x000E), "UI", PadUid(seriesUid)) ]
  }

  /** Samples per pixel, photometric interpretation, planar configuration,
      rows and columns, the last two converted with `uint16(...)`. */
  function PixelFormatElements(photometric: GoString, dims: Dimensions): seq<ExplicitElement>
  {
    [ ExplicitElement(Tag(0x0028, 0x0002), "US", LE16(3)),
      ExplicitElement(Tag(0x0028, 0x0004), "CS", PadText(photometric)),
      ExplicitElement(Tag(0x0028, 0x0006), "US", LE16(0)),
      ExplicitElement(Tag(0x0028, 0x0010), "US", LE16(ToUint16(dims.height))),
      ExplicitElement(Tag(0x0028, 0x0011), "US", LE16(ToUint16(dims.width))) ]
  }

  /** Bits allocated, bits stored, high bit and pixel representation. */
  function BitsElements(): seq<ExplicitElement>
  {
    [ ExplicitElement(Tag(0x0028, 0x0100), "US", LE16(8)),
      ExplicitElement(Tag(0x0028, 0x0101), "US", LE16(8)),
      ExplicitElement(Tag(0x0028, 0x0102), "US", LE16(7)),
      ExplicitElement(Tag(0x0028, 0x0103), "US", LE16(0)) ]
  }

  /** The UIDs the dataset carries. */
  datatype DatasetUids = DatasetUids(sopInstance: GoString, study: GoString, series: GoString)

  /** The dataset before the pixel data, in the order written. */
  function DatasetElements(uids: DatasetUids, date: Instant, time: Instant, patient: PatientInfo,
                           photometric: GoString, dims: Dimensions): seq<ExplicitElement>
  {
    InstanceElements(uids.sopInstance, date, time) + PatientElements(patient, uids.study, uids.series)
    + PixelFormatElements(photometric, dims) + BitsElements()
  }

  // ---------------------------------------------------------------------------
  // Properties

  /** Where the two SOP instance UIDs sit: third of the meta elements, second of the dataset. */
  lemma SopInstancePositions(sopInstance: GoString, transferSyntax: GoString, uids: DatasetUids, date: Instant,
                             time: Instant, patient: PatientInfo, photometric: GoString, dims: Dimensions)
    ensures MetaElements(sopInstance, transferSyntax)[2]
            == ExplicitElement(Tag(0x0002, 0x0003), "UI", PadUid(sopInstance))
    ensures |DatasetElements(uids, date, time, patient, photometric, dims)| == 18
    ensures DatasetElements(uids, date, time, patient, photometric, dims)[1]
            == ExplicitElement(Tag(0x0008, 0x0018), "UI", PadUid(uids.sopInstance))
  {
    var ds := DatasetElements(uids, date, time, patient, photometric, dims);
    assert ds[1] == InstanceElements(uids.sopInstance, date, time)[1];
  }

  /** Every UID and text the writers put in a 16-bit length field fits it once padded. */
  predicate UidsFit(uids: DatasetUids) {
    |uids.sopInstance| < 0xFFFF && |uids.study| < 0xFFFF && |uids.series| < 0xFFFF
  }

  predicate PatientFits(patient: PatientInfo) {
    |patient.name| < 0xFFFF && |patient.id| < 0xFFFF
  }

  lemma MetaFits(sopInstance: GoString, transferSyntax: GoString)
    requires |sopInstance| < 0xFFFF && |transferSyntax| < 0xFFFF
    ensures AllExplicitFit(ExplicitLongVRs, MetaElements(sopInstance, transferSyntax))
  {
    ExplicitVRForms();
  }

  lemma {:induction false} DatasetElementsReadable(uids: DatasetUids, date: Instant, time: Instant,
                                                   patient: PatientInfo, photometric: GoString, dims: Dimensions)
    requires UidsFit(uids) && PatientFits(patient) && |photometric| < 0xFFFF
    ensures DatasetReadable(ExplicitLongVRs, DatasetElements(uids, date, time, patient, photometric, dims))
  {
    var a := InstanceElements(uids.sopInstance, date, time);
    var b := PatientElements(patient, uids.study, uids.series);
    var c := PixelFormatElements(photometric, dims);
    var d := BitsElements();
    GroupsReadable(uids, date, time, patient, photometric, dims);
    DatasetReadableAppend(ExplicitLongVRs, a, b);
    DatasetReadableAppend(ExplicitLongVRs, a + b, c);
    DatasetReadableAppend(ExplicitLongVRs, a + b + c, d);
  }

  lemma GroupsReadable(uids: DatasetUids, date: Instant, time: Instant,
                       patient: PatientInfo, photometric: GoString, dims: Dimensions)
    requires UidsFit(uids) && PatientFits(patient) && |photometric| < 0xFFFF
    ensures DatasetReadable(ExplicitLongVRs, InstanceElements(uids.sopInstance, date, time))
    ensures DatasetReadable(ExplicitLongVRs, PatientElements(patient, uids.study, uids.series))
    ensures DatasetReadable(ExplicitLongVRs, PixelFormatElements(photometric, dims))
    ensures DatasetReadable(ExplicitLongVRs, BitsElements())
  {
    InstanceReadable(uids.sopInstance, date, time);
    PatientReadable(patient, uids.study, uids.series);
    PixelFormatReadable(photometric, dims);
    BitsReadable();
  }

  lemma InstanceReadable(sopInstance: GoString, date: Instant, time: Instant)
    requires |sopInstance| < 0xFFFF
    ensures DatasetReadable(ExplicitLongVRs, InstanceElements(sopInstance, date, time))
  {
    ExplicitVRForms();
  }

  lemma PatientReadable(patient: PatientInfo, studyUid: GoString, seriesUid: GoString)
    requires PatientFits(patient) && |studyUid| < 0xFFFF && |seriesUid| < 0xFFFF
    ensures DatasetReadable(ExplicitLongVRs, PatientElements(patient, studyUid, seriesUid))
  {
    ExplicitVRForms();
  }

  lemma PixelFormatReadable(photometric: GoString, dims: Dimensions)
    requires |photometric| < 0xFFFF
    ensures DatasetReadable(ExplicitLongVRs, PixelFormatElements(photometric, dims))
  {
    ExplicitVRForms();
  }

  lemma BitsReadable()
    ensures DatasetReadable(ExplicitLongVRs, BitsElements())
  {
    ExplicitVRForms();
  }

  lemma InstanceElementsAscending(sopInstance: GoString, date: Instant, time: Instant)
    ensures ExplicitTags(InstanceElements(sopInstance, date, time))
            == [Tag(0x0008, 0x0016), Tag(0x0008, 0x0018), Tag(0x0008, 0x0020), Tag(0x0008, 0x0030), Tag(0x0008, 0x0060)]
    ensures StrictlyAscending(ExplicitTags(InstanceElements(sopInstance, date, time)))
  {
    AdjacentAscendingIsSorted(ExplicitTags(InstanceElements(sopInstance, date, time)));
  }

  lemma PatientElementsAscending(patient: PatientInfo, studyUid: GoString, seriesUid: GoString)
    ensures ExplicitTags(PatientElements(patient, studyUid, seriesUid))
            == [Tag(0x0010, 0x0010), Tag(0x0010, 0x0020), Tag(0x0020, 0x000D), Tag(0x0020, 0x000E)]
    ensures StrictlyAscending(ExplicitTags(PatientElements(patient, studyUid, seriesUid)))
  {
    AdjacentAscendingIsSorted(ExplicitTags(PatientElements(patient, studyUid, seriesUid)));
  }

  lemma PixelFormatElementsAscending(photometric: GoString, dims: Dimensions)
    ensures ExplicitTags(PixelFormatElements(photometric, dims))
            == [Tag(0x0028, 0x0002), Tag(0x0028, 0x0004), Tag(0x0028, 0x0006), Tag(0x0028, 0x0010), Tag(0x0028, 0x0011)]
    ensures StrictlyAscending(ExplicitTags(PixelFormatElements(photometric, dims)))
  {
    AdjacentAscendingIsSorted(ExplicitTags(PixelFormatElements(photometric, dims)));
  }

  lemma BitsElementsAscending()
    ensures ExplicitTags(BitsElements())
            == [Tag(0x0028, 0x0100), Tag(0x0028, 0x0101), Tag(0x0028, 0x0102), Tag(0x0028, 0x0103)]
    ensures StrictlyAscending(ExplicitTags(BitsElements()))
  {
    AdjacentAscendingIsSorted(ExplicitTags(BitsElements()));
  }

  /** The dataset's tags ascend, from (0008,0016) to pixel data (7FE0,0010) last,
      as section 7.1 of PS3.5 requires of a dataset. */
  lemma DatasetTagsAscending(uids: DatasetUids, date: Instant, time: Instant, patient: PatientInfo,
                             photometric: GoString, dims: Dimensions)
    ensures StrictlyAscending(ExplicitTags(DatasetElements(uids, date, time, patient, photometric, dims)) + [PixelDataTag])
  {
    var a := InstanceElements(uids.sopInstance, date, time);
    var b := PatientElements(patient, uids.study, uids.series);
    var c := PixelFormatElements(photometric, dims);
    var d := BitsElements();
    InstanceElementsAscending(uids.sopInstance, date, time);
    PatientElementsAscending(patient, uids.study, uids.series);
    PixelFormatElementsAscending(photometric, dims);
    BitsElementsAscending();
    ExplicitTagsAppend(a, b);
    AscendingAppend(ExplicitTags(a), ExplicitTags(b));
    ExplicitTagsAppend(a + b, c);
    AscendingAppend(ExplicitTags(a) + ExplicitTags(b), ExplicitTags(c));
    ExplicitTagsAppend(a + b + c, d);
    AscendingAppend(ExplicitTags(a) + ExplicitTags(b) + ExplicitTags(c), ExplicitTags(d));
    AscendingAppend(ExplicitTags(a) + ExplicitTags(b) + ExplicitTags(c) + ExplicitTags(d), [PixelDataTag]);
  }

  // ---------------------------------------------------------------------------
  // Writing

  /** `tagExplicit`: tag, VR, then two reserved bytes and a 32-bit length for
      OB, OW, OF, SQ, UT and UN, or a 16-bit length for every other VR, then the value. */
  method TagExplicit(file: ByteWriter, group: uint16, element: uint16, vr: GoString, data: Bytes)
    modifies file
    ensures file.data == old(file.data) + EncodeExplicit(ExplicitLongVRs, ExplicitElement(Tag(group, element), vr, data))
  {
    file.Write(LE16(group));
    file.Write(LE16(element));
    file.Write(ToBytes(vr));
    assert vr in ExplicitLongVRs <==> vr == "OB" || vr == "OW" || vr == "OF" || vr == "SQ" || vr == "UT" || vr == "UN";
    if vr == "OB" || vr == "OW" || vr == "OF" || vr == "SQ" || vr == "UT" || vr == "UN" {
      file.Write([0, 0]);
      file.Write(LE32(ToUint32(|data|)));
    } else {
      file.Write(LE16(ToUint16(|data|)));
    }
    file.Write(data);
  }

  /** The group length element holding `groupLength`, then the meta elements. */
  method WriteMeta(file: ByteWriter, groupLength: uint32, sopInstance: GoString, transferSyntax: GoString)
    modifies file
    ensures file.data == old(file.data) + EncodeExplicit(ExplicitLongVRs, GroupLengthElement(groupLength))
                         + MetaBytes(sopInstance, transferSyntax)
  {
    TagExplicit(file, 0x0002, 0x0000, "UL", LE32(groupLength));
    ghost var start := file.data;
    ghost var es := MetaElements(sopInstance, transferSyntax);
    TagExplicit(file, 0x0002, 0x0001, "OB", [0x00, 0x01]);
    TagExplicit(file, 0x0002, 0x0002, "UI", PadUid(SecondaryCaptureUid));
    TagExplicit(file, 0x0002, 0x0003, "UI", PadUid(sopInstance));
    TagExplicit(file, 0x0002, 0x0010, "UI", PadUid(transferSyntax));
    TagExplicit(file, 0x0002, 0x0012, "UI", PadUid(MinimalImplementationUid));
    ExplicitStreamFive(ExplicitLongVRs, es);
    AppendFive(start, EncodeExplicit(ExplicitLongVRs, es[0]), EncodeExplicit(ExplicitLongVRs, es[1]),
               EncodeExplicit(ExplicitLongVRs, es[2]), EncodeExplicit(ExplicitLongVRs, es[3]),
               EncodeExplicit(ExplicitLongVRs, es[4]));
  }

  method WriteInstance(file: ByteWriter, sopInstance: GoString, date: Instant, time: Instant)
    modifies file
    ensures file.data == old(file.data) + ExplicitStream(ExplicitLongVRs, InstanceElements(sopInstance, date, time))
  {
    ghost var start := file.data;
    ghost var es := InstanceElements(sopInstance, date, time);
    TagExplicit(file, 0x0008, 0x0016, "UI", PadUid(SecondaryCaptureUid));
    TagExplicit(file, 0x0008, 0x0018, "UI", PadUid(sopInstance));
    TagExplicit(file, 0x0008, 0x0020, "DA", Da(date));
    TagExplicit(file, 0x0008, 0x0030, "TM", Tm(time));
    TagExplicit(file, 0x0008, 0x0060, "CS", PadText("OT"));
    ExplicitStreamFive(ExplicitLongVRs, es);
    AppendFive(start, EncodeExplicit(ExplicitLongVRs, es[0]), EncodeExplicit(ExplicitLongVRs, es[1]), EncodeExplicit(ExplicitLongVRs, es[2]), EncodeExplicit(ExplicitLongVRs, es[3]), EncodeExplicit(ExplicitLongVRs, es[4]));
  }

  method WritePatient(file: ByteWriter, patient: PatientInfo, studyUid: GoString, seriesUid: GoString)
    modifies file
    ensures file.data == old(file.data) + ExplicitStream(ExplicitLongVRs, PatientElements(patient, studyUid, seriesUid))
  {
    ghost var start := file.data;
    ghost var es := PatientElements(patient, studyUid, seriesUid);
    TagExplicit(file, 0x0010, 0x0010, "PN", PadText(patient.name));
    TagExplicit(file, 0x0010, 0x0020, "LO", PadText(patient.id));
    TagExplicit(file, 0x0020, 0x000D, "UI", PadUid(studyUid));
    TagExplicit(file, 0x0020, 0x000E, "UI", PadUid(seriesUid));
    ExplicitStreamFour(ExplicitLongVRs, es);
    AppendFour(start, EncodeExplicit(ExplicitLongVRs, es[0]), EncodeExplicit(ExplicitLongVRs, es[1]), EncodeExplicit(ExplicitLongVRs, es[2]), EncodeExplicit(ExplicitLongVRs, es[3]));
  }

  method WritePixelFormat(file: ByteWriter, photometric: GoString, dims: Dimensions)
    modifies file
    ensures file.data == old(file.data) + ExplicitStream(ExplicitLongVRs, PixelFormatElements(photometric, dims))
  {
    ghost var start := file.data;
    ghost var es := PixelFormatElements(photometric, dims);
    TagExplicit(file, 0x0028, 0x0002, "US", LE16(3));
    TagExplicit(file, 0x0028, 0x0004, "CS", PadText(photometric));
    TagExplicit(file, 0x0028, 0x0006, "US", LE16(0));
    TagExplicit(file, 0x0028, 0x0010, "US", LE16(ToUint16(dims.height)));
    TagExplicit(file, 0x0028, 0x0011, "US", LE16(ToUint16(dims.width)));
    ExplicitStreamFive(ExplicitLongVRs, es);
    AppendFive(start, EncodeExplicit(ExplicitLongVRs, es[0]), EncodeExplicit(ExplicitLongVRs, es[1]), EncodeExplicit(ExplicitLongVRs, es[2]), EncodeExplicit(ExplicitLongVRs, es[3]), EncodeExplicit(ExplicitLongVRs, es[4]));
  }

  method WriteBits(file: ByteWriter)
    modifies file
    ensures file.data == old(file.data) + ExplicitStream(ExplicitLongVRs, BitsElements())
  {
    ghost var start := file.data;
    ghost var es := BitsElements();
    TagExplicit(file, 0x0028, 0x0100, "US", LE16(8));
    TagExplicit(file, 0x0028, 0x0101, "US", LE16(8));
    TagExplicit(file, 0x0028, 0x0102, "US", LE16(7));
    TagExplicit(file, 0x0028, 0x0103, "US", LE16(0));
    ExplicitStreamFour(ExplicitLongVRs, es);
    AppendFour(start, EncodeExplicit(ExplicitLongVRs, es[0]), EncodeExplicit(ExplicitLongVRs, es[1]), EncodeExplicit(ExplicitLongVRs, es[2]), EncodeExplicit(ExplicitLongVRs, es[3]));
  }

  /** The dataset before the pixel data, group after group. */
  method WriteDataset(file: ByteWriter, uids: DatasetUids, date: Instant, time: Instant, patient: PatientInfo,
                      photometric: GoString, dims: Dimensions)
    modifies file
    ensures file.data == old(file.data)
                         + ExplicitStream(ExplicitLongVRs, DatasetElements(uids, date, time, patient, photometric, dims))
  {
    ghost var start := file.data;
    ghost var a := InstanceElements(uids.sopInstance, date, time);
    ghost var b := PatientElements(patient, uids.study, uids.series);
    ghost var c := PixelFormatElements(photometric, dims);
    ghost var d := BitsElements();
    WriteInstance(file, uids.sopInstance, date, time);
    WritePatient(file, patient, uids.study, uids.series);
    ExplicitStreamConcat(ExplicitLongVRs, start, a, b);
    assert file.data == start + ExplicitStream(ExplicitLongVRs, a + b);
    WritePixelFormat(file, photometric, dims);
    ExplicitStreamConcat(ExplicitLongVRs, start, a + b, c);
    assert file.data == start + ExplicitStream(ExplicitLongVRs, a + b + c);
    WriteBits(file);
    ExplicitStreamConcat(ExplicitLongVRs, start, a + b + c, d);
  }
}
