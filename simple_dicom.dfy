/** The patient and study records shared by every DICOM writer, the data-URL
    check they all start with, and `DicomCreator`, the MVP writer that stores
    the JPEG next to a plain-text metadata file instead of writing DICOM. */
module SimpleDicom {
  import opened GoRuntime
  import opened GoTime

  datatype PatientInfo = PatientInfo(name: GoString, id: GoString, birthDate: GoString, sex: GoString)

  datatype StudyInfo = StudyInfo(accessionNumber: GoString, studyDescription: GoString,
                                 referringPhysician: GoString, performingPhysician: GoString,
                                 institution: GoString)

  /** Go's zero values of the two records. */
  const EmptyPatient := PatientInfo("", "", "", "")
  const EmptyStudy := StudyInfo("", "", "", "", "")

  /** The image size `image.DecodeConfig` reports, as Go `int`s. */
  datatype Dimensions = Dimensions(width: int, height: int)

  /** A file the writer put on disk, in the order written. */
  datatype FileWrite = FileWrite(path: GoString, content: Bytes)

  const JpegDataUrlPrefix: GoString := "data:image/jpeg;base64,"

  /** The base64 text of a JPEG data URL, or `None` when the URL has another prefix. */
  function JpegDataUrlPayload(dataURL: GoString): (r: Option<GoString>)
    ensures r.Some? <==> HasPrefix(dataURL, JpegDataUrlPrefix)
    ensures r.Some? ==> JpegDataUrlPrefix + r.value == dataURL
  {
    if HasPrefix(dataURL, JpegDataUrlPrefix) then Some(TrimPrefix(dataURL, JpegDataUrlPrefix)) else None
  }

  /** The JPEG file's path: a trailing ".dcm" replaced by ".jpg" (".jpg" appended otherwise). */
  function ImagePath(outputPath: GoString): (p: GoString)
  {
    TrimSuffix(outputPath, ".dcm") + ".jpg"
  }

  /** The metadata file's path: the image path with ".jpg" replaced by "_metadata.txt". */
  function MetadataPath(imagePath: GoString): (p: GoString)
  {
    TrimSuffix(imagePath, ".jpg") + "_metadata.txt"
  }

  /** The image path always ends in ".jpg"; for an output path ending in ".dcm"
      only that extension changes, otherwise ".jpg" is appended. */
  lemma ImagePathShape(outputPath: GoString)
    ensures HasSuffix(ImagePath(outputPath), ".jpg")
    ensures HasSuffix(outputPath, ".dcm") ==> ImagePath(outputPath) == outputPath[..|outputPath| - 4] + ".jpg"
    ensures !HasSuffix(outputPath, ".dcm") ==> ImagePath(outputPath) == outputPath + ".jpg"
  {
    var p := ImagePath(outputPath);
    assert p[|p| - 4..] == ".jpg";
  }

  /** The metadata file shares the image file's stem: both are the output path
      without ".dcm", followed by ".jpg" or by "_metadata.txt". */
  lemma {:induction false} MetadataPathSharesStem(outputPath: GoString)
    ensures MetadataPath(ImagePath(outputPath)) == TrimSuffix(outputPath, ".dcm") + "_metadata.txt"
  {
    TrimSuffixOfAppended(TrimSuffix(outputPath, ".dcm"), ".jpg");
  }

  /** One "name: value" line of the metadata file. */
  datatype Field = Field(name: GoString, value: GoString)

  function Line(f: Field): GoString
  {
    f.name + ": " + f.value + "\n"
  }

  function RenderFields(fs: seq<Field>): GoString
  {
    if fs == [] then "" else Line(fs[0]) + RenderFields(fs[1..])
  }

  /** The thirteen lines of the metadata file, in their fixed order; the last
      three are constants. The study date and the study time come from two
      separate clock readings, `dateNow` and `timeNow`. */
  function MetadataFields(patient: PatientInfo, study: StudyInfo, dateNow: Instant, timeNow: Instant): seq<Field>
  {
    [ Field("Patient Name", patient.name),
      Field("Patient ID", patient.id),
      Field("Birth Date", patient.birthDate),
      Field("Sex", patient.sex),
      Field("Study Date", FormatDate(dateNow)),
      Field("Study Time", FormatClock(timeNow)),
      Field("Study Description", study.studyDescription),
      Field("Accession Number", study.accessionNumber),
      Field("Institution", study.institution),
      Field("Referring Physician", study.referringPhysician),
      Field("Modality", "OT"),
      Field("Manufacturer", "CIRSS"),
      Field("Model", "SmartBox Next") ]
  }

  const MetadataHeader: GoString := "DICOM Metadata\n==============\n"

  /** The metadata text: the fixed header followed by the field lines. */
  function MetadataText(patient: PatientInfo, study: StudyInfo, dateNow: Instant, timeNow: Instant): (t: GoString)
  {
    MetadataHeader + RenderFields(MetadataFields(patient, study, dateNow, timeNow))
  }

  lemma {:induction false} RenderFieldsAppend(xs: seq<Field>, ys: seq<Field>)
    ensures RenderFields(xs + ys) == RenderFields(xs) + RenderFields(ys)
  {
    if xs == [] {
      assert xs + ys == ys;
    } else {
      assert (xs + ys)[0] == xs[0] && (xs + ys)[1..] == xs[1..] + ys;
      RenderFieldsAppend(xs[1..], ys);
    }
  }

  /** Every field is written as its own line, in order: the text before field
      `i` renders the fields before it and the text after renders those after it. */
  lemma RenderFieldsSplit(fs: seq<Field>, i: nat)
    requires i < |fs|
    ensures RenderFields(fs) == RenderFields(fs[..i]) + Line(fs[i]) + RenderFields(fs[i + 1..])
  {
    assert fs == fs[..i] + fs[i..];
    RenderFieldsAppend(fs[..i], fs[i..]);
    assert fs[i..][1..] == fs[i + 1..];
  }

  /** The text opens with the header and the patient-name line. */
  lemma MetadataTextStart(patient: PatientInfo, study: StudyInfo, dateNow: Instant, timeNow: Instant)
    ensures HasPrefix(MetadataText(patient, study, dateNow, timeNow),
                      MetadataHeader + Line(Field("Patient Name", patient.name)))
  {
    var fs := MetadataFields(patient, study, dateNow, timeNow);
    var rest := RenderFields(fs[1..]);
    assert RenderFields(fs) == Line(fs[0]) + rest;
    assert MetadataText(patient, study, dateNow, timeNow) == MetadataHeader + Line(fs[0]) + rest;
    HasPrefixOfAppend(MetadataHeader + Line(fs[0]), rest);
  }

  /** The text closes with the constant modality, manufacturer and model lines. */
  lemma MetadataTextEnd(patient: PatientInfo, study: StudyInfo, dateNow: Instant, timeNow: Instant)
    ensures HasSuffix(MetadataText(patient, study, dateNow, timeNow),
                      Line(Field("Modality", "OT")) + Line(Field("Manufacturer", "CIRSS"))
                      + Line(Field("Model", "SmartBox Next")))
  {
    var fs := MetadataFields(patient, study, dateNow, timeNow);
    var head, tail := fs[..10], fs[10..];
    assert fs == head + tail;
    RenderFieldsAppend(head, tail);
    assert RenderFields(tail[2..]) == Line(tail[2]) by { assert tail[2..][1..] == []; }
    assert RenderFields(tail[1..]) == Line(tail[1]) + Line(tail[2]) by { assert tail[1..][1..] == tail[2..]; }
    var last := Line(tail[0]) + Line(tail[1]) + Line(tail[2]);
    assert RenderFields(tail) == last;
    assert MetadataText(patient, study, dateNow, timeNow) == (MetadataHeader + RenderFields(head)) + last;
    HasSuffixOfAppend(MetadataHeader + RenderFields(head), last);
  }

  /** `DicomCreator`: keeps the current patient and study and writes them out with each image. */
  class DicomCreator {
    var patient: PatientInfo
    var study: StudyInfo

    constructor ()
      ensures patient == EmptyPatient && study == EmptyStudy
    {
      patient := EmptyPatient;
      study := EmptyStudy;
    }

    /** Replaces the stored patient record as a whole. */
    method SetPatientInfo(p: PatientInfo)
      modifies this
      ensures patient == p && study == old(study)
    {
      patient := p;
    }

    /** Replaces the stored study record as a whole. */
    method SetStudyInfo(s: StudyInfo)
      modifies this
      ensures study == s && patient == old(patient)
    {
      study := s;
    }

    /** `CreateFromDataURL`. The base64 decoder, the directory creation and the
        file writes are the caller's collaborators: `base64` decodes (`None` on
        malformed input), `mkdirOk` says whether the directory could be made,
        `writeOk` whether a write to a path succeeds, and `dateNow` and
        `timeNow` are the two clock readings. `written` lists the files
        written, in order. */
    method CreateFromDataURL(dataURL: GoString, outputPath: GoString, dateNow: Instant, timeNow: Instant,
                             base64: GoString -> Option<Bytes>, mkdirOk: bool, writeOk: GoString -> bool)
      returns (r: Result<()>, written: seq<FileWrite>)
      ensures !HasPrefix(dataURL, JpegDataUrlPrefix) ==> r.Err? && written == []
      ensures (HasPrefix(dataURL, JpegDataUrlPrefix) && base64(TrimPrefix(dataURL, JpegDataUrlPrefix)).None?)
                ==> r.Err? && written == []
      ensures r.Ok? <==> (HasPrefix(dataURL, JpegDataUrlPrefix)
                           && base64(TrimPrefix(dataURL, JpegDataUrlPrefix)).Some?
                           && mkdirOk && writeOk(ImagePath(outputPath))
                           && writeOk(MetadataPath(ImagePath(outputPath))))
      ensures r.Ok? ==> written == [
                FileWrite(ImagePath(outputPath), base64(TrimPrefix(dataURL, JpegDataUrlPrefix)).value),
                FileWrite(MetadataPath(ImagePath(outputPath)), ToBytes(MetadataText(patient, study, dateNow, timeNow)))]
      ensures var imageWritten := HasPrefix(dataURL, JpegDataUrlPrefix)
                                  && base64(TrimPrefix(dataURL, JpegDataUrlPrefix)).Some?
                                  && mkdirOk && writeOk(ImagePath(outputPath));
              r.Err? ==> written == if imageWritten
                                    then [FileWrite(ImagePath(outputPath), base64(TrimPrefix(dataURL, JpegDataUrlPrefix)).value)]
                                    else []
    {
      written := [];
      var payload := JpegDataUrlPayload(dataURL);
      if payload.None? {
        return Err("unsupported data URL format"), written;
      }
      var imageData := base64(payload.value);
      if imageData.None? {
        return Err("failed to decode base64"), written;
      }
      if !mkdirOk {
        return Err("failed to create directory"), written;
      }
      var imagePath := ImagePath(outputPath);
      if !writeOk(imagePath) {
        return Err("failed to write file"), written;
      }
      written := written + [FileWrite(imagePath, imageData.value)];
      var metadataPath := MetadataPath(imagePath);
      var metadata := MetadataText(patient, study, dateNow, timeNow);
      if !writeOk(metadataPath) {
        return Err("failed to write metadata"), written;
      }
      written := written + [FileWrite(metadataPath, ToBytes(metadata))];
      r := Ok(());
    }
  }
}
