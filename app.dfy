/** The application object the UI binds to: camera listing, DICOM export
    with the upload-queue hand-off, the queue listing filter and the
    emergency patient templates. The window, the capture manager and the
    clock are outside the model; their results are parameters. */
module App {
  import opened GoRuntime
  import opened GoTime
  import opened SimpleDicom
  import opened JpegDicom
  import opened Config
  import Q = UploadQueue
  import S = StoreService

  /** A video source as the UI sees it. */
  datatype Camera = Camera(id: GoString, name: GoString, kind: GoString)

  /** A device as the capture manager reports it. */
  datatype Device = Device(id: GoString, name: GoString)

  /** The single placeholder returned when listing the devices fails. */
  const NoCamera := Camera("error", "No cameras detected", "error")

  // ---------------------------------------------------------------------------
  // Export

  /** `IMG_<YYYYMMDD_HHMMSS>.dcm`. */
  function ExportFileName(now: Instant): (n: GoString)
  {
    "IMG_" + FormatStamp(now) + ".dcm"
  }

  /** The file name has a fixed shape from which the timestamp can be read
      back: 23 characters, "IMG_", the stamp, ".dcm". */
  lemma ExportFileNameShape(now: Instant)
    ensures var n := ExportFileName(now);
            && |n| == 23 && n[..4] == "IMG_" && n[19..] == ".dcm"
            && n[4..19] == FormatStamp(now)
            && n[4..12] == FormatDate(now) && n[12] == '_' && n[13..19] == FormatClock(now)
  {
    var n := ExportFileName(now);
    var s := FormatStamp(now);
    assert n[4..19] == s;
    assert n[4..12] == s[..8] && n[13..19] == s[9..];
  }

  /** Where `ExportDicom` writes: the file name inside the output directory. */
  function ExportPath(outputDir: GoString, now: Instant): (p: GoString)
    ensures HasSuffix(p, "/" + ExportFileName(now))
  {
    JoinPath(outputDir, ExportFileName(now))
  }

  /** The file the upload service reports as missing is named as `ExportDicom`
      named it: the base of the export path is the export file name. */
  lemma ExportPathBase(outputDir: GoString, now: Instant)
    ensures S.BaseName(ExportPath(outputDir, now)) == ExportFileName(now)
  {
    var n := ExportFileName(now);
    ExportFileNameShape(now);
    assert '/' !in n by {
      assert forall i | 0 <= i < 15 :: FormatStamp(now)[i] == n[4 + i];
    }
    S.BaseNameOfJoin(outputDir, n);
  }

  /** The patient details handed to the queue with an exported file. */
  function ExportInfo(patient: PatientInfo, now: Instant): map<GoString, GoString>
  {
    map["patientName" := patient.name, "patientId" := patient.id, "studyDate" := FormatDate(now)]
  }

  /** The queued item for an export carries the writer's patient name and ID
      and today's date, and waits at normal priority. */
  lemma ExportedItemCarriesPatient(id: GoString, path: GoString, patient: PatientInfo, infoNow: Instant,
                                   queueNow: Instant)
    ensures var item := Q.NewItem(id, path, ExportInfo(patient, infoNow), Q.PriorityNormal, queueNow);
            && item.id == id && item.dicomPath == path
            && item.patientName == patient.name && item.patientId == patient.id
            && item.studyDate == FormatDate(infoNow) && item.addedAt == queueNow
            && item.status == Q.StatusPending && item.priority == Q.PriorityNormal && item.attemptCount == 0
  {
    var info := ExportInfo(patient, infoNow);
    assert "patientName" != "patientId" && "patientName" != "studyDate" && "patientId" != "studyDate" by {
      assert "patientName"[7] == 'N' && "patientId"[7] == 'I';
      assert "studyDate"[0] == 's';
    }
  }

  // ---------------------------------------------------------------------------
  // Emergency templates

  /** The first template with the given ID. */
  function FindTemplate(templates: seq<PatientTemplate>, id: GoString): (r: Option<nat>)
    ensures r.Some? ==> r.value < |templates| && templates[r.value].id == id
    ensures forall k | 0 <= k < |templates| && (r.None? || k < r.value) :: templates[k].id != id
    decreases |templates|
  {
    if templates == [] then None
    else if templates[0].id == id then Some(0)
    else
      var r := FindTemplate(templates[1..], id);
      assert forall k | 1 <= k < |templates| :: templates[k] == templates[1..][k - 1];
      if r.None? then None else Some(r.value + 1)
  }

  /** The birth date the template gives: the two relative forms become the
      date 40 or 10 years back (`minus40`, `minus10` are those clock
      readings), anything else is copied. */
  function TemplateBirthDate(birthDate: GoString, minus40: Instant, minus10: Instant): GoString
  {
    if birthDate == "TODAY-40Y" then FormatDate(minus40)
    else if birthDate == "TODAY-10Y" then FormatDate(minus10)
    else birthDate
  }

  function EmergencyPatient(t: PatientTemplate, now: Instant, minus40: Instant, minus10: Instant): PatientInfo
  {
    PatientInfo(t.patientName, t.patientId + "-" + FormatClock(now), TemplateBirthDate(t.birthDate, minus40, minus10),
                t.sex)
  }

  /** The study of an emergency patient; the source's study record names
      the description field `Description`, which `StudyInfo` calls
      `StudyDescription`. */
  function EmergencyStudy(t: PatientTemplate, now: Instant): StudyInfo
  {
    StudyInfo("EMRG-" + FormatDateTime(now), t.studyDesc, "", "", "")
  }

  /** An emergency patient ID is the template's ID, a dash and the six
      clock digits, so it can be split back into the two; the accession
      number is "EMRG-" and fourteen digits. */
  lemma EmergencyIdentifiers(t: PatientTemplate, now: Instant, minus40: Instant, minus10: Instant)
    ensures var p := EmergencyPatient(t, now, minus40, minus10);
            var n := |t.patientId|;
            && |p.id| == n + 7 && p.id[..n] == t.patientId && p.id[n] == '-' && p.id[n + 1..] == FormatClock(now)
            && p.name == t.patientName && p.sex == t.sex
    ensures var a := EmergencyStudy(t, now).accessionNumber;
            |a| == 19 && a[..5] == "EMRG-" && AllDigits(a[5..])
  {
    var p := EmergencyPatient(t, now, minus40, minus10);
    var n := |t.patientId|;
    assert p.id[..n] == t.patientId;
    assert p.id[n + 1..] == FormatClock(now);
    var a := EmergencyStudy(t, now).accessionNumber;
    assert a[5..] == FormatDateTime(now);
  }

  /** Only the two relative forms are rewritten: a relative birth date
      becomes an eight-digit date and any other text is kept as it is. */
  lemma BirthDateRewrite(birthDate: GoString, minus40: Instant, minus10: Instant)
    ensures var b := TemplateBirthDate(birthDate, minus40, minus10);
            && (birthDate == "TODAY-40Y" ==> b == FormatDate(minus40))
            && (birthDate == "TODAY-10Y" ==> b == FormatDate(minus10))
            && (birthDate != "TODAY-40Y" && birthDate != "TODAY-10Y" ==> b == birthDate)
            && (b != birthDate ==> |b| == 8 && AllDigits(b))
  {
  }

  /** With the default configuration every template is found under its own
      ID and gets a computed birth date: 40 years back for the adult ones,
      10 for the child. */
  lemma DefaultTemplatesApply(now: Instant, minus40: Instant, minus10: Instant)
    ensures var ts := DefaultTemplates();
            && FindTemplate(ts, "emergency-male") == Some(0)
            && FindTemplate(ts, "emergency-female") == Some(1)
            && FindTemplate(ts, "emergency-child") == Some(2)
            && EmergencyPatient(ts[0], now, minus40, minus10).birthDate == FormatDate(minus40)
            && EmergencyPatient(ts[1], now, minus40, minus10).birthDate == FormatDate(minus40)
            && EmergencyPatient(ts[2], now, minus40, minus10).birthDate == FormatDate(minus10)
  {
    var ts := DefaultTemplates();
    assert ts[0].id[10] == 'm' && ts[1].id[10] == 'f' && ts[2].id[10] == 'c';
    assert "emergency-male"[10] == 'm' && "emergency-female"[10] == 'f' && "emergency-child"[10] == 'c';
    assert ts[2].birthDate[6] == '1';
  }

  // ---------------------------------------------------------------------------
  // The application

  /** The queue filter the UI's string stands for: none when it is empty. */
  function StatusFilter(statusFilter: GoString): (r: Option<Q.Status>)
    ensures r.None? <==> statusFilter == ""
    ensures r.Some? ==> r.value == statusFilter
  {
    if statusFilter == "" then None else Some(statusFilter)
  }

  /** `GetCameras`: a failed device listing gives the single placeholder;
      otherwise one camera per device, in order, with its ID and name and
      the type "webcam". */
  method GetCameras(devices: Result<seq<Device>>) returns (cameras: seq<Camera>)
    ensures devices.Err? ==> cameras == [NoCamera]
    ensures devices.Ok? ==> |cameras| == |devices.value|
    ensures devices.Ok? ==> forall i | 0 <= i < |cameras| ::
              cameras[i] == Camera(devices.value[i].id, devices.value[i].name, "webcam")
  {
    if devices.Err? {
      return [NoCamera];
    }
    var ds := devices.value;
    var filled := new Camera[|ds|](_ => NoCamera);
    for i := 0 to |ds|
      invariant forall k | 0 <= k < i :: filled[k] == Camera(ds[k].id, ds[k].name, "webcam")
    {
      filled[i] := Camera(ds[i].id, ds[i].name, "webcam");
    }
    cameras := filled[..];
  }

  class App {
    var dicomCreator: JpegDicomWriter
    var outputDir: GoString
    var configManager: ConfigManager
    var uploadQueue: Q.UploadQueue?

    /** The queue, when there is one, keeps every queued ID an item. */
    ghost predicate Valid()
      reads this, uploadQueue
    {
      uploadQueue != null ==> uploadQueue.Valid()
    }

    /** `NewApp` once its collaborators exist; the queue is absent when it
        could not be created. */
    constructor (dicomCreator: JpegDicomWriter, outputDir: GoString, configManager: ConfigManager,
                 uploadQueue: Q.UploadQueue?)
      requires uploadQueue != null ==> uploadQueue.Valid()
      ensures this.dicomCreator == dicomCreator && this.outputDir == outputDir
      ensures this.configManager == configManager && this.uploadQueue == uploadQueue
      ensures Valid()
    {
      this.dicomCreator := dicomCreator;
      this.outputDir := outputDir;
      this.configManager := configManager;
      this.uploadQueue := uploadQueue;
    }

    /** `GetQueueItems`: the queue's listing, filtered by status unless the
        filter string is empty. */
    method GetQueueItems(statusFilter: GoString, limit: int) returns (r: seq<Q.QueueItem>)
      requires uploadQueue != null && Valid()
      ensures r == Q.Listed(uploadQueue.items, uploadQueue.queue, StatusFilter(statusFilter), limit)
    {
      var status: Option<Q.Status> := None;
      if statusFilter != "" {
        status := Some(statusFilter);
      }
      r := uploadQueue.GetItems(status, limit);
    }

    /** `ExportDicom`: writes the image to `IMG_<stamp>.dcm` in the output
        directory and, when PACS is enabled and there is a queue, enqueues
        the file at normal priority for the current patient. The writer's
        collaborators, the queue's new ID and the cleanup's map order are
        parameters, and so are the clock readings: `stampNow` for the file
        name, `clock` for the writer, `infoNow` for the study date handed to
        the queue and `queueNow` for the time the queue stamps the item with.
        `written` lists the files written. The outcome of enqueueing is
        ignored, as in the source. */
    method ExportDicom(imageDataURL: GoString, stampNow: Instant, clock: JpegClock,
                       base64: GoString -> Option<Bytes>, decodeConfig: Bytes -> Option<Dimensions>,
                       createOk: bool, infoNow: Instant, queueNow: Instant, id: GoString, order: seq<GoString>)
      returns (r: Result<GoString>, written: seq<FileWrite>)
      requires Valid()
      modifies uploadQueue
      ensures Valid()
      ensures r.Ok? <==> (JpegDataUrlPayload(imageDataURL).Some?
                           && base64(JpegDataUrlPayload(imageDataURL).value).Some?
                           && decodeConfig(base64(JpegDataUrlPayload(imageDataURL).value).value).Some?
                           && createOk)
      ensures r.Ok? ==> r.value == ExportPath(outputDir, stampNow)
      ensures r.Ok? ==>
                var jpeg := base64(JpegDataUrlPayload(imageDataURL).value).value;
                written == [FileWrite(r.value, JpegFile(dicomCreator.patient, jpeg, decodeConfig(jpeg).value, clock))]
      ensures r.Err? ==> HasPrefix(r.msg, "failed to create DICOM: ") && written == []
      ensures uploadQueue != null && !(r.Ok? && configManager.config.pacs.enabled) ==>
                uploadQueue.items == old(uploadQueue.items) && uploadQueue.queue == old(uploadQueue.queue)
      ensures uploadQueue != null && r.Ok? && configManager.config.pacs.enabled
              && |Q.KeptItems(old(uploadQueue.items), order)| < Q.MaxItems ==>
                var items' := Q.KeptItems(old(uploadQueue.items), order)[
                  id := Q.NewItem(id, r.value, ExportInfo(dicomCreator.patient, infoNow), Q.PriorityNormal, queueNow)];
                var q := Q.KeptQueue(old(uploadQueue.items), old(uploadQueue.queue), order);
                uploadQueue.items == items' && uploadQueue.queue == Q.Inserted(q, Q.InsertIndex(items', q, Q.PriorityNormal), id)
      ensures uploadQueue != null && r.Ok? && configManager.config.pacs.enabled
              && |Q.KeptItems(old(uploadQueue.items), order)| >= Q.MaxItems ==>
                uploadQueue.items == Q.KeptItems(old(uploadQueue.items), order)
                && uploadQueue.queue == Q.KeptQueue(old(uploadQueue.items), old(uploadQueue.queue), order)
    {
      written := [];
      var outputPath := ExportPath(outputDir, stampNow);
      var created := dicomCreator.CreateFromDataURL(imageDataURL, clock, base64, decodeConfig, createOk);
      if created.Err? {
        HasPrefixOfAppend("failed to create DICOM: ", created.msg);
        return Err("failed to create DICOM: " + created.msg), written;
      }
      written := [FileWrite(outputPath, created.value)];
      var pacs := configManager.GetPACS();
      if pacs.enabled && uploadQueue != null {
        var patient := dicomCreator.GetPatientInfo();
        var _ := uploadQueue.Add(outputPath, true, ExportInfo(patient, infoNow), Q.PriorityNormal, id, queueNow, order);
      }
      return Ok(outputPath), written;
    }

    /** `ApplyEmergencyTemplate`: the first template with the ID gives the
        patient (name and sex copied, the ID stamped with the clock reading
        `idNow`, relative birth dates computed) and the study (an "EMRG-"
        accession number stamped with the later reading `accessionNow`, and
        the template's description), and both are pushed to the writer; no
        matching template is an error with empty records and the writer
        untouched. */
    method ApplyEmergencyTemplate(templateID: GoString, idNow: Instant, accessionNow: Instant,
                                  minus40: Instant, minus10: Instant)
      returns (patient: PatientInfo, study: StudyInfo, err: Option<GoString>)
      modifies dicomCreator
      ensures var ts := configManager.config.emergencyTemplates;
              var found := FindTemplate(ts, templateID);
              && (found.None? ==>
                    patient == EmptyPatient && study == EmptyStudy && err == Some("template not found: " + templateID)
                    && dicomCreator.patient == old(dicomCreator.patient) && dicomCreator.study == old(dicomCreator.study))
              && (found.Some? ==>
                    err.None? && patient == EmergencyPatient(ts[found.value], idNow, minus40, minus10)
                    && study == EmergencyStudy(ts[found.value], accessionNow)
                    && dicomCreator.patient == patient && dicomCreator.study == study)
    {
      var templates := configManager.GetEmergencyTemplates();
      ghost var ts := configManager.config.emergencyTemplates;
      var i := 0;
      while i < templates.Length
        invariant 0 <= i <= templates.Length
        invariant templates[..] == ts
        invariant forall k | 0 <= k < i :: ts[k].id != templateID
      {
        var template := templates[i];
        if template.id == templateID {
          patient := EmergencyPatient(template, idNow, minus40, minus10);
          study := EmergencyStudy(template, accessionNow);
          dicomCreator.SetPatientInfo(patient);
          dicomCreator.SetStudyInfo(study);
          FindTemplateAt(ts, templateID, i);
          return patient, study, None;
        }
        i := i + 1;
      }
      FindTemplateAt(ts, templateID, i);
      return EmptyPatient, EmptyStudy, Some("template not found: " + templateID);
    }
  }

  /** The loop's exit states pin down `FindTemplate`. */
  lemma FindTemplateAt(ts: seq<PatientTemplate>, id: GoString, i: nat)
    requires i <= |ts|
    requires forall k | 0 <= k < i :: ts[k].id != id
    requires i < |ts| ==> ts[i].id == id
    ensures FindTemplate(ts, id) == if i < |ts| then Some(i) else None
  {
  }
}
