# SmartBox Next backend: a Dafny model

This project models the Go backend of SmartBox Next, a capture station that
turns a webcam snapshot into a DICOM file and queues it for upload to a PACS.
The model covers five parts of that backend and proves properties about each.

- **The hand-written DICOM encoders.** There are three byte-level writers:
  `CambridgeStyleDicomWriter`, `JpegDicomWriter` and `WorkingDicomWriter`.
  Each writes the 128-byte preamble, `DICM` and the group-0002 file meta
  header in explicit VR. The main dataset follows, in implicit VR for the
  Cambridge writer and in explicit VR for the other two. The pixel data comes
  last: encapsulated JPEG, or raw RGB. There is also the simple writer
  `DicomCreator`, which writes a `.jpg` next to a `_metadata.txt`.
  - Every writer is a class whose methods append to a `ByteWriter` (the file
    or `bytes.Buffer`).
  - Each method is proved to append exactly the bytes of a pure
    specification. The specifications are `EncodeExplicit`,
    `EncodeImplicit`, `ExplicitStream`, `ImplicitStream` and
    `EncapsulatedItems`.
  - Each specification has a parser (`ParseExplicit`, `ParseImplicitStream`,
    `ReadImplicitFile`, `ReadExplicitFile`, …). Round-trip lemmas show that
    what is written reads back as the same elements.
  - Element encoding follows DICOM PS3.5: section 7.1.2 for explicit VR,
    section 7.1.3 for implicit VR, section 6.2 for even-length padding, and
    sections A.4 and 7.5 for encapsulation. The file header follows section
    7.1 of DICOM PS3.10.
- **The PACS upload queue** (`UploadQueue`). It has a map of items, an
  ordered slice of IDs and a `processing` flag.
  - Its class invariant is that every queued ID is a key of the map.
  - The model covers adding by priority, retry, cancel, the status count,
    the filtered listing and one step of the processing loop.
  - It also covers cleaning up completed items and restoring the queue from
    disk.
- **The C-STORE service** (`StoreService`):
  - the error categorisation;
  - the retry policy with its linear backoff (each outcome of an attempt is
    an oracle);
  - the statistics counters;
  - the connection pre-check.
- **The configuration manager** (`ConfigManager`):
  - the defaults;
  - loading from the first readable path;
  - saving to all paths;
  - the version counter;
  - the "import only if newer" gate.
- **The application object** (`App`):
  - the camera listing;
  - the export file name and the enqueue decision;
  - the queue listing filter;
  - the emergency patient templates.

## How the model represents Go

- Go strings are Dafny strings. A byte string is `seq<uint8>`; `ToBytes`
  keeps each character's low byte, which is Go's `[]byte(s)` for ASCII text
  (see "Left out" for other text).
- Anything the source reads from outside the program is a parameter:
  - the clock (`Instant` values). Each `time.Now()` or `AddDate` result that
    reaches an output is a separate argument. Where one call reads the clock
    several times, the readings are grouped: `JpegClock`, `CambridgeClock`,
    `UidReading` (the two reads inside one `generateUID`), the date and time
    readings of the simple writer, and the four readings of `ExportDicom` and
    `ApplyEmergencyTemplate`;
  - the process ID;
  - the base64 and JPEG decoders (functions returning `Option`);
  - whether a file exists or can be created, and what a file on disk
    contains;
  - the upload outcome of each attempt;
  - the generated queue IDs.
- Where the source iterates over a Go map, the model takes the iteration
  order as a parameter (`order`).
- Fixed-width integers are explicit:
  - `ToUint16` and `ToUint32` wrap modulo 2^16 and 2^32;
  - `GoRem` is Go's truncating `%`;
  - `Itoa` is `%d`.

Three observations come out of the model without being treated as bugs:

- `containsIgnoreCase` always returns true
  (`backend/pacs/store_service.go:291-295`). So `contains` only compares
  lengths, and `categorizeError` can only return Timeout (a message of 7 or
  more bytes), Unknown or None.
  - No attempt error ever stops the retry loop early.
  - `CategorizeByLength`, `ContainsOnlyComparesLengths` and
    `AttemptErrorsNeverStop` state this.
- The Cambridge writer declares JPEG Baseline as the transfer syntax, yet
  writes the main dataset in implicit VR (`CambridgeDatasetIsImplicit`).
- `app.go:247` fills a `Description` field that `StudyInfo` does not declare
  (`backend/dicom/simple_dicom.go:21-27`). The model stores the template's
  study description in `StudyDescription`.

## Model

| member | source | states |
|---|---|---|
| DicomEncoding.PadText | smartbox-next/backend/dicom/cambridge_style_dicom.go:218-224 | The result always has even length. It is the input's bytes when the input is even, and those bytes followed by a space (0x20) when odd. |
| DicomEncoding.PadUid | smartbox-next/backend/dicom/cambridge_style_dicom.go:226-232 | The result always has even length. It is the input's bytes when the input is even, and those bytes followed by NUL when odd. |
| DicomEncoding.PadTextRoundTrip | smartbox-next/backend/dicom/jpeg_dicom.go:168-180 | Removing one trailing space from `cs`/`pn`/`lo` output gives back the original text, when that text does not end in a space. |
| DicomEncoding.PadUidRoundTrip | smartbox-next/backend/dicom/jpeg_dicom.go:162-166 | Removing one trailing NUL from `ui` output gives back the UID, when the UID does not end in NUL. |
| GoRuntime.LE16RoundTrip | smartbox-next/backend/dicom/cambridge_style_dicom.go:234-238 | Decoding the 2 little-endian bytes of `uint16ToBytes(v)` gives back `v`. |
| GoRuntime.LE32RoundTrip | smartbox-next/backend/dicom/cambridge_style_dicom.go:240-244 | Decoding the 4 little-endian bytes of `uint32ToBytes(v)` gives back `v`. |
| GoRuntime.LE16Injective | smartbox-next/backend/dicom/jpeg_dicom.go:190-194 | `us` maps distinct values to distinct byte pairs. |
| GoRuntime.LE32Injective | smartbox-next/backend/dicom/jpeg_dicom.go:196-200 | `ul` maps distinct values to distinct 4-byte strings. |
| GoRuntime.ToUint16 | smartbox-next/backend/dicom/jpeg_dicom.go:64-65 | `uint16(x)` is the identity in range. Otherwise it is congruent to `x` modulo 2^16. |
| GoRuntime.ToUint32 | smartbox-next/backend/dicom/jpeg_dicom.go:196-200 | `uint32(x)` is the identity in range. Otherwise it is congruent to `x` modulo 2^32. |
| GoRuntime.GoRem | smartbox-next/backend/dicom/cambridge_style_dicom.go:79-80 | Go's `%` agrees with the mathematical remainder for a non-negative left operand. For a negative one it lies in (-b, 0]. |
| GoRuntime.TrimPrefix | smartbox-next/backend/dicom/cambridge_style_dicom.go:44 | With the prefix present, prefix + result is the input. Otherwise the result is the input unchanged. |
| GoRuntime.TrimSuffix | smartbox-next/backend/dicom/simple_dicom.go:75 | With the suffix present, result + suffix is the input. Otherwise the result is the input unchanged. |
| GoRuntime.NatToDecimalRoundTrip | smartbox-next/backend/dicom/cambridge_style_dicom.go:81-83 | Reading back the decimal digits `%d` prints for a natural number gives that number. |
| GoRuntime.ItoaInjective | smartbox-next/backend/dicom/cambridge_style_dicom.go:81-83 | `%d` prints distinct integers as distinct strings. |
| GoRuntime.ItoaLength | smartbox-next/backend/dicom/cambridge_style_dicom.go:79-83 | A value below 10^k in magnitude prints in at most k digits, plus a sign when negative. |
| GoRuntime.SplitAtSeparator | smartbox-next/backend/dicom/jpeg_dicom.go:202-205 | When neither left part contains the separator, `a + sep + b` determines `a` and `b`. |
| GoTime.FormatDateTime | smartbox-next/app.go:246 | The `20060102150405` layout is 14 digits: the `20060102` date followed by the `150405` time. |
| GoTime.FormatStamp | smartbox-next/app.go:141 | The `20060102_150405` layout is 15 characters: the date, `_`, then the time. |
| DicomEncoding.ExplicitLayout | smartbox-next/backend/dicom/cambridge_style_dicom.go:181-201 | An explicit-VR element is the tag LE, then the two VR characters. A long VR follows with 00 00 and a 32-bit length (12-byte header); any other VR follows with a 16-bit length (8-byte header). The value comes last. |
| DicomEncoding.ImplicitLayout | smartbox-next/backend/dicom/cambridge_style_dicom.go:204-216 | An implicit-VR element is the tag LE, a 32-bit LE length and the value: exactly 8 + len(data) bytes. |
| DicomEncoding.ExplicitRoundTrip | smartbox-next/backend/dicom/jpeg_dicom.go:144-157 | Parsing an encoded explicit-VR element returns the element and the untouched remainder. |
| DicomEncoding.ImplicitRoundTrip | smartbox-next/backend/dicom/cambridge_style_dicom.go:204-216 | Parsing an encoded implicit-VR element returns the element and the untouched remainder. |
| DicomEncoding.ExplicitStreamRoundTrip | smartbox-next/backend/dicom/working_dicom.go:121-135 | A run of explicit-VR elements written one after another parses back to the same elements. |
| DicomEncoding.ImplicitStreamRoundTrip | smartbox-next/backend/dicom/cambridge_style_dicom.go:113-151 | A run of implicit-VR elements written one after another parses back to the same elements. |
| DicomEncoding.ImplicitStreamAppend | smartbox-next/backend/dicom/cambridge_style_dicom.go:113-151 | Writing two runs of implicit elements in turn gives the encoding of their concatenation. |
| DicomEncoding.ExplicitStreamAppend | smartbox-next/backend/dicom/jpeg_dicom.go:88-109 | Writing two runs of explicit elements in turn gives the encoding of their concatenation. |
| DicomEncoding.TagBytesInjective | smartbox-next/backend/dicom/cambridge_style_dicom.go:155-156 | Distinct (group, element) pairs give distinct 4-byte tag encodings. |
| DicomEncoding.TagLessIsNumberOrder | smartbox-next/backend/dicom/cambridge_style_dicom.go:113-156 | (group, element) order agrees with the order of the 32-bit tag number. |
| DicomEncoding.AdjacentAscendingIsSorted | smartbox-next/backend/dicom/cambridge_style_dicom.go:113-156 | Tags that ascend between neighbours ascend strictly throughout. |
| DicomEncoding.FileHeaderShape | smartbox-next/backend/dicom/cambridge_style_dicom.go:72-76 | The file starts with 128 zero bytes followed by ASCII `DICM`: 132 bytes. |
| DicomEncoding.EncapsulatedItemsLayout | smartbox-next/backend/dicom/cambridge_style_dicom.go:161-175 | The items are an empty offset-table item (FFFE,E000) of length 0, then one item of length len(jpeg) holding the JPEG verbatim, then (FFFE,E0DD) of length 0: 24 + len(jpeg) bytes. |
| DicomEncoding.EncapsulatedItemsRoundTrip | smartbox-next/backend/dicom/jpeg_dicom.go:118-141 | Parsing the encapsulated items gives back the JPEG bytes. |
| DicomEncoding.MetaGroupRoundTrip | smartbox-next/backend/dicom/cambridge_style_dicom.go:86-108 | When (0002,0000) holds the byte count of the meta elements after it, the meta group parses back to those elements and leaves the rest of the file. |
| DicomEncoding.MetaGroupMisread | smartbox-next/backend/dicom/jpeg_dicom.go:80 | With any other group-length value, the meta group does not parse back to the elements that were written. |
| DicomEncoding.ImplicitDatasetRoundTrip | smartbox-next/backend/dicom/cambridge_style_dicom.go:113-159 | An implicit dataset followed by the undefined-length pixel-data header parses back to its elements, and the encapsulated items are left over. |
| DicomEncoding.ExplicitDatasetRoundTrip | smartbox-next/backend/dicom/jpeg_dicom.go:88-112 | An explicit dataset parses back to its elements, whether or not encapsulated pixel data follows. |
| DicomEncoding.ExplicitFileReadsBack | smartbox-next/backend/dicom/jpeg_dicom.go:76-112 | With a correct group length, a whole explicit-VR file parses back to its meta elements, its dataset elements and its pixel items. |
| DicomEncoding.ByteWriter.Write | smartbox-next/backend/dicom/jpeg_dicom.go:76-77 | `Write` appends exactly the given bytes to the file. |
| DicomEncoding.WriteItemHeader | smartbox-next/backend/dicom/jpeg_dicom.go:125-137 | It appends an item tag (FFFE,element) followed by a 32-bit LE length. |
| DicomEncoding.WriteEncapsulatedItems | smartbox-next/backend/dicom/jpeg_dicom.go:125-140 | It appends exactly the encapsulated items of the JPEG. |
| ExplicitDataset.ExplicitVRForms | smartbox-next/backend/dicom/jpeg_dicom.go:149 | `tagExplicit` uses the long form for OB and UT. UL, UI, DA, TM, CS, PN, LO and US take the short form. |
| ExplicitDataset.Da | smartbox-next/backend/dicom/jpeg_dicom.go:182-184 | `da` gives 8 bytes, the `20060102` date, unpadded. |
| ExplicitDataset.Tm | smartbox-next/backend/dicom/jpeg_dicom.go:186-188 | `tm` gives 6 bytes, the `150405` time, unpadded. |
| ExplicitDataset.MetaLength | smartbox-next/backend/dicom/jpeg_dicom.go:81-85 | The five meta elements after the group length take 80 bytes plus the two padded UIDs. |
| ExplicitDataset.DatasetTagsAscending | smartbox-next/backend/dicom/jpeg_dicom.go:88-112 | The main-dataset tags ascend strictly, ending with (7FE0,0010). |
| ExplicitDataset.DatasetElementsReadable | smartbox-next/backend/dicom/jpeg_dicom.go:88-109 | Every main-dataset element fits its length field and is not the encapsulated pixel header. |
| ExplicitDataset.TagExplicit | smartbox-next/backend/dicom/jpeg_dicom.go:144-157 | `tagExplicit` appends exactly the explicit-VR encoding of the element. |
| ExplicitDataset.WriteMeta | smartbox-next/backend/dicom/jpeg_dicom.go:80-85 | It appends the group-length element, then the five meta elements. |
| ExplicitDataset.WriteDataset | smartbox-next/backend/dicom/jpeg_dicom.go:88-109 | It appends the 18 main-dataset elements in order. |
| CambridgeStyleDicom.CambridgeVRForms | smartbox-next/backend/dicom/cambridge_style_dicom.go:192 | OB takes the long form. UI, SH and UL take the short form. |
| CambridgeStyleDicom.CambridgeUidLength | smartbox-next/backend/dicom/cambridge_style_dicom.go:79-83 | A Cambridge-style UID is at most 42 characters. Its kind digit sits at position 22. |
| CambridgeStyleDicom.CambridgeUidsWellFormed | smartbox-next/backend/dicom/cambridge_style_dicom.go:79-83 | The SOP instance, study and series UIDs are pairwise distinct and at most 42 characters. For a non-negative clock they are valid UIDs. |
| CambridgeStyleDicom.CambridgeMetaLength | smartbox-next/backend/dicom/cambridge_style_dicom.go:86-107 | The value written to (0002,0000) is 142 plus the padded SOP instance UID. |
| CambridgeStyleDicom.CambridgeMainTagsAscending | smartbox-next/backend/dicom/cambridge_style_dicom.go:113-156 | The main-dataset tags ascend strictly, ending with (7FE0,0010). |
| CambridgeStyleDicom.MainElementsFit | smartbox-next/backend/dicom/cambridge_style_dicom.go:113-151 | Every main-dataset value fits the 32-bit implicit length field. |
| CambridgeStyleDicom.CambridgeFileReadsBack | smartbox-next/backend/dicom/cambridge_style_dicom.go:37-178 | The whole written file reads back to its six meta elements, its main-dataset elements and the JPEG bytes. |
| CambridgeStyleDicom.CambridgePixelDataLayout | smartbox-next/backend/dicom/cambridge_style_dicom.go:153-175 | Pixel data is (7FE0,0010), FFFFFFFF, then the encapsulated items: 32 + len(jpeg) bytes. |
| CambridgeStyleDicom.CambridgeDeclaresJpegBaseline | smartbox-next/backend/dicom/cambridge_style_dicom.go:98 | The meta header's transfer syntax is JPEG Baseline (1.2.840.10008.1.2.4.50). |
| CambridgeStyleDicom.CambridgeDatasetIsImplicit | smartbox-next/backend/dicom/cambridge_style_dicom.go:113 | The dataset's first element is written with no VR characters: after the tag comes a 4-byte length. |
| CambridgeStyleDicom.CambridgeStyleDicomWriter.constructor | smartbox-next/backend/dicom/cambridge_style_dicom.go:22-24 | A new writer holds empty patient and study records. |
| CambridgeStyleDicom.CambridgeStyleDicomWriter.SetPatientInfo | smartbox-next/backend/dicom/cambridge_style_dicom.go:27-29 | It replaces the patient record wholesale and leaves the study record unchanged. |
| CambridgeStyleDicom.CambridgeStyleDicomWriter.SetStudyInfo | smartbox-next/backend/dicom/cambridge_style_dicom.go:32-34 | It replaces the study record wholesale and leaves the patient record unchanged. |
| CambridgeStyleDicom.CambridgeStyleDicomWriter.WriteExplicitVR | smartbox-next/backend/dicom/cambridge_style_dicom.go:181-201 | It appends exactly the explicit-VR encoding of the element. |
| CambridgeStyleDicom.CambridgeStyleDicomWriter.WriteImplicitVR | smartbox-next/backend/dicom/cambridge_style_dicom.go:204-216 | It appends exactly the implicit-VR encoding of the element. |
| CambridgeStyleDicom.CambridgeStyleDicomWriter.WriteMeta | smartbox-next/backend/dicom/cambridge_style_dicom.go:86-104 | It appends the six meta elements to the meta buffer. |
| CambridgeStyleDicom.CambridgeStyleDicomWriter.WriteMain | smartbox-next/backend/dicom/cambridge_style_dicom.go:113-151 | It appends the 33 main-dataset elements in order. The study date, content date, study time and content time each come from their own clock reading. |
| CambridgeStyleDicom.CambridgeStyleDicomWriter.WritePixelData | smartbox-next/backend/dicom/cambridge_style_dicom.go:155-175 | It appends the pixel-data header and the encapsulated items. |
| CambridgeStyleDicom.CambridgeStyleDicomWriter.CreateFromDataURL | smartbox-next/backend/dicom/cambridge_style_dicom.go:37-178 | A URL without the JPEG data-URL prefix gives "unsupported data URL format". It succeeds exactly when the prefix is present, base64 decodes, the JPEG header decodes, and the directory and file can be created. On success the bytes are the specified file: the UIDs come from one clock reading, and the four date and time elements from four more. |
| JpegDicom.GenerateUidLength | smartbox-next/backend/dicom/jpeg_dicom.go:202-205 | A generated UID is at most 38 characters. |
| JpegDicom.GenerateUidInjective | smartbox-next/backend/dicom/jpeg_dicom.go:202-205 | Two calls give the same UID only if their seconds readings agree and their nanosecond readings agree. Each call reads the clock twice. |
| JpegDicom.GenerateUidValid | smartbox-next/backend/dicom/jpeg_dicom.go:202-205 | For a non-negative seconds reading the UID is 1 to 64 characters of digits and dots. |
| JpegDicom.JpegMetaLength | smartbox-next/backend/dicom/jpeg_dicom.go:80-85 | The meta elements after the group length take 102 bytes plus the padded UID. That is at most 140, so never 166. |
| JpegDicom.JpegPixelDataLayout | smartbox-next/backend/dicom/jpeg_dicom.go:118-141 | Pixel data is (7FE0,0010) "OB" 00 00 FFFFFFFF followed by the encapsulated items: 36 + len(jpeg) bytes. |
| JpegDicom.JpegTagsAscending | smartbox-next/backend/dicom/jpeg_dicom.go:88-112 | The main-dataset tags ascend strictly, ending with (7FE0,0010). |
| JpegDicom.JpegDeclaresJpegBaseline | smartbox-next/backend/dicom/jpeg_dicom.go:84 | The meta header's transfer syntax is JPEG Baseline. |
| JpegDicom.LongVRSetsDiffer | smartbox-next/backend/dicom/cambridge_style_dicom.go:192 | UT and OF get a 12-byte header in the JPEG and working writers but an 8-byte header in the Cambridge writer. |
| JpegDicom.JpegGroupLengthMisread | smartbox-next/backend/dicom/jpeg_dicom.go:80 | With the constant 166, a reader does not get back the meta elements that were written. |
| JpegDicom.JpegSopInstanceMismatch | smartbox-next/backend/dicom/jpeg_dicom.go:83-89 | The SOP instance UIDs in (0002,0003) and (0008,0018) differ whenever the two `generateUID` calls see different clock readings. |
| JpegDicom.JpegFileCorrectedReadsBack | smartbox-next/backend/dicom/jpeg_dicom.go:76-112 | With the group length computed and one SOP instance UID used twice, the file reads back to its meta elements, dataset and JPEG, and both UIDs agree. |
| JpegDicom.JpegDicomWriter.constructor | smartbox-next/backend/dicom/jpeg_dicom.go:22-24 | A new writer holds empty patient and study records. |
| JpegDicom.JpegDicomWriter.SetPatientInfo | smartbox-next/backend/dicom/jpeg_dicom.go:27-29 | It replaces the patient record and leaves the study record unchanged. |
| JpegDicom.JpegDicomWriter.GetPatientInfo | smartbox-next/backend/dicom/jpeg_dicom.go:32-34 | It returns the stored patient record. |
| JpegDicom.JpegDicomWriter.SetStudyInfo | smartbox-next/backend/dicom/jpeg_dicom.go:37-39 | It replaces the study record and leaves the patient record unchanged. |
| JpegDicom.JpegDicomWriter.GetStudyInfo | smartbox-next/backend/dicom/jpeg_dicom.go:42-44 | It returns the stored study record. |
| JpegDicom.JpegDicomWriter.WriteEncapsulatedPixelData | smartbox-next/backend/dicom/jpeg_dicom.go:118-141 | It appends exactly the encapsulated pixel data. |
| JpegDicom.JpegDicomWriter.CreateFromDataURL | smartbox-next/backend/dicom/jpeg_dicom.go:47-115 | A URL without the prefix gives "unsupported format". It succeeds exactly when the prefix is present, the base64 and the JPEG header decode, and the file can be created. On success the bytes are the file as written, including the constant group length 166. |
| WorkingDicom.RgbPixels | smartbox-next/backend/dicom/working_dicom.go:58 | The RGB buffer has exactly width·height·3 bytes. |
| WorkingDicom.PixelIndex | smartbox-next/backend/dicom/working_dicom.go:59-68 | Byte 3·(y·width+x)+c holds channel c (the high byte of R, G or B) of pixel (x, y), in row-major order. |
| WorkingDicom.ConvertToRgb | smartbox-next/backend/dicom/working_dicom.go:57-68 | The nested loop fills the array with exactly `RgbPixels(img)`. |
| WorkingDicom.FillRow | smartbox-next/backend/dicom/working_dicom.go:61-67 | One pass of the inner loop writes row y's pixels after the bytes already filled, which it keeps. |
| WorkingDicom.PutPixel | smartbox-next/backend/dicom/working_dicom.go:62-66 | It stores the three high bytes at `idx` and keeps every earlier byte. |
| WorkingDicom.WorkingMetaLength | smartbox-next/backend/dicom/working_dicom.go:84-88 | The meta elements after the group length take exactly 110 bytes. |
| WorkingDicom.WorkingGroupLengthMisread | smartbox-next/backend/dicom/working_dicom.go:83 | With the constant 132, a reader does not get back the meta elements that were written. |
| WorkingDicom.WorkingFileCorrectedReadsBack | smartbox-next/backend/dicom/working_dicom.go:79-115 | With group length 110, the whole file reads back to its meta elements and its 19 dataset elements, raw pixel data included. |
| WorkingDicom.WorkingPixelDataConsistent | smartbox-next/backend/dicom/working_dicom.go:107-115 | Rows and Columns decode to the image height and width. The OB pixel value has exactly Rows·Columns·3 bytes. |
| WorkingDicom.WorkingTagsAscending | smartbox-next/backend/dicom/working_dicom.go:91-115 | The dataset tags ascend strictly, ending with (7FE0,0010). |
| WorkingDicom.WorkingDeclaresExplicitVR | smartbox-next/backend/dicom/working_dicom.go:86-92 | The transfer syntax is Explicit VR Little Endian. The meta and dataset SOP instance UIDs agree. |
| WorkingDicom.WriteWorkingDataset | smartbox-next/backend/dicom/working_dicom.go:91-115 | It appends the 19 dataset elements, the RGB pixel data last. |
| WorkingDicom.WorkingDicomWriter.constructor | smartbox-next/backend/dicom/working_dicom.go:22-24 | A new writer holds empty patient and study records. |
| WorkingDicom.WorkingDicomWriter.SetPatientInfo | smartbox-next/backend/dicom/working_dicom.go:27-29 | It replaces the patient record and leaves the study record unchanged. |
| WorkingDicom.WorkingDicomWriter.SetStudyInfo | smartbox-next/backend/dicom/working_dicom.go:32-34 | It replaces the study record and leaves the patient record unchanged. |
| WorkingDicom.WorkingDicomWriter.CreateFromDataURL | smartbox-next/backend/dicom/working_dicom.go:37-118 | A URL without the prefix gives "unsupported format". It succeeds exactly when the prefix is present, the base64 and the JPEG decode, and the file can be created. On success the bytes are the file as written, with group length 132. |
| SimpleDicom.JpegDataUrlPayload | smartbox-next/backend/dicom/simple_dicom.go:54-58 | There is a payload exactly when the URL starts with `data:image/jpeg;base64,`. Prefix + payload is the URL. |
| SimpleDicom.ImagePathShape | smartbox-next/backend/dicom/simple_dicom.go:75 | The image path is the output path with a trailing `.dcm` removed, if present, followed by `.jpg`. |
| SimpleDicom.MetadataPathSharesStem | smartbox-next/backend/dicom/simple_dicom.go:75-83 | The metadata path is the output path without `.dcm`, followed by `_metadata.txt`. |
| SimpleDicom.MetadataTextStart | smartbox-next/backend/dicom/simple_dicom.go:84-87 | The metadata text starts with the fixed header and then the patient name line. |
| SimpleDicom.MetadataTextEnd | smartbox-next/backend/dicom/simple_dicom.go:97-99 | The metadata text ends with the constant Modality OT, Manufacturer CIRSS and Model SmartBox Next lines. |
| SimpleDicom.DicomCreator.constructor | smartbox-next/backend/dicom/simple_dicom.go:36-38 | A new creator holds empty patient and study records. |
| SimpleDicom.DicomCreator.SetPatientInfo | smartbox-next/backend/dicom/simple_dicom.go:41-43 | It replaces the patient record and leaves the study record unchanged. |
| SimpleDicom.DicomCreator.SetStudyInfo | smartbox-next/backend/dicom/simple_dicom.go:46-48 | It replaces the study record and leaves the patient record unchanged. |
| SimpleDicom.DicomCreator.CreateFromDataURL | smartbox-next/backend/dicom/simple_dicom.go:52-117 | A bad prefix or a base64 failure is an error with no file written. It succeeds exactly when the directory and both files can be written. On success it writes the JPEG to the image path, then the metadata text to the metadata path; the text's study date and study time come from two separate clock readings. On failure nothing was written, except when only the metadata write failed: then the image file alone was written. |
| StoreService.ContainsScan | smartbox-next/backend/pacs/store_service.go:282-289 | The loop returns true exactly when some candidate passes the length test and `containsIgnoreCase`. |
| StoreService.ContainsOnlyComparesLengths | smartbox-next/backend/pacs/store_service.go:282-295 | `contains` holds exactly when some candidate is no longer than the string, because `containsIgnoreCase` always returns true. |
| StoreService.CategorizeByLength | smartbox-next/backend/pacs/store_service.go:257-280 | A nil error is ErrorNone. Any other error is ErrorTimeout when its message has at least 7 bytes, and ErrorUnknown otherwise. |
| StoreService.AttemptErrorsNeverStop | smartbox-next/backend/pacs/store_service.go:159-163 | No attempt error is categorised FileNotFound, Auth or PACSRejected, so none stops the retries early. |
| StoreService.MaxAttempts | smartbox-next/backend/pacs/store_service.go:128-131 | At least one attempt is made. A positive MaxRetries is used as it is. |
| StoreService.RetrySchedule | smartbox-next/backend/pacs/store_service.go:133-179 | RetryCount is the 0-based index of the last attempt, and every earlier attempt failed. The result succeeds exactly when that attempt succeeded. After a failure, RetryCount is the last index and the message and type come from the last error. The timestamp and transaction ID are kept. |
| StoreService.StoreAttemptsAll | smartbox-next/backend/pacs/store_service.go:94-184 | With PACS enabled, memory available and the file present, RetryCount stays within the attempts. A failure exhausts every attempt; a success means the attempt at RetryCount succeeded. |
| StoreService.BaseName | smartbox-next/backend/pacs/store_service.go:103 | `filepath.Base`: "." for the empty path and "/" for a path of slashes only. Otherwise it is the last run of non-slash characters: it is not empty, contains no `/`, starts the path or follows a `/`, and only slashes come after it. |
| StoreService.BaseNameOfJoin | smartbox-next/backend/pacs/store_service.go:103 | The base of `dir/name` is `name`, for a non-empty name without `/`. |
| StoreService.BaseNameIgnoresTrailingSlash | smartbox-next/backend/pacs/store_service.go:103 | A trailing `/` does not change the base of a non-empty path. |
| StoreService.RetryLoop | smartbox-next/backend/pacs/store_service.go:133-179 | The loop computes `RetryFrom`. The waits are RetryDelay·(k+1) for each attempt k before the last one made. |
| StoreService.StoreService.constructor | smartbox-next/backend/pacs/store_service.go:58-67 | A new service has zero counters and no resource flags, and its statistics are consistent. |
| StoreService.StoreService.UpdateStats | smartbox-next/backend/pacs/store_service.go:225-237 | TotalAttempts grows by one, and so does exactly one of SuccessfulSends or FailedSends, with the last success or last error recorded. Total = Successful + Failed is preserved. |
| StoreService.StoreService.TestConnection | smartbox-next/backend/pacs/store_service.go:70-91 | It returns nil exactly when PACS is enabled, memory is not low, the host is non-empty and the port is non-zero. When PACS is disabled it says so. |
| StoreService.StoreService.StoreFile | smartbox-next/backend/pacs/store_service.go:94-184 | The result is the specified outcome, with the early returns for a missing file, low memory and disabled PACS. Statistics change, by exactly one attempt, only when the retry loop ran. A success sets LastSuccess to now and keeps LastError; a failure sets LastError to the message and keeps LastSuccess. The early returns leave every statistic unchanged. |
| UploadQueue.InsertIndex | smartbox-next/backend/pacs/upload_queue.go:129-138 | The insertion point is the first queued item that is pending with a strictly lower priority, or the end of the queue. |
| UploadQueue.Inserted | smartbox-next/backend/pacs/upload_queue.go:134 | Inserting at i places the ID at i, keeps the items before it, and shifts the items after it by one. |
| UploadQueue.AddKeepsOrder | smartbox-next/backend/pacs/upload_queue.go:129-142 | Inserting a new pending item keeps the queue valid and keeps pending IDs in non-increasing priority. Pending items before it have at least its priority; those after it have strictly less. |
| UploadQueue.FirstPending | smartbox-next/backend/pacs/upload_queue.go:301-314 | The index found is the first pending item in queue order, or none when nothing is pending. |
| UploadQueue.FirstPendingHasTopPriority | smartbox-next/backend/pacs/upload_queue.go:301-309 | In a priority-ordered queue, the first pending item has the highest priority of all pending items. |
| UploadQueue.Matching | smartbox-next/backend/pacs/upload_queue.go:195-203 | Every listed item has the requested status, and the listing is no longer than the queue. |
| UploadQueue.ListedIsPrefix | smartbox-next/backend/pacs/upload_queue.go:189-206 | `GetItems` returns a prefix of the matching items in queue order: all of them when limit ≤ 0, and min(count, limit) otherwise. With no filter it lists every queued item. |
| UploadQueue.MatchingAll | smartbox-next/backend/pacs/upload_queue.go:195-203 | With no filter, the listing is the queue's items in queue order. |
| UploadQueue.CountInStep | smartbox-next/backend/pacs/upload_queue.go:165-176 | Counting one more key adds one exactly when that item has the counted status. |
| UploadQueue.SuccessIds | smartbox-next/backend/pacs/upload_queue.go:431-436 | The scan collects only successful items, in map-iteration order. |
| UploadQueue.Victims | smartbox-next/backend/pacs/upload_queue.go:438-444 | Cleanup deletes only successful items. |
| UploadQueue.VictimsCount | smartbox-next/backend/pacs/upload_queue.go:438-444 | With more than 100 successful items, cleanup deletes exactly (count − 100) of them. |
| UploadQueue.Without | smartbox-next/backend/pacs/upload_queue.go:441-443 | The filtered queue keeps exactly the queued IDs that were not deleted. |
| UploadQueue.CleanupAsWrittenBreaksValid | smartbox-next/backend/pacs/upload_queue.go:429-445 | Deleting from the map but not from the queue leaves queued IDs with no item, whenever there are more than 100 successes. |
| UploadQueue.CleanupKeepsValid | smartbox-next/backend/pacs/upload_queue.go:429-445 | Deleting the same IDs from both the map and the queue keeps every queued ID a key, and keeps every non-successful item. |
| UploadQueue.Reset | smartbox-next/backend/pacs/upload_queue.go:387-390 | An item restored from disk is never left uploading. |
| UploadQueue.RestoredKeys | smartbox-next/backend/pacs/upload_queue.go:383-392 | The restored map's keys are exactly the IDs of the saved items. |
| UploadQueue.RestoredValid | smartbox-next/backend/pacs/upload_queue.go:383-394 | The restored queue is valid exactly when every saved queue ID belongs to a saved item. |
| UploadQueue.Finished | smartbox-next/backend/pacs/upload_queue.go:337-347 | After the upload the item is success with the error cleared, or failed with the result's message. |
| UploadQueue.UnpendKeepsOrder | smartbox-next/backend/pacs/upload_queue.go:316-347 | Moving an item out of pending keeps the queue valid and priority-ordered. |
| UploadQueue.UploadQueue.constructor | smartbox-next/backend/pacs/upload_queue.go:68-91 | A new queue starts empty and not processing, then loads the persisted queue. A failed or missing load leaves it empty and valid. A parsed file gives the restored items and the saved order, valid exactly when `RestoredValid`'s condition holds. |
| UploadQueue.UploadQueue.LoadFromDisk | smartbox-next/backend/pacs/upload_queue.go:357-397 | It succeeds exactly when the directory exists and the file is missing or parses. A missing file changes nothing. A parsed file restores its items, with uploading reset to pending, and its queue. |
| UploadQueue.UploadQueue.FindInsertIndex | smartbox-next/backend/pacs/upload_queue.go:129-138 | The loop finds exactly `InsertIndex`. |
| UploadQueue.UploadQueue.Add | smartbox-next/backend/pacs/upload_queue.go:94-153 | A missing file is an error and changes nothing. When 1000 or more items are present, cleanup runs first. It fails when 1000 or more items remain; else it returns the ID, stores a new pending item and inserts it at `InsertIndex`. The invariant is kept. |
| UploadQueue.UploadQueue.InsertItem | smartbox-next/backend/pacs/upload_queue.go:126-142 | The item enters the map, and its ID enters the queue at the insertion point. |
| UploadQueue.UploadQueue.GetStatus | smartbox-next/backend/pacs/upload_queue.go:156-186 | The totals are the number of items and the count per status, together with the processing flag. |
| UploadQueue.UploadQueue.GetItems | smartbox-next/backend/pacs/upload_queue.go:189-206 | It returns exactly `Listed`: the matching items in queue order, cut at the limit. |
| UploadQueue.UploadQueue.Retry | smartbox-next/backend/pacs/upload_queue.go:209-235 | It fails for an unknown ID or a non-failed item and changes nothing. It succeeds exactly on a failed item, which becomes pending with AttemptCount 0, an empty message and ErrorNone. The queue order is unchanged. |
| UploadQueue.UploadQueue.Cancel | smartbox-next/backend/pacs/upload_queue.go:238-262 | It fails for an unknown ID or a non-pending item and changes nothing. It succeeds exactly on a pending item, which becomes cancelled. The queue is unchanged. |
| UploadQueue.UploadQueue.NextPending | smartbox-next/backend/pacs/upload_queue.go:302-310 | The scan finds exactly `FirstPending`. |
| UploadQueue.UploadQueue.ProcessNext | smartbox-next/backend/pacs/upload_queue.go:292-355 | While processing, or with nothing pending, nothing changes. Otherwise the first pending item gets LastAttempt = now, AttemptCount + 1 and the upload's outcome, and `processing` is false again. |
| UploadQueue.UploadQueue.CleanupCompletedAsWritten | smartbox-next/backend/pacs/upload_queue.go:429-445 | As written: it deletes the victims from the map and leaves the queue as it was. |
| UploadQueue.UploadQueue.CleanupCompleted | smartbox-next/backend/pacs/upload_queue.go:429-445 | Corrected: it deletes the victims from the map and from the queue, and keeps the invariant. |
| UploadQueue.UploadQueue.SuccessScan | smartbox-next/backend/pacs/upload_queue.go:431-436 | The loop collects exactly the successful IDs, in iteration order. |
| Config.JoinPath | smartbox-next/backend/config/config.go:100-101 | The joined path ends with `/` and the name. |
| Config.DefaultConfigValues | smartbox-next/backend/config/config.go:112-176 | The defaults are: Version 1; PACS disabled, port 104, MaxRetries 3, RetryDelay 5; MaxQueueSize 1000. There are three distinct templates, emergency-male, emergency-female and emergency-child, each with a relative birth date. |
| Config.StoredAllEffect | smartbox-next/backend/config/config.go:268-280 | After saving to every path, each path whose write succeeded holds the config. Every other path is as before. |
| Config.FirstPresentIsFirst | smartbox-next/backend/config/config.go:184-199 | Load takes the first readable path in order: primary, then backups. There is none exactly when no path is readable. |
| Config.ImportGate | smartbox-next/backend/config/config.go:324-346 | An incoming config with a strictly greater Version replaces PACS and templates, and the Version becomes incoming + 1. Otherwise the config is unchanged. The Version never decreases. |
| Config.ConfigManager.constructor | smartbox-next/backend/config/config.go:93-109 | The backups are `~/.smartbox-next/config.json` and the temp-dir copy, in that order. The config is the first readable one, or the defaults. The files on disk then change as `Load` changes them. |
| Config.ConfigManager.SaveToPath | smartbox-next/backend/config/config.go:282-302 | A successful write stores the config at that path. Nothing else changes. |
| Config.ConfigManager.SaveAll | smartbox-next/backend/config/config.go:268-280 | It writes to the primary path, then every backup, and always returns nil. |
| Config.ConfigManager.Load | smartbox-next/backend/config/config.go:179-200 | It loads the first readable path, falling back to the defaults, and returns nil. Loading the primary path writes nothing. A config loaded from a backup is written to the primary path when that path is writable. The defaults are written to every writable path. |
| Config.ConfigManager.Save | smartbox-next/backend/config/config.go:203-211 | LastModified becomes now and Version grows by exactly 1. Then the config is written to every path. |
| Config.ConfigManager.SetPACS | smartbox-next/backend/config/config.go:221-232 | Only the PACS section is replaced, and then the Version is bumped through `Save`, which writes the config to every writable path. |
| Config.ConfigManager.ImportFromRemote | smartbox-next/backend/config/config.go:324-346 | Undecodable data is an error that changes nothing. Otherwise the config becomes `Imported`, and the disk is untouched when the import is not newer. A newer import is written to every writable path. |
| Config.ConfigManager.GetEmergencyTemplates | smartbox-next/backend/config/config.go:235-242 | It returns a fresh array equal in length and contents to the templates. |
| App.ExportFileNameShape | smartbox-next/app.go:141-142 | The file name is `IMG_` + `YYYYMMDD_HHMMSS` + `.dcm`: 23 characters. |
| App.ExportPath | smartbox-next/app.go:143 | The output path ends with `/` and the file name. |
| App.ExportPathBase | smartbox-next/app.go:141-143 | The base name of the export path is the export file name, so a "DICOM file not found" message for it names `IMG_<stamp>.dcm`. |
| App.ExportedItemCarriesPatient | smartbox-next/app.go:154-161 | The enqueued item carries the output path, the writer's patient name and ID, and the date of its own clock reading. It is stamped with the queue's reading, and it is pending at PriorityNormal with no attempts. |
| App.FindTemplate | smartbox-next/app.go:229-230 | The template found is the first one whose ID matches; there is none when no ID matches. |
| App.EmergencyIdentifiers | smartbox-next/app.go:239-248 | The patient ID is the template's ID + `-` + HHMMSS, and the name and sex are copied. The accession number is `EMRG-` followed by 14 digits. |
| App.BirthDateRewrite | smartbox-next/app.go:232-237 | Exactly `TODAY-40Y` and `TODAY-10Y` become an 8-digit date 40 or 10 years back. Any other birth date is copied verbatim. |
| App.DefaultTemplatesApply | smartbox-next/app.go:226-260 | Each default template is found at its position. The male and female templates get the 40-year date; the child template gets the 10-year date. |
| App.StatusFilter | smartbox-next/app.go:199-206 | An empty filter string means no status filter. Otherwise the string is the status. |
| App.GetCameras | smartbox-next/app.go:71-92 | A device error gives the single `error` camera. Otherwise there is one camera per device, in order, with ID and name copied and type `webcam`. |
| App.App.constructor | smartbox-next/app.go:36-58 | The app holds the given writer, output directory, config manager and queue. |
| App.App.GetQueueItems | smartbox-next/app.go:199-206 | It returns the queue's listing for the mapped filter and the limit. |
| App.App.ExportDicom | smartbox-next/app.go:139-165 | It succeeds exactly when the writer succeeds, returning the output path; a failure is prefixed "failed to create DICOM: " and writes nothing. On success the one file written is at `ExportPath` and holds `JpegFile` for the writer's patient, the decoded JPEG and its size. The queue changes only after a success with PACS enabled. Then `Add` runs: when the item fits after cleanup, it is stored under its ID and the ID is inserted at the PriorityNormal position of the cleaned-up queue; otherwise only the cleanup remains. The file name, the writer, the study date and the queue's timestamp each use their own clock readings. |
| App.App.ApplyEmergencyTemplate | smartbox-next/app.go:226-260 | An unmatched ID gives empty records and "template not found: ID", and the writer is untouched. Otherwise the first matching template's patient and study are returned and pushed to the writer. The patient ID and the accession number are stamped from two separate clock readings. |

## Left out

- Concurrency: mutexes, goroutines, the `processLoop` ticker, `Stop`, `monitorResources` and the status and change callbacks (`SetStatusCallback`, `OnChange`, `notifyChange`). Every method runs as one atomic step.
- Context cancellation and `time.After` in `StoreFile`. The model does not produce the "Upload cancelled" results; the waits are returned as a list of durations.
- `attemptStore`: a C-STORE stub is an oracle from the attempt index to an optional error.
- File system and JSON: `os.Stat`, `MkdirAll`, `Create`, `WriteFile`, `Rename`, `json.Marshal` and `Unmarshal`. They are parameters: existence and write-success flags, a `DiskRead` result, and a map from path to config.
- `saveToDisk` in the upload queue, and `ExportForRemote`: they only serialise state.
- The clock, the process ID and the ID generators (`generateQueueID`, `generateTransactionID`): they are parameters. `generateUID` is modelled over an injected clock reading.
- `filepath.Join` path cleaning: `JoinPath` joins with one `/`. `filepath.Dir` is not modelled.
- Go `int64` counters in the statistics: they are unbounded integers, and overflow is not modelled.
- The base64, JPEG header and JPEG image decoders: they are parameters returning `Option`.
- `CreateTestDicom` in the simple writer.
- The capture package, which wraps Windows calls and stubs.
- App UI plumbing: `main`, `startup`, `CaptureImage`, `GetSystemInfo`, `OpenDicomFolder` and `Quit`.
- App methods that only forward one call and are modelled at their target: `SetPatientInfo`, `SetStudyInfo`, `GetPACSConfig`, `SetPACSConfig`, `TestPACSConnection`, `GetQueueStatus`, `RetryQueueItem`, `CancelQueueItem` and `GetEmergencyTemplates`.
- `GetStatistics`: it only copies the counters.
- `reorderQueue` has an empty body, so `Retry` leaves the queue order unchanged.
- UploadQueue.UploadQueue.Add: stated over the corrected cleanup, which also removes deleted IDs from the queue. The source's cleanup leaves them queued (see Findings).
- The "queue is full" error of `Add` inside `ExportDicom` is ignored by the source, so the model does not surface it either.
- `[]byte(s)` is the UTF-8 encoding of `s`, but `ToBytes` keeps one low byte per character. For patient or study text outside ASCII, the model's bytes, lengths and even-length padding differ from the program's. This matters most for the Cambridge file, which declares `ISO_IR 192` (UTF-8).
- StoreService.BaseName: the separator is `/`, as on Unix, and so it is for `JoinPath`. On Windows, `filepath.Base` also splits at `\` and drops a volume name such as `C:`; that is not modelled.
- App.App.ApplyEmergencyTemplate: the template's study description is stored as `StudyDescription`, because `StudyInfo` has no `Description` field (`app.go:247`).

## Findings

| source | as written | input that shows it | evidently intended | confidence | as-written member | corrected member |
|---|---|---|---|---|---|---|
| smartbox-next/backend/dicom/jpeg_dicom.go:80 | (0002,0000) is the constant 166. | Any file: the meta elements after it take 102 + padded-UID bytes, at most 140. | The group length equals the byte count of the meta elements. | not executed | JpegDicom.JpegGroupLengthMisread | JpegDicom.JpegFileCorrectedReadsBack |
| smartbox-next/backend/dicom/jpeg_dicom.go:83-89 | (0002,0003) and (0008,0018) each call `generateUID()`. | Two calls that see different nanosecond readings give different UIDs. | Both hold the same SOP instance UID (section 7.1 of DICOM PS3.10). | not executed | JpegDicom.JpegSopInstanceMismatch | JpegDicom.JpegFileCorrectedReadsBack |
| smartbox-next/backend/dicom/working_dicom.go:83 | (0002,0000) is the constant 132. | Any file: the constant meta elements take exactly 110 bytes. | Group length 110. | not executed | WorkingDicom.WorkingGroupLengthMisread | WorkingDicom.WorkingFileCorrectedReadsBack |
| smartbox-next/backend/pacs/upload_queue.go:441-443 | Cleanup deletes successful items from `items` only. | 101 successful items, all queued: one ID stays in `queue` with no item, and `processNext` or `GetItems` then dereference a nil item. | Delete the same IDs from `queue`. | not executed | UploadQueue.CleanupAsWrittenBreaksValid | UploadQueue.UploadQueue.CleanupCompleted |
