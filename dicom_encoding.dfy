/** The tag-length-value element encodings that the three hand-written DICOM
    writers share: explicit-VR and implicit-VR data elements (DICOM PS3.5
    sections 7.1.2 and 7.1.3), even-length padding of text and UID values
    (PS3.5 section 6.2), and the encapsulated pixel-data layout (PS3.5 section
    A.4). Each writer decides which VRs take the long form, so that set is a
    parameter here. Every encoder has a parser beside it, and the round trips
    are proved. */
module DicomEncoding {
  import opened GoRuntime

  datatype Tag = Tag(group: uint16, element: uint16)

  /** An element written with its VR in the stream. */
  datatype ExplicitElement = ExplicitElement(tag: Tag, vr: GoString, value: Bytes)

  /** An element written without its VR: the reader takes it from its dictionary. */
  datatype ImplicitElement = ImplicitElement(tag: Tag, value: Bytes)

  // ---------------------------------------------------------------------------
  // Values

  /** `padString` / `cs` / `pn` / `lo`: text padded with one space to even length. */
  function PadText(s: GoString): (b: Bytes)
    ensures |b| % 2 == 0
    ensures |s| % 2 == 0 ==> b == ToBytes(s)
    ensures |s| % 2 == 1 ==> b == ToBytes(s) + [0x20]
  {
    if |s| % 2 != 0 then ToBytes(s) + [0x20] else ToBytes(s)
  }

  /** `padUID` / `ui`: a UID padded with one NUL byte to even length. */
  function PadUid(s: GoString): (b: Bytes)
    ensures |b| % 2 == 0
    ensures |s| % 2 == 0 ==> b == ToBytes(s)
    ensures |s| % 2 == 1 ==> b == ToBytes(s) + [0x00]
  {
    if |s| % 2 != 0 then ToBytes(s) + [0x00] else ToBytes(s)
  }

  /** Strips the one pad byte a padded value may end with: the reader's side of padding. */
  function Unpad(b: Bytes, pad: uint8): (r: Bytes)
  {
    if |b| > 0 && b[|b| - 1] == pad then b[..|b| - 1] else b
  }

  /** Padding loses nothing: a value that does not itself end in the pad byte is recovered. */
  lemma PadTextRoundTrip(s: GoString)
    requires IsByteString(s) && (|s| == 0 || s[|s| - 1] as int != 0x20)
    ensures Unpad(PadText(s), 0x20) == ToBytes(s)
  {
    if |s| % 2 == 1 {
      UnpadAddedByte(ToBytes(s), 0x20);
    } else if |s| > 0 {
      UnpadUnpadded(s, 0x20);
    }
  }

  lemma PadUidRoundTrip(s: GoString)
    requires IsByteString(s) && (|s| == 0 || s[|s| - 1] as int != 0)
    ensures Unpad(PadUid(s), 0x00) == ToBytes(s)
  {
    if |s| % 2 == 1 {
      UnpadAddedByte(ToBytes(s), 0x00);
    } else if |s| > 0 {
      UnpadUnpadded(s, 0x00);
    }
  }

  /** The pad byte a writer added is the one stripped. */
  lemma UnpadAddedByte(b: Bytes, pad: uint8)
    ensures Unpad(b + [pad], pad) == b
  {
    var p := b + [pad];
    assert p[|p| - 1] == pad;
    assert p[..|p| - 1] == b;
  }

  /** A value whose last byte is not the pad byte is left alone. */
  lemma UnpadUnpadded(s: GoString, pad: uint8)
    requires |s| > 0 && s[|s| - 1] as int < 256 && s[|s| - 1] as int != pad as int
    ensures Unpad(ToBytes(s), pad) == ToBytes(s)
  {
    assert ToBytes(s)[|s| - 1] as int == s[|s| - 1] as int % 256;
  }

  // ---------------------------------------------------------------------------
  // Elements

  function TagBytes(t: Tag): (b: Bytes)
    ensures |b| == 4
  {
    LE16(t.group) + LE16(t.element)
  }

  /** `writeExplicitVR` / `tagExplicit`: tag, the VR's characters, then a
      32-bit length after two reserved zero bytes for a long-form VR, or a
      16-bit length otherwise, then the value. Go's `uint16(len(data))` and
      `uint32(len(data))` wrap, and so does the model. */
  function EncodeExplicit(longVRs: set<GoString>, e: ExplicitElement): (b: Bytes)
  {
    TagBytes(e.tag) + ToBytes(e.vr)
    + (if e.vr in longVRs then [0, 0] + LE32(ToUint32(|e.value|)) else LE16(ToUint16(|e.value|)))
    + e.value
  }

  /** `writeImplicitVR`: tag, a 32-bit length, then the value. */
  function EncodeImplicit(e: ImplicitElement): (b: Bytes)
  {
    TagBytes(e.tag) + LE32(ToUint32(|e.value|)) + e.value
  }

  /** The header an element of a given VR takes before its value. */
  function ExplicitHeaderLength(longVRs: set<GoString>, vr: GoString): nat
  {
    4 + |vr| + if vr in longVRs then 6 else 2
  }

  /** The byte layout of an explicit element with a two-character VR: 12 header
      bytes (with two reserved zeros) in the long form, 8 in the short form. */
  lemma ExplicitLayout(longVRs: set<GoString>, e: ExplicitElement)
    requires |e.vr| == 2
    ensures var b := EncodeExplicit(longVRs, e);
      && |b| == ExplicitHeaderLength(longVRs, e.vr) + |e.value|
      && b[..4] == TagBytes(e.tag)
      && b[4..6] == ToBytes(e.vr)
      && (e.vr in longVRs ==>
            && |b| == 12 + |e.value|
            && b[6..8] == [0, 0]
            && b[8..12] == LE32(ToUint32(|e.value|))
            && b[12..] == e.value)
      && (e.vr !in longVRs ==>
            && |b| == 8 + |e.value|
            && b[6..8] == LE16(ToUint16(|e.value|))
            && b[8..] == e.value)
  {
  }

  /** The byte layout of an implicit element: tag, 32-bit length, value. */
  lemma ImplicitLayout(e: ImplicitElement)
    ensures var b := EncodeImplicit(e);
      && |b| == 8 + |e.value|
      && b[..4] == TagBytes(e.tag)
      && b[4..8] == LE32(ToUint32(|e.value|))
      && b[8..] == e.value
  {
  }

  /** An element whose length field can hold its value's length. */
  predicate ExplicitFits(longVRs: set<GoString>, e: ExplicitElement) {
    |e.vr| == 2 && IsByteString(e.vr) && |e.value| < (if e.vr in longVRs then 0x1_0000_0000 else 0x1_0000)
  }

  predicate ImplicitFits(e: ImplicitElement) {
    |e.value| < 0x1_0000_0000
  }

  predicate AllImplicitFit(es: seq<ImplicitElement>) {
    forall i | 0 <= i < |es| :: ImplicitFits(es[i])
  }

  lemma AllImplicitFitAppend(xs: seq<ImplicitElement>, ys: seq<ImplicitElement>)
    requires AllImplicitFit(xs) && AllImplicitFit(ys)
    ensures AllImplicitFit(xs + ys)
  {
    forall i | 0 <= i < |xs + ys| ensures ImplicitFits((xs + ys)[i]) {
      if i >= |xs| { assert (xs + ys)[i] == ys[i - |xs|]; }
    }
  }

  predicate AllExplicitFit(longVRs: set<GoString>, es: seq<ExplicitElement>) {
    forall i | 0 <= i < |es| :: ExplicitFits(longVRs, es[i])
  }

  // ---------------------------------------------------------------------------
  // Parsers: the reader's side of the encoders

  function FromBytes(b: Bytes): (s: GoString)
    ensures IsByteString(s) && ToBytes(s) == b
  {
    if b == [] then "" else
      var c := b[0] as int as char;
      var s := [c] + FromBytes(b[1..]);
      assert ToBytes(s) == [b[0]] + ToBytes(FromBytes(b[1..])) by {
        assert s[0] == c && s[1..] == FromBytes(b[1..]);
      }
      s
  }

  function ParseTag(b: Bytes): Tag
    requires |b| >= 4
  {
    Tag(DecodeLE16(b[0..2]), DecodeLE16(b[2..4]))
  }

  lemma ParseTagBytes(t: Tag, rest: Bytes)
    ensures ParseTag(TagBytes(t) + rest) == t
  {
    var b := TagBytes(t) + rest;
    assert b[0..2] == LE16(t.group) && b[2..4] == LE16(t.element);
    LE16RoundTrip(t.group);
    LE16RoundTrip(t.element);
  }

  /** Reads one implicit element off the front of `b`, returning it and the bytes after it. */
  function ParseImplicit(b: Bytes): (r: Option<(ImplicitElement, Bytes)>)
    ensures r.Some? ==> |r.value.1| < |b|
  {
    if |b| < 8 then None
    else
      var len := DecodeLE32(b[4..8]);
      if |b| - 8 < len then None
      else Some((ImplicitElement(ParseTag(b), b[8..8 + len]), b[8 + len..]))
  }

  /** Reads one explicit element off the front of `b`. */
  function ParseExplicit(longVRs: set<GoString>, b: Bytes): (r: Option<(ExplicitElement, Bytes)>)
    ensures r.Some? ==> |r.value.1| < |b|
  {
    if |b| < 8 then None
    else
      var vr := FromBytes(b[4..6]);
      if vr in longVRs then
        if |b| < 12 then None
        else
          var len := DecodeLE32(b[8..12]);
          if |b| - 12 < len then None
          else Some((ExplicitElement(ParseTag(b), vr, b[12..12 + len]), b[12 + len..]))
      else
        var len := DecodeLE16(b[6..8]);
        if |b| - 8 < len then None
        else Some((ExplicitElement(ParseTag(b), vr, b[8..8 + len]), b[8 + len..]))
  }

  lemma ImplicitRoundTrip(e: ImplicitElement, rest: Bytes)
    requires ImplicitFits(e)
    ensures ParseImplicit(EncodeImplicit(e) + rest) == Some((e, rest))
  {
    var b := EncodeImplicit(e) + rest;
    ParseTagBytes(e.tag, LE32(|e.value|) + e.value + rest);
    assert b[4..8] == LE32(|e.value|);
    LE32RoundTrip(|e.value|);
    assert b[8..8 + |e.value|] == e.value;
    assert b[8 + |e.value|..] == rest;
  }

  lemma ExplicitRoundTrip(longVRs: set<GoString>, e: ExplicitElement, rest: Bytes)
    requires ExplicitFits(longVRs, e)
    ensures ParseExplicit(longVRs, EncodeExplicit(longVRs, e) + rest) == Some((e, rest))
  {
    var b := EncodeExplicit(longVRs, e) + rest;
    var n := |e.value|;
    assert b[4..6] == ToBytes(e.vr);
    ToBytesInjective(FromBytes(b[4..6]), e.vr);
    if e.vr in longVRs {
      ParseTagBytes(e.tag, ToBytes(e.vr) + [0, 0] + LE32(n) + e.value + rest);
      assert b[8..12] == LE32(n);
      LE32RoundTrip(n);
      assert b[12..12 + n] == e.value;
      assert b[12 + n..] == rest;
    } else {
      ParseTagBytes(e.tag, ToBytes(e.vr) + LE16(n) + e.value + rest);
      assert b[6..8] == LE16(n);
      LE16RoundTrip(n);
      assert b[8..8 + n] == e.value;
      assert b[8 + n..] == rest;
    }
  }

  // ---------------------------------------------------------------------------
  // Streams of elements

  function ImplicitStream(es: seq<ImplicitElement>): (b: Bytes)
  {
    if es == [] then [] else EncodeImplicit(es[0]) + ImplicitStream(es[1..])
  }

  function ExplicitStream(longVRs: set<GoString>, es: seq<ExplicitElement>): (b: Bytes)
  {
    if es == [] then [] else EncodeExplicit(longVRs, es[0]) + ExplicitStream(longVRs, es[1..])
  }

  function ParseImplicitStream(b: Bytes): Option<seq<ImplicitElement>>
    decreases |b|
  {
    if b == [] then Some([])
    else match ParseImplicit(b)
      case None => None
      case Some((e, rest)) =>
        match ParseImplicitStream(rest)
        case None => None
        case Some(es) => Some([e] + es)
  }

  function ParseExplicitStream(longVRs: set<GoString>, b: Bytes): Option<seq<ExplicitElement>>
    decreases |b|
  {
    if b == [] then Some([])
    else match ParseExplicit(longVRs, b)
      case None => None
      case Some((e, rest)) =>
        match ParseExplicitStream(longVRs, rest)
        case None => None
        case Some(es) => Some([e] + es)
  }

  /** Decoding an implicit-VR stream gives back the elements that were written. */
  lemma {:induction false} ImplicitStreamRoundTrip(es: seq<ImplicitElement>)
    requires forall i | 0 <= i < |es| :: ImplicitFits(es[i])
    ensures ParseImplicitStream(ImplicitStream(es)) == Some(es)
  {
    if es != [] {
      ImplicitRoundTrip(es[0], ImplicitStream(es[1..]));
      ImplicitStreamRoundTrip(es[1..]);
      assert [es[0]] + es[1..] == es;
    }
  }

  /** Decoding an explicit-VR stream gives back the elements that were written. */
  lemma {:induction false} ExplicitStreamRoundTrip(longVRs: set<GoString>, es: seq<ExplicitElement>)
    requires forall i | 0 <= i < |es| :: ExplicitFits(longVRs, es[i])
    ensures ParseExplicitStream(longVRs, ExplicitStream(longVRs, es)) == Some(es)
  {
    if es != [] {
      ExplicitRoundTrip(longVRs, es[0], ExplicitStream(longVRs, es[1..]));
      ExplicitStreamRoundTrip(longVRs, es[1..]);
      assert [es[0]] + es[1..] == es;
    }
  }

  lemma {:induction false} ImplicitStreamAppend(xs: seq<ImplicitElement>, ys: seq<ImplicitElement>)
    ensures ImplicitStream(xs + ys) == ImplicitStream(xs) + ImplicitStream(ys)
  {
    if xs != [] {
      assert (xs + ys)[0] == xs[0] && (xs + ys)[1..] == xs[1..] + ys;
      ImplicitStreamAppend(xs[1..], ys);
    } else {
      assert xs + ys == ys;
    }
  }

  lemma {:induction false} ExplicitStreamAppend(longVRs: set<GoString>, xs: seq<ExplicitElement>, ys: seq<ExplicitElement>)
    ensures ExplicitStream(longVRs, xs + ys) == ExplicitStream(longVRs, xs) + ExplicitStream(longVRs, ys)
  {
    if xs != [] {
      assert (xs + ys)[0] == xs[0] && (xs + ys)[1..] == xs[1..] + ys;
      ExplicitStreamAppend(longVRs, xs[1..], ys);
    } else {
      assert xs + ys == ys;
    }
  }

  lemma ImplicitStreamSnoc(xs: seq<ImplicitElement>, e: ImplicitElement)
    ensures ImplicitStream(xs + [e]) == ImplicitStream(xs) + EncodeImplicit(e)
  {
    ImplicitStreamAppend(xs, [e]);
    assert ImplicitStream([e]) == EncodeImplicit(e) + ImplicitStream([]);
  }

  lemma ExplicitStreamSnoc(longVRs: set<GoString>, xs: seq<ExplicitElement>, e: ExplicitElement)
    ensures ExplicitStream(longVRs, xs + [e]) == ExplicitStream(longVRs, xs) + EncodeExplicit(longVRs, e)
  {
    ExplicitStreamAppend(longVRs, xs, [e]);
    assert ExplicitStream(longVRs, [e]) == EncodeExplicit(longVRs, e) + ExplicitStream(longVRs, []);
  }

  /** A stream starts with its first element's tag and length. */
  lemma ImplicitStreamStart(es: seq<ImplicitElement>)
    requires |es| > 0
    ensures var b := ImplicitStream(es);
            |b| >= 8 && b[..4] == TagBytes(es[0].tag) && b[4..8] == LE32(ToUint32(|es[0].value|))
  {
    ImplicitLayout(es[0]);
  }

  /** Two runs of elements written one after the other. */
  lemma ImplicitStreamConcat(p: Bytes, xs: seq<ImplicitElement>, ys: seq<ImplicitElement>)
    ensures p + ImplicitStream(xs + ys) == (p + ImplicitStream(xs)) + ImplicitStream(ys)
  {
    ImplicitStreamAppend(xs, ys);
  }

  lemma ExplicitStreamConcat(longVRs: set<GoString>, p: Bytes, xs: seq<ExplicitElement>, ys: seq<ExplicitElement>)
    ensures p + ExplicitStream(longVRs, xs + ys) == (p + ExplicitStream(longVRs, xs)) + ExplicitStream(longVRs, ys)
  {
    ExplicitStreamAppend(longVRs, xs, ys);
  }

  /** The stream of 4 elements, element by element. */
  lemma ExplicitStreamFour(longVRs: set<GoString>, es: seq<ExplicitElement>)
    requires |es| == 4
    ensures ExplicitStream(longVRs, es)
            == EncodeExplicit(longVRs, es[0]) + EncodeExplicit(longVRs, es[1]) + EncodeExplicit(longVRs, es[2])
               + EncodeExplicit(longVRs, es[3])
  {
    assert es[4..] == [];
    assert es[3..][1..] == es[4..];
    assert ExplicitStream(longVRs, es[3..]) == EncodeExplicit(longVRs, es[3]);
    assert es[2..][1..] == es[3..];
    assert ExplicitStream(longVRs, es[2..]) == EncodeExplicit(longVRs, es[2]) + EncodeExplicit(longVRs, es[3]);
    assert es[1..][1..] == es[2..];
    assert ExplicitStream(longVRs, es[1..]) == EncodeExplicit(longVRs, es[1]) + EncodeExplicit(longVRs, es[2]) + EncodeExplicit(longVRs, es[3]);
  }

  /** The stream of 5 elements, element by element. */
  lemma ExplicitStreamFive(longVRs: set<GoString>, es: seq<ExplicitElement>)
    requires |es| == 5
    ensures ExplicitStream(longVRs, es)
            == EncodeExplicit(longVRs, es[0]) + EncodeExplicit(longVRs, es[1]) + EncodeExplicit(longVRs, es[2])
               + EncodeExplicit(longVRs, es[3]) + EncodeExplicit(longVRs, es[4])
  {
    ExplicitStreamFour(longVRs, es[1..]);
    assert forall j | 0 <= j < 4 :: es[1..][j] == es[j + 1];
    assert ExplicitStream(longVRs, es[1..]) == EncodeExplicit(longVRs, es[1]) + EncodeExplicit(longVRs, es[2]) + EncodeExplicit(longVRs, es[3]) + EncodeExplicit(longVRs, es[4]);
  }

  /** The stream of 6 elements, element by element. */
  lemma ExplicitStreamSix(longVRs: set<GoString>, es: seq<ExplicitElement>)
    requires |es| == 6
    ensures ExplicitStream(longVRs, es)
            == EncodeExplicit(longVRs, es[0]) + EncodeExplicit(longVRs, es[1]) + EncodeExplicit(longVRs, es[2])
               + EncodeExplicit(longVRs, es[3]) + EncodeExplicit(longVRs, es[4]) + EncodeExplicit(longVRs, es[5])
  {
    ExplicitStreamFive(longVRs, es[1..]);
    assert forall j | 0 <= j < 5 :: es[1..][j] == es[j + 1];
    assert ExplicitStream(longVRs, es[1..]) == EncodeExplicit(longVRs, es[1]) + EncodeExplicit(longVRs, es[2]) + EncodeExplicit(longVRs, es[3]) + EncodeExplicit(longVRs, es[4]) + EncodeExplicit(longVRs, es[5]);
  }

  /** The stream of 3 elements, element by element. */
  lemma ImplicitStreamThree(es: seq<ImplicitElement>)
    requires |es| == 3
    ensures ImplicitStream(es)
            == EncodeImplicit(es[0]) + EncodeImplicit(es[1]) + EncodeImplicit(es[2])
  {
    assert es[3..] == [];
    assert es[2..][1..] == es[3..];
    assert ImplicitStream(es[2..]) == EncodeImplicit(es[2]);
    assert es[1..][1..] == es[2..];
    assert ImplicitStream(es[1..]) == EncodeImplicit(es[1]) + EncodeImplicit(es[2]);
  }

  /** The stream of 4 elements, element by element. */
  lemma ImplicitStreamFour(es: seq<ImplicitElement>)
    requires |es| == 4
    ensures ImplicitStream(es)
            == EncodeImplicit(es[0]) + EncodeImplicit(es[1]) + EncodeImplicit(es[2])
               + EncodeImplicit(es[3])
  {
    ImplicitStreamThree(es[1..]);
    assert forall j | 0 <= j < 3 :: es[1..][j] == es[j + 1];
    assert ImplicitStream(es[1..]) == EncodeImplicit(es[1]) + EncodeImplicit(es[2]) + EncodeImplicit(es[3]);
  }

  /** The stream of 5 elements, element by element. */
  lemma ImplicitStreamFive(es: seq<ImplicitElement>)
    requires |es| == 5
    ensures ImplicitStream(es)
            == EncodeImplicit(es[0]) + EncodeImplicit(es[1]) + EncodeImplicit(es[2])
               + EncodeImplicit(es[3]) + EncodeImplicit(es[4])
  {
    ImplicitStreamFour(es[1..]);
    assert forall j | 0 <= j < 4 :: es[1..][j] == es[j + 1];
    assert ImplicitStream(es[1..]) == EncodeImplicit(es[1]) + EncodeImplicit(es[2]) + EncodeImplicit(es[3]) + EncodeImplicit(es[4]);
  }

  // ---------------------------------------------------------------------------
  // Tag order

  function TagNumber(t: Tag): nat {
    t.group * 0x1_0000 + t.element
  }

  /** (group, element) order. */
  predicate TagLess(a: Tag, b: Tag) {
    a.group < b.group || (a.group == b.group && a.element < b.element)
  }

  lemma TagLessIsNumberOrder(a: Tag, b: Tag)
    ensures TagLess(a, b) <==> TagNumber(a) < TagNumber(b)
  {
  }

  /** Each tag is below the next one. */
  predicate AdjacentAscending(ts: seq<Tag>) {
    forall i | 0 <= i < |ts| - 1 :: TagLess(ts[i], ts[i + 1])
  }

  /** Every tag is below every later one. */
  predicate StrictlyAscending(ts: seq<Tag>) {
    forall i, j | 0 <= i < j < |ts| :: TagLess(ts[i], ts[j])
  }

  lemma {:induction false} AdjacentAscendingIsSorted(ts: seq<Tag>)
    requires AdjacentAscending(ts)
    ensures StrictlyAscending(ts)
  {
    if |ts| > 1 {
      AdjacentAscendingIsSorted(ts[1..]);
      forall j | 1 <= j < |ts| ensures TagLess(ts[0], ts[j]) {
        if j > 1 {
          assert TagLess(ts[1], ts[j]) by { assert ts[1..][0] == ts[1] && ts[1..][j - 1] == ts[j]; }
        }
      }
      forall i, j | 0 <= i < j < |ts| ensures TagLess(ts[i], ts[j]) {
        if i > 0 { assert ts[1..][i - 1] == ts[i] && ts[1..][j - 1] == ts[j]; }
      }
    }
  }

  /** Two ascending runs, the first ending below the start of the second, ascend together. */
  lemma AscendingAppend(xs: seq<Tag>, ys: seq<Tag>)
    requires StrictlyAscending(xs) && StrictlyAscending(ys)
    requires |xs| > 0 && |ys| > 0 && TagLess(xs[|xs| - 1], ys[0])
    ensures StrictlyAscending(xs + ys)
  {
    var zs := xs + ys;
    forall i, j | 0 <= i < j < |zs| ensures TagLess(zs[i], zs[j]) {
      if j >= |xs| && i < |xs| {
        assert zs[i] == xs[i] && zs[j] == ys[j - |xs|];
        if i < |xs| - 1 { assert TagLess(xs[i], xs[|xs| - 1]); }
        if j > |xs| { assert TagLess(ys[0], ys[j - |xs|]); }
      } else if i >= |xs| {
        assert zs[i] == ys[i - |xs|] && zs[j] == ys[j - |xs|];
      } else {
        assert zs[i] == xs[i] && zs[j] == xs[j];
      }
    }
  }

  function ImplicitTags(es: seq<ImplicitElement>): (ts: seq<Tag>)
    ensures |ts| == |es| && forall i | 0 <= i < |es| :: ts[i] == es[i].tag
  {
    seq(|es|, i requires 0 <= i < |es| => es[i].tag)
  }

  lemma ImplicitTagsAppend(xs: seq<ImplicitElement>, ys: seq<ImplicitElement>)
    ensures ImplicitTags(xs + ys) == ImplicitTags(xs) + ImplicitTags(ys)
  {
    assert forall i | 0 <= i < |xs + ys| :: ImplicitTags(xs + ys)[i] == (ImplicitTags(xs) + ImplicitTags(ys))[i];
  }

  function ExplicitTags(es: seq<ExplicitElement>): (ts: seq<Tag>)
    ensures |ts| == |es| && forall i | 0 <= i < |es| :: ts[i] == es[i].tag
  {
    seq(|es|, i requires 0 <= i < |es| => es[i].tag)
  }

  lemma ExplicitTagsAppend(xs: seq<ExplicitElement>, ys: seq<ExplicitElement>)
    ensures ExplicitTags(xs + ys) == ExplicitTags(xs) + ExplicitTags(ys)
  {
    assert forall i | 0 <= i < |xs + ys| :: ExplicitTags(xs + ys)[i] == (ExplicitTags(xs) + ExplicitTags(ys))[i];
  }

  // ---------------------------------------------------------------------------
  // Encapsulated pixel data (PS3.5 section A.4)

  const PixelDataTag := Tag(0x7FE0, 0x0010)
  const ItemTag := Tag(0xFFFE, 0xE000)
  const SequenceDelimiterTag := Tag(0xFFFE, 0xE0DD)
  const UndefinedLength: uint32 := 0xFFFF_FFFF

  /** An empty basic offset table item, one fragment item holding the whole
      JPEG stream (not padded), and the sequence delimiter with length 0. */
  function EncapsulatedItems(jpeg: Bytes): (b: Bytes)
  {
    TagBytes(ItemTag) + LE32(0)
    + TagBytes(ItemTag) + LE32(ToUint32(|jpeg|)) + jpeg
    + TagBytes(SequenceDelimiterTag) + LE32(0)
  }

  /** Reads back the single fragment of `EncapsulatedItems`. */
  function ParseEncapsulatedItems(b: Bytes): Option<Bytes>
  {
    if |b| < 16 || b[..8] != TagBytes(ItemTag) + LE32(0) || b[8..12] != TagBytes(ItemTag) then None
    else
      var len := DecodeLE32(b[12..16]);
      if |b| != 16 + len + 8 || b[16 + len..] != TagBytes(SequenceDelimiterTag) + LE32(0) then None
      else Some(b[16..16 + len])
  }

  lemma EncapsulatedItemsLayout(jpeg: Bytes)
    ensures var b := EncapsulatedItems(jpeg);
      && |b| == 24 + |jpeg|
      && b[..8] == TagBytes(ItemTag) + LE32(0)
      && b[8..12] == TagBytes(ItemTag) && b[12..16] == LE32(ToUint32(|jpeg|))
      && b[16..16 + |jpeg|] == jpeg
      && b[16 + |jpeg|..] == TagBytes(SequenceDelimiterTag) + LE32(0)
  {
  }

  /** A fragment shorter than 4 GiB is read back unchanged. */
  lemma EncapsulatedItemsRoundTrip(jpeg: Bytes)
    requires |jpeg| < 0x1_0000_0000
    ensures ParseEncapsulatedItems(EncapsulatedItems(jpeg)) == Some(jpeg)
  {
    EncapsulatedItemsLayout(jpeg);
    LE32RoundTrip(|jpeg|);
  }

  // ---------------------------------------------------------------------------
  // The file header (PS3.10 section 7.1) and the byte sink

  /** Secondary Capture Image Storage, the SOP class all three writers declare. */
  const SecondaryCaptureUid: GoString := "1.2.840.10008.5.1.4.1.1.7"
  /** JPEG Baseline (Process 1), an encapsulated transfer syntax (PS3.5 section A.4). */
  const JpegBaselineUid: GoString := "1.2.840.10008.1.2.4.50"
  /** Explicit VR Little Endian (PS3.5 section A.2). */
  const ExplicitVRLittleEndianUid: GoString := "1.2.840.10008.1.2.1"

  /** A UID as section 9.1 of PS3.5 allows it: 1 to 64 characters, digits and dots. */
  predicate UidChars(s: GoString) {
    forall i | 0 <= i < |s| :: s[i] == '.' || '0' <= s[i] <= '9'
  }

  predicate ValidUid(s: GoString) {
    0 < |s| <= 64 && UidChars(s)
  }

  lemma UidCharsAppend(a: GoString, b: GoString)
    requires UidChars(a) && UidChars(b)
    ensures UidChars(a + b)
  {
    forall i | 0 <= i < |a + b| ensures (a + b)[i] == '.' || '0' <= (a + b)[i] <= '9' {
      if i >= |a| { assert (a + b)[i] == b[i - |a|]; }
    }
  }

  /** The 128-byte zero preamble followed by the ASCII prefix "DICM". */
  function FileHeader(): (b: Bytes)
  {
    Zeros(128) + ToBytes("DICM")
  }

  lemma FileHeaderShape()
    ensures |FileHeader()| == 132
    ensures forall i | 0 <= i < 128 :: FileHeader()[i] == 0
    ensures FileHeader()[128..] == [0x44, 0x49, 0x43, 0x4D]
  {
    var d := ToBytes("DICM");
    assert d[0] == 0x44 && d[1] == 0x49 && d[2] == 0x43 && d[3] == 0x4D;
    assert FileHeader()[128..] == d;
  }

  // ---------------------------------------------------------------------------
  // A reader's view of a Part 10 file (PS3.10 section 7.1)

  /** The (0002,0000) group length element, holding `n` as a UL. */
  function GroupLengthElement(n: int): ExplicitElement
  {
    ExplicitElement(Tag(0x0002, 0x0000), "UL", LE32(ToUint32(n)))
  }

  /** Reads the group length element, then exactly as many bytes of meta
      elements as it announces; returns those elements and the bytes after the group. */
  function ParseMetaGroup(longVRs: set<GoString>, b: Bytes): Option<(seq<ExplicitElement>, Bytes)>
  {
    match ParseExplicit(longVRs, b)
    case None => None
    case Some((gl, rest)) =>
      if gl.tag != Tag(0x0002, 0x0000) || gl.vr != "UL" || |gl.value| != 4 then None
      else
        var n := DecodeLE32(gl.value);
        if |rest| < n then None
        else match ParseExplicitStream(longVRs, rest[..n])
          case None => None
          case Some(es) => Some((es, rest[n..]))
  }

  /** A group length equal to the byte count of the meta elements lets a reader
      recover exactly those elements and the dataset behind them. */
  lemma MetaGroupRoundTrip(longVRs: set<GoString>, es: seq<ExplicitElement>, rest: Bytes)
    requires "UL" !in longVRs
    requires forall i | 0 <= i < |es| :: ExplicitFits(longVRs, es[i])
    requires |ExplicitStream(longVRs, es)| < 0x1_0000_0000
    ensures var meta := ExplicitStream(longVRs, es);
            ParseMetaGroup(longVRs, EncodeExplicit(longVRs, GroupLengthElement(|meta|)) + meta + rest)
            == Some((es, rest))
  {
    var meta := ExplicitStream(longVRs, es);
    var gl := GroupLengthElement(|meta|);
    var tail := meta + rest;
    assert EncodeExplicit(longVRs, gl) + meta + rest == EncodeExplicit(longVRs, gl) + tail;
    ExplicitRoundTrip(longVRs, gl, tail);
    LE32RoundTrip(|meta|);
    assert tail[..|meta|] == meta && tail[|meta|..] == rest;
    ExplicitStreamRoundTrip(longVRs, es);
  }

  /** Whatever a reader makes of a group whose length field is not the byte count
      of the meta elements, it is not those elements followed by the dataset. */
  lemma MetaGroupMisread(longVRs: set<GoString>, n: nat, es: seq<ExplicitElement>, rest: Bytes)
    requires "UL" !in longVRs
    requires n < 0x1_0000_0000 && n != |ExplicitStream(longVRs, es)|
    ensures var meta := ExplicitStream(longVRs, es);
            ParseMetaGroup(longVRs, EncodeExplicit(longVRs, GroupLengthElement(n)) + meta + rest)
            != Some((es, rest))
  {
    var meta := ExplicitStream(longVRs, es);
    var gl := GroupLengthElement(n);
    var tail := meta + rest;
    assert EncodeExplicit(longVRs, gl) + meta + rest == EncodeExplicit(longVRs, gl) + tail;
    ExplicitRoundTrip(longVRs, gl, tail);
    LE32RoundTrip(n);
  }

  lemma TagBytesInjective(a: Tag, b: Tag)
    ensures TagBytes(a) == TagBytes(b) ==> a == b
  {
    ParseTagBytes(a, []);
    ParseTagBytes(b, []);
    assert TagBytes(a) + [] == TagBytes(a) && TagBytes(b) + [] == TagBytes(b);
  }

  /** (7FE0,0010) with undefined length, as an implicit-VR dataset announces encapsulated pixel data. */
  function ImplicitPixelHeader(): (b: Bytes)
    ensures |b| == 8
  {
    TagBytes(PixelDataTag) + LE32(UndefinedLength)
  }

  /** Reads implicit elements up to the encapsulated pixel data header and
      returns them with the item bytes after that header. */
  function ParseImplicitDataset(b: Bytes): Option<(seq<ImplicitElement>, Bytes)>
    decreases |b|
  {
    if |b| >= 8 && b[..8] == ImplicitPixelHeader() then Some(([], b[8..]))
    else match ParseImplicit(b)
      case None => None
      case Some((e, rest)) =>
        match ParseImplicitDataset(rest)
        case None => None
        case Some((es, items)) => Some(([e] + es, items))
  }

  /** Elements that fit and are not themselves pixel data are read back, and so are the items. */
  lemma {:induction false} ImplicitDatasetRoundTrip(es: seq<ImplicitElement>, items: Bytes)
    requires forall i | 0 <= i < |es| :: ImplicitFits(es[i]) && es[i].tag != PixelDataTag
    ensures ParseImplicitDataset(ImplicitStream(es) + ImplicitPixelHeader() + items) == Some((es, items))
  {
    var h := ImplicitPixelHeader();
    var b := ImplicitStream(es) + h + items;
    if es == [] {
      assert b == h + items;
      assert b[..8] == h && b[8..] == items;
    } else {
      var tail := ImplicitStream(es[1..]) + h + items;
      assert b == EncodeImplicit(es[0]) + tail;
      assert b[..4] == TagBytes(es[0].tag);
      assert h[..4] == TagBytes(PixelDataTag);
      TagBytesInjective(es[0].tag, PixelDataTag);
      assert b[..8][..4] == TagBytes(es[0].tag);
      ImplicitRoundTrip(es[0], tail);
      ImplicitDatasetRoundTrip(es[1..], items);
      assert [es[0]] + es[1..] == es;
    }
  }

  /** Where the meta group starts in a file made of the header, the group
      length element, the meta elements, the dataset and the pixel data. */
  lemma FileSplit(header: Bytes, groupLength: Bytes, meta: Bytes, dataset: Bytes, pixels: Bytes)
    requires |header| == 132
    ensures var f := header + groupLength + meta + dataset + pixels;
            f[..132] == header && f[132..] == groupLength + meta + (dataset + pixels)
  {
  }

  /** A file of one explicit dataset cut after "DICM". */
  lemma ExplicitFileSplit(longVRs: set<GoString>, n: int, meta: Bytes, rest: Bytes)
    ensures var gl := EncodeExplicit(longVRs, GroupLengthElement(n));
            var f := FileHeader() + gl + meta + rest;
            |f| >= 132 && f[..132] == FileHeader() && f[132..] == gl + meta + rest
  {
    FileHeaderShape();
    FileSplit(FileHeader(), EncodeExplicit(longVRs, GroupLengthElement(n)), meta, rest, []);
    assert rest + [] == rest;
  }

  /** A whole file whose dataset is implicit VR with encapsulated pixel data:
      the preamble and "DICM", the meta group, the dataset, the fragment. */
  function ReadImplicitFile(longVRs: set<GoString>, f: Bytes): Option<(seq<ExplicitElement>, seq<ImplicitElement>, Bytes)>
  {
    if |f| < 132 || f[..132] != FileHeader() then None
    else match ParseMetaGroup(longVRs, f[132..])
      case None => None
      case Some((meta, dataset)) =>
        match ParseImplicitDataset(dataset)
        case None => None
        case Some((es, items)) =>
          match ParseEncapsulatedItems(items)
          case None => None
          case Some(jpeg) => Some((meta, es, jpeg))
  }

  /** (7FE0,0010) OB with undefined length, as an explicit-VR dataset announces
      encapsulated pixel data: tag, "OB", two reserved bytes, 0xFFFFFFFF. */
  function ExplicitPixelHeader(): (b: Bytes)
    ensures |b| == 12
  {
    TagBytes(PixelDataTag) + ToBytes("OB") + [0, 0] + LE32(UndefinedLength)
  }

  /** The header as written piece by piece: the two tag halves, the VR, the
      reserved bytes and the undefined length. */
  lemma ExplicitPixelHeaderParts()
    ensures ExplicitPixelHeader() == LE16(0x7FE0) + LE16(0x0010) + ToBytes("OB") + [0x00, 0x00] + LE32(0xFFFF_FFFF)
  {
  }

  /** An element a reader cannot mistake for the start of encapsulated pixel data. */
  predicate NotEncapsulatedHeader(e: ExplicitElement) {
    e.tag != PixelDataTag || (e.vr == "OB" && |e.value| < UndefinedLength)
  }

  /** Reads explicit elements up to the end of the bytes or up to the
      encapsulated pixel data header, and returns them with the item bytes
      after that header (none when the dataset simply ends). */
  function ParseExplicitDataset(longVRs: set<GoString>, b: Bytes): Option<(seq<ExplicitElement>, Bytes)>
    decreases |b|
  {
    if b == [] then Some(([], []))
    else if |b| >= 12 && b[..12] == ExplicitPixelHeader() then Some(([], b[12..]))
    else match ParseExplicit(longVRs, b)
      case None => None
      case Some((e, rest)) =>
        match ParseExplicitDataset(longVRs, rest)
        case None => None
        case Some((es, items)) => Some(([e] + es, items))
  }

  /** An explicit element is never mistaken for the encapsulated pixel data header. */
  lemma ExplicitElementNotHeader(longVRs: set<GoString>, e: ExplicitElement, rest: Bytes)
    requires "OB" in longVRs && ExplicitFits(longVRs, e) && NotEncapsulatedHeader(e)
    ensures var b := EncodeExplicit(longVRs, e) + rest;
            b != [] && (|b| >= 12 ==> b[..12] != ExplicitPixelHeader())
  {
    var b := EncodeExplicit(longVRs, e) + rest;
    var h := ExplicitPixelHeader();
    ExplicitLayout(longVRs, e);
    assert b[..4] == TagBytes(e.tag);
    if |b| >= 12 && b[..12] == h {
      if e.tag != PixelDataTag {
        assert b[..12][..4] == h[..4];
        TagBytesInjective(e.tag, PixelDataTag);
      } else {
        assert b[8..12] == LE32(ToUint32(|e.value|));
        assert b[..12][8..12] == h[8..12] == LE32(UndefinedLength);
        LE32Injective(|e.value|, UndefinedLength);
      }
    }
  }

  predicate DatasetReadable(longVRs: set<GoString>, es: seq<ExplicitElement>) {
    forall i | 0 <= i < |es| :: ExplicitFits(longVRs, es[i]) && NotEncapsulatedHeader(es[i])
  }

  lemma DatasetReadableAppend(longVRs: set<GoString>, xs: seq<ExplicitElement>, ys: seq<ExplicitElement>)
    requires DatasetReadable(longVRs, xs) && DatasetReadable(longVRs, ys)
    ensures DatasetReadable(longVRs, xs + ys)
  {
    forall i | 0 <= i < |xs + ys|
      ensures ExplicitFits(longVRs, (xs + ys)[i]) && NotEncapsulatedHeader((xs + ys)[i])
    {
      if i >= |xs| { assert (xs + ys)[i] == ys[i - |xs|]; }
    }
  }

  /** Elements that fit are read back, and so are the item bytes after the
      encapsulated pixel data header, if there is one. */
  lemma {:induction false} ExplicitDatasetRoundTrip(longVRs: set<GoString>, es: seq<ExplicitElement>, tail: Bytes)
    requires "OB" in longVRs && DatasetReadable(longVRs, es)
    requires tail == [] || (|tail| >= 12 && tail[..12] == ExplicitPixelHeader())
    ensures ParseExplicitDataset(longVRs, ExplicitStream(longVRs, es) + tail)
            == Some((es, if tail == [] then [] else tail[12..]))
  {
    var b := ExplicitStream(longVRs, es) + tail;
    if es == [] {
      assert b == tail;
    } else {
      var rest := ExplicitStream(longVRs, es[1..]) + tail;
      assert b == EncodeExplicit(longVRs, es[0]) + rest;
      ExplicitDatasetStep(longVRs, es[0], rest);
      ExplicitDatasetRoundTrip(longVRs, es[1..], tail);
      assert [es[0]] + es[1..] == es;
    }
  }

  /** One element that fits is read off the front of a dataset. */
  lemma ExplicitDatasetStep(longVRs: set<GoString>, e: ExplicitElement, rest: Bytes)
    requires "OB" in longVRs && ExplicitFits(longVRs, e) && NotEncapsulatedHeader(e)
    ensures var r := ParseExplicitDataset(longVRs, rest);
            ParseExplicitDataset(longVRs, EncodeExplicit(longVRs, e) + rest)
            == if r.Some? then Some(([e] + r.value.0, r.value.1)) else None
  {
    ExplicitElementNotHeader(longVRs, e, rest);
    ExplicitRoundTrip(longVRs, e, rest);
  }

  /** A whole file whose dataset is explicit VR: the preamble and "DICM", the
      meta group, the dataset, and the bytes after an encapsulated pixel data header. */
  function ReadExplicitFile(longVRs: set<GoString>, f: Bytes): Option<(seq<ExplicitElement>, seq<ExplicitElement>, Bytes)>
  {
    if |f| < 132 || f[..132] != FileHeader() then None
    else match ParseMetaGroup(longVRs, f[132..])
      case None => None
      case Some((meta, dataset)) =>
        match ParseExplicitDataset(longVRs, dataset)
        case None => None
        case Some((es, items)) => Some((meta, es, items))
  }

  /** A file made of the header, a group length equal to the meta elements'
      byte count, the meta elements, an explicit dataset and either nothing or
      an encapsulated pixel data header and its items reads back whole. */
  lemma ExplicitFileReadsBack(longVRs: set<GoString>, metaEs: seq<ExplicitElement>, es: seq<ExplicitElement>, tail: Bytes)
    requires "UL" !in longVRs && "OB" in longVRs
    requires AllExplicitFit(longVRs, metaEs) && |ExplicitStream(longVRs, metaEs)| < 0x1_0000_0000
    requires DatasetReadable(longVRs, es)
    requires tail == [] || (|tail| >= 12 && tail[..12] == ExplicitPixelHeader())
    ensures var meta := ExplicitStream(longVRs, metaEs);
            var f := FileHeader() + EncodeExplicit(longVRs, GroupLengthElement(|meta|)) + meta
                     + ExplicitStream(longVRs, es) + tail;
            ReadExplicitFile(longVRs, f) == Some((metaEs, es, if tail == [] then [] else tail[12..]))
  {
    var meta := ExplicitStream(longVRs, metaEs);
    var gl := EncodeExplicit(longVRs, GroupLengthElement(|meta|));
    FileHeaderShape();
    FileSplit(FileHeader(), gl, meta, ExplicitStream(longVRs, es), tail);
    MetaGroupRoundTrip(longVRs, metaEs, ExplicitStream(longVRs, es) + tail);
    ExplicitDatasetRoundTrip(longVRs, es, tail);
  }

  /** The same for a file that ends with its dataset. */
  lemma ExplicitFileReadsBackWhole(longVRs: set<GoString>, metaEs: seq<ExplicitElement>, es: seq<ExplicitElement>)
    requires "UL" !in longVRs && "OB" in longVRs
    requires AllExplicitFit(longVRs, metaEs) && |ExplicitStream(longVRs, metaEs)| < 0x1_0000_0000
    requires DatasetReadable(longVRs, es)
    ensures var meta := ExplicitStream(longVRs, metaEs);
            var f := FileHeader() + EncodeExplicit(longVRs, GroupLengthElement(|meta|)) + meta
                     + ExplicitStream(longVRs, es);
            ReadExplicitFile(longVRs, f) == Some((metaEs, es, []))
  {
    var f := FileHeader() + EncodeExplicit(longVRs, GroupLengthElement(|ExplicitStream(longVRs, metaEs)|))
             + ExplicitStream(longVRs, metaEs) + ExplicitStream(longVRs, es);
    assert f + [] == f;
    ExplicitFileReadsBack(longVRs, metaEs, es, []);
  }

  /** An `*os.File` or a `bytes.Buffer` as the writers use it: bytes are only
      appended, and a write never fails (the writers ignore its error). */
  class ByteWriter {
    var data: Bytes

    constructor ()
      ensures data == []
    {
      data := [];
    }

    /** `Write(b)` / `binary.Write`. */
    method Write(b: Bytes)
      modifies this
      ensures data == old(data) + b
    {
      data := data + b;
    }
  }

  /** An item or delimiter header: (FFFE,<element>) and a 32-bit length,
      three little-endian writes in the source. */
  method WriteItemHeader(file: ByteWriter, element: uint16, length: uint32)
    modifies file
    ensures file.data == old(file.data) + (TagBytes(Tag(0xFFFE, element)) + LE32(length))
  {
    file.Write(LE16(0xFFFE));
    file.Write(LE16(element));
    file.Write(LE32(length));
  }

  /** The items of encapsulated pixel data as the JPEG writers emit them: an
      empty basic offset table, one fragment, the sequence delimiter. */
  method WriteEncapsulatedItems(file: ByteWriter, jpeg: Bytes)
    modifies file
    ensures file.data == old(file.data) + EncapsulatedItems(jpeg)
  {
    WriteItemHeader(file, 0xE000, 0);
    WriteItemHeader(file, 0xE000, ToUint32(|jpeg|));
    file.Write(jpeg);
    WriteItemHeader(file, 0xE0DD, 0);
  }
}
